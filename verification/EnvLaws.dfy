/** What the reader sees in a file the writer has been over. */
module EnvLaws {
  import opened Market
  import opened EnvFile

  // ---------------------------------------------------------------- lines with breaks inside

  predicate AllSingle(lines: seq<string>) {
    forall i :: 0 <= i < |lines| ==> SingleLine(lines[i])
  }

  /** A line break at the very end would run into the one that ends the line. */
  predicate Sealed(line: string) {
    line == "" || !IsBreak(line[|line| - 1])
  }

  predicate AllSealed(lines: seq<string>) {
    forall i :: 0 <= i < |lines| ==> Sealed(lines[i])
  }

  /** The lines of the file that one written line becomes. */
  function Pieces(line: string): (r: seq<string>)
    ensures |r| >= 1
    ensures SingleLine(line) ==> r == [line]
    ensures |r| == 1 ==> SingleLine(line)
    decreases |line|
  {
    var i := LineEnd(line);
    if i == |line| then [line]
    else [line[..i]] + Pieces(line[i + BreakLength(line, i)..])
  }

  function Flat(lines: seq<string>): seq<string> {
    if lines == [] then [] else Pieces(lines[0]) + Flat(lines[1..])
  }

  lemma EndIs(text: string, i: nat)
    requires i < |text| && IsBreak(text[i]) && forall j :: 0 <= j < i ==> !IsBreak(text[j])
    ensures LineEnd(text) == i
  {
    hide IsBreak, LineEnd;
  }

  /** The first break inside a sealed line is the first break of a text that goes on after it. */
  lemma EndInside(line: string, rest: string, i: nat)
    requires Sealed(line) && i == LineEnd(line) < |line|
    ensures var text, n := line + "\n" + rest, BreakLength(line, i);
            && LineEnd(text) == i && BreakLength(text, i) == n
            && text[..i] == line[..i] && text[i + n..] == line[i + n..] + "\n" + rest
            && Sealed(line[i + n..])
  {
    hide IsBreak, LineEnd, BreakLength;
    var text, n := line + "\n" + rest, BreakLength(line, i);
    assert IsBreak(line[i]) && forall j :: 0 <= j < i ==> line[j] == line[..i][j];
    Continues(line, rest);
    EndIs(text, i);
    assert i < |line| - 1;
    SameBreak(line, text, i);
    TailIsSealed(line, i + n);
  }

  lemma TailIsSealed(line: string, k: nat)
    requires Sealed(line) && k < |line|
    ensures Sealed(line[k..])
  {
    hide IsBreak;
    assert line[k..][|line| - k - 1] == line[|line| - 1];
  }

  lemma Continues(line: string, rest: string)
    ensures var text := line + "\n" + rest;
            && (forall j :: 0 <= j < |line| ==> text[j] == line[j])
            && (forall k :: 0 <= k <= |line| ==> text[..k] == line[..k] && text[k..] == line[k..] + "\n" + rest)
  {
  }

  lemma SameBreak(line: string, text: string, i: nat)
    requires |line| <= |text| && (forall j :: 0 <= j < |line| ==> text[j] == line[j])
    requires i < |line| - 1 && IsBreak(line[i]) && !IsBreak(line[|line| - 1])
    ensures BreakLength(text, i) == BreakLength(line, i) && i + BreakLength(line, i) < |line|
  {
    assert IsBreak('\n');
    hide IsBreak;
  }

  lemma RoomAfter(line: string, i: nat)
    requires Sealed(line) && i == LineEnd(line) < |line|
    ensures i + BreakLength(line, i) < |line|
  {
    hide IsBreak, LineEnd;
    assert i < |line| - 1;
    SameBreak(line, line, i);
  }

  lemma SplitFirst(line: string, rest: string)
    requires SingleLine(line)
    ensures SplitLines(line + "\n" + rest) == [line] + SplitLines(rest)
  {
    var text := line + "\n" + rest;
    var i := LineEnd(text);
    assert text[|line|] == '\n' && IsBreak(text[|line|]);
    assert forall j :: 0 <= j < |line| ==> text[j] == line[j] && !IsBreak(text[j]);
    assert i == |line| && text[..i] == line && text[i + 1..] == rest;
  }

  lemma SplitNothing()
    ensures SplitLines("") == []
  {
  }

  lemma {:induction false} SplitSealed(line: string, rest: string)
    requires Sealed(line)
    ensures SplitLines(line + "\n" + rest) == Pieces(line) + SplitLines(rest)
    decreases |line|
  {
    hide IsBreak, LineEnd, Pieces, SplitLines;
    var i := LineEnd(line);
    if i == |line| {
      assert line[..i] == line;
      SplitFirst(line, rest);
    } else {
      var text := line + "\n" + rest;
      EndInside(line, rest, i);
      SplitStep(text);
      PiecesStep(line, i);
      SplitSealed(line[i + BreakLength(line, i)..], rest);
    }
  }

  lemma SplitStep(text: string)
    requires text != ""
    ensures var i := LineEnd(text);
            SplitLines(text) == [text[..i]] + SplitLines(text[i + BreakLength(text, i)..])
  {
  }

  lemma PiecesStep(line: string, i: nat)
    requires i == LineEnd(line) < |line|
    ensures Pieces(line) == [line[..i]] + Pieces(line[i + BreakLength(line, i)..])
  {
    hide IsBreak, LineEnd, BreakLength, SingleLine;
  }

  lemma {:induction false} SplitJoined(lines: seq<string>)
    requires AllSealed(lines) && lines != []
    ensures SplitLines(Join(lines) + "\n") == Flat(lines)
  {
    hide SplitLines, Pieces;
    if |lines| == 1 {
      SplitSealed(lines[0], "");
      assert Join(lines) + "\n" == lines[0] + "\n" + "";
      SplitNothing();
      assert Flat(lines) == Pieces(lines[0]) + Flat([]);
    } else {
      SplitJoined(lines[1..]);
      SplitSealed(lines[0], Join(lines[1..]) + "\n");
      assert Join(lines) + "\n" == lines[0] + "\n" + (Join(lines[1..]) + "\n");
    }
  }

  /** Every written line is at least one line, and only single lines are exactly one. */
  lemma {:induction false} FlatCounts(lines: seq<string>)
    ensures |Flat(lines)| >= |lines|
    ensures |Flat(lines)| == |lines| ==> AllSingle(lines) && Flat(lines) == lines
  {
    if lines != [] {
      FlatCounts(lines[1..]);
      if |Flat(lines)| == |lines| {
        assert lines == [lines[0]] + lines[1..];
      }
    }
  }

  lemma {:induction false} SinglesAreFlat(lines: seq<string>)
    requires AllSingle(lines)
    ensures AllSealed(lines) && Flat(lines) == lines
  {
    if lines != [] {
      SinglesAreFlat(lines[1..]);
      assert lines == [lines[0]] + lines[1..];
    }
  }

  // ---------------------------------------------------------------- lines survive a write

  function DropBlank(lines: seq<string>): (r: seq<string>)
    ensures |r| <= |lines| && r == lines[..|r|]
    ensures r == [] || r[|r| - 1] != ""
    ensures forall i :: |r| <= i < |lines| ==> lines[i] == ""
  {
    if lines == [] || lines[|lines| - 1] != "" then lines else DropBlank(lines[..|lines| - 1])
  }

  /** The lines of a written file: an empty one keeps a single blank line. */
  function Kept(lines: seq<string>): seq<string> {
    if DropBlank(lines) == [] then [""] else DropBlank(lines)
  }

  lemma {:induction false} JoinLast(lines: seq<string>)
    requires |lines| >= 2
    ensures Join(lines) == Join(lines[..|lines| - 1]) + "\n" + lines[|lines| - 1]
  {
    if |lines| > 2 {
      JoinLast(lines[1..]);
      assert lines[1..][..|lines| - 2] == lines[..|lines| - 1][1..];
    }
  }

  lemma {:induction false} DropNewlinesOfSealed(lines: seq<string>)
    requires AllSealed(lines)
    ensures DropNewlines(Join(lines)) == Join(DropBlank(lines))
  {
    if lines != [] {
      var n := |lines| - 1;
      assert Sealed(lines[n]);
      if |lines| == 1 {
        assert Join([]) == "";
      } else {
        JoinLast(lines);
        var front := Join(lines[..n]);
        if lines[n] == "" {
          DropNewlinesOfSealed(lines[..n]);
          assert Join(lines) == front + "\n";
          assert (front + "\n")[..|front|] == front;
        } else {
          assert Join(lines)[|Join(lines)| - 1] == lines[n][|lines[n]| - 1];
        }
      }
    }
  }

  /** A written file reads back line for line, up to trailing blank lines. */
  lemma LinesOfWritten(lines: seq<string>)
    requires AllSingle(lines)
    ensures SplitLines(Written(lines)) == Kept(lines)
  {
    hide SplitLines, Flat, Sealed;
    SinglesAreFlat(lines);
    DropNewlinesOfSealed(lines);
    SinglesAreFlat(Kept(lines));
    SplitJoined(Kept(lines));
  }

  // ---------------------------------------------------------------- one line

  /** The keys a setting may have: stripped, one line, no `=`, and neither comment nor `export`. */
  predicate KeyOk(key: string) {
    key != "" && Strip(key) == key && SingleLine(key) && '=' !in key && key[0] != '#' && !(EXPORT <= key)
  }

  lemma EntryHasKey(raw: string)
    ensures Entry(raw).Some? ==> KeyOf(raw) == Some(Entry(raw).value.key)
    ensures KeyOf(raw).Some? && KeyOf(raw).value != "" ==> Entry(raw).Some?
  {
    hide Strip, Separator, WithoutExport;
  }

  lemma SeparatorIs(s: string, i: nat)
    requires i < |s| && s[i] == '=' && forall j :: 0 <= j < i ==> s[j] != '='
    ensures Separator(s) == i
  {
  }

  lemma FormattedIsStripped(e: Setting)
    requires e.key != "" && Strip(e.key) == e.key
    ensures Strip(FormatLine(e)) == FormatLine(e)
  {
    hide Strip;
    var line, value := FormatLine(e), Strip(e.value);
    assert !IsSpace('=');
    assert line[0] == e.key[0];
    assert line[|line| - 1] == if value == "" then '=' else value[|value| - 1];
  }

  lemma ExportPrefix(key: string, rest: string)
    requires '=' !in key
    ensures EXPORT <= key + "=" + rest <==> EXPORT <= key
  {
    var line := key + "=" + rest;
    if EXPORT <= line {
      assert line[|key|] == '=';
      assert forall i :: 0 <= i < |EXPORT| ==> line[i] == EXPORT[i] && EXPORT[i] != '=';
      assert key == line[..|key|];
    }
    if EXPORT <= key {
      assert EXPORT == key[..|EXPORT|] == line[..|EXPORT|];
    }
  }

  /** A stored setting reads back as its key with its value stripped and unquoted. */
  lemma FormatReadsBack(e: Setting)
    requires KeyOk(e.key)
    ensures KeyOf(FormatLine(e)) == Some(e.key)
    ensures Entry(FormatLine(e)) == Some(Setting(e.key, Loaded(e.value)))
  {
    hide Strip, Separator, Unquote;
    var line := FormatLine(e);
    FormattedIsStripped(e);
    ExportPrefix(e.key, Strip(e.value));
    assert forall j :: 0 <= j < |e.key| ==> line[j] == e.key[j] && line[j] in e.key;
    SeparatorIs(line, |e.key|);
    assert line[..|e.key|] == e.key && line[|e.key| + 1..] == Strip(e.value);
    assert Strip(Strip(e.value)) == Strip(e.value);
    assert line[0] == e.key[0];
  }

  lemma BlankHasNoEntry()
    ensures KeyOf("") == None && Entry("") == None
  {
  }

  // ---------------------------------------------------------------- the last line with a key wins

  function ValueOn(raw: string, key: string): Option<string> {
    var e := Entry(raw);
    if e.Some? && e.value.key == key then Some(e.value.value) else None
  }

  function LastValue(lines: seq<string>, key: string): Option<string> {
    if lines == [] then None
    else
      var later := LastValue(lines[1..], key);
      if later.Some? then later else ValueOn(lines[0], key)
  }

  lemma {:induction false} LastValueOfConcat(a: seq<string>, b: seq<string>, key: string)
    ensures LastValue(a + b, key) == if LastValue(b, key).Some? then LastValue(b, key) else LastValue(a, key)
  {
    hide Entry;
    if a == [] {
      assert a + b == b;
    } else {
      assert (a + b)[1..] == a[1..] + b;
      LastValueOfConcat(a[1..], b, key);
    }
  }

  function At(values: map<string, string>, key: string): Option<string> {
    if key in values then Some(values[key]) else None
  }

  lemma {:induction false} ReaderKeepsLast(lines: seq<string>, key: string)
    ensures At(ReadLines(lines), key) == LastValue(lines, key)
  {
    hide Entry;
    if lines != [] {
      var n := |lines| - 1;
      ReaderKeepsLast(lines[..n], key);
      assert lines == lines[..n] + [lines[n]];
      LastValueOfConcat(lines[..n], [lines[n]], key);
      assert LastValue([lines[n]], key) == ValueOn(lines[n], key);
    }
  }

  /** How many lines of the file carry the key. */
  function Occurrences(lines: seq<string>, key: string): nat {
    if lines == [] then 0 else (if KeyOf(lines[0]) == Some(key) then 1 else 0) + Occurrences(lines[1..], key)
  }

  lemma {:induction false} AbsentHasNoValue(lines: seq<string>, key: string)
    requires key != ""
    ensures Occurrences(lines, key) == 0 ==> LastValue(lines, key) == None
    ensures Occurrences(lines, key) > 0 ==> LastValue(lines, key).Some?
  {
    hide Entry, KeyOf;
    if lines != [] {
      AbsentHasNoValue(lines[1..], key);
      EntryHasKey(lines[0]);
    }
  }

  // ---------------------------------------------------------------- the pass over the lines

  predicate UpdatesOk(updates: seq<Setting>) {
    DistinctKeys(updates) && forall e :: e in updates ==> KeyOk(e.key)
  }

  function Value(settings: seq<Setting>, key: string): (v: Option<string>)
  {
    if HasKey(settings, key) then Some(Loaded(Lookup(settings, key).value)) else None
  }

  lemma {:induction false} LookupIsUnique(settings: seq<Setting>, e: Setting)
    requires DistinctKeys(settings) && e in settings
    ensures HasKey(settings, e.key) && Lookup(settings, e.key) == e
  {
    var i :| 0 <= i < |settings| && settings[i] == e;
  }

  lemma PopLeavesOthers(settings: seq<Setting>, key: string, other: string)
    requires DistinctKeys(settings)
    ensures HasKey(Pop(settings, key), other) <==> HasKey(settings, other) && other != key
    ensures other != key ==> Value(Pop(settings, key), other) == Value(settings, other)
  {
    hide Pop, Loaded, Lookup;
    var popped := Pop(settings, key);
    if HasKey(settings, other) && other != key {
      var e := Lookup(settings, other);
      LookupIsUnique(settings, e);
      LookupIsUnique(popped, e);
    }
    if i :| 0 <= i < |popped| && popped[i].key == other {
      assert popped[i] in popped;
      LookupIsUnique(settings, popped[i]);
    }
  }

  lemma StillOk(raw: string, remaining: seq<Setting>)
    requires UpdatesOk(remaining)
    ensures UpdatesOk(Left(raw, remaining))
    ensures Replaces(raw, remaining) ==>
      var e := Lookup(remaining, KeyOf(raw).value);
      && KeyOk(e.key) && KeyOf(raw) == Some(e.key) && NewLine(raw, remaining) == FormatLine(e)
  {
    hide KeyOf, KeyOk;
  }

  /** The pass gives the first line of an updated key its new value, leaves every other line's effect
      alone, and keeps for later exactly the updates whose key it did not meet. */
  lemma {:induction false} PassUpdatesFirst(lines: seq<string>, remaining: seq<Setting>, key: string)
    requires UpdatesOk(remaining) && key != ""
    ensures UpdatesOk(Rewrite(lines, remaining).1)
    ensures Value(Rewrite(lines, remaining).1, key)
         == if Occurrences(lines, key) == 0 then Value(remaining, key) else None
    ensures LastValue(Rewrite(lines, remaining).0, key)
         == if HasKey(remaining, key) && Occurrences(lines, key) == 1 then Value(remaining, key)
            else LastValue(lines, key)
    decreases |lines|
  {
    hide KeyOf, Entry, Loaded, Pop, Lookup, FormatLine, KeyOk;
    if lines != [] {
      var raw := lines[0];
      var left, line := Left(raw, remaining), NewLine(raw, remaining);
      StillOk(raw, remaining);
      PassUpdatesFirst(lines[1..], left, key);
      AbsentHasNoValue(lines[1..], key);
      EntryHasKey(raw);
      if Replaces(raw, remaining) {
        FormatReadsBack(Lookup(remaining, KeyOf(raw).value));
        PopLeavesOthers(remaining, KeyOf(raw).value, key);
      }
      var pass := Rewrite(lines, remaining);
      assert pass.0[1..] == Rewrite(lines[1..], left).0;
    }
  }

  lemma ValueOfHead(settings: seq<Setting>, key: string)
    requires DistinctKeys(settings) && settings != []
    ensures Value(settings, key)
         == if settings[0].key == key then Some(Loaded(settings[0].value)) else Value(settings[1..], key)
  {
    hide Loaded;
    assert HasKey(settings, key) && settings[0].key != key ==> HasKey(settings[1..], key) by {
      assert forall i :: 1 <= i < |settings| ==> settings[i] == settings[1..][i - 1];
    }
    if HasKey(settings[1..], key) {
      LookupIsUnique(settings, Lookup(settings[1..], key));
    }
  }

  lemma NoLaterValue(settings: seq<Setting>, key: string)
    requires DistinctKeys(settings) && settings != [] && settings[0].key == key
    ensures Value(settings[1..], key) == None
  {
    hide Loaded, Lookup;
  }

  lemma {:induction false} FormattedValues(settings: seq<Setting>, key: string)
    requires UpdatesOk(settings)
    ensures LastValue(FormatAll(settings), key) == Value(settings, key)
  {
    hide Entry, KeyOf, FormatLine, KeyOk, Loaded;
    if settings != [] {
      assert settings[0] in settings && forall e :: e in settings[1..] ==> e in settings;
      FormattedValues(settings[1..], key);
      FormatReadsBack(settings[0]);
      ValueOfHead(settings, key);
      hide Value, HasKey;
      assert FormatAll(settings)[1..] == FormatAll(settings[1..]);
      if settings[0].key == key {
        NoLaterValue(settings, key);
      }
    }
  }

  /** What the reader finds for one key among the rewritten lines. */
  lemma RewrittenValue(lines: seq<string>, updates: seq<Setting>, key: string)
    requires UpdatesOk(updates) && key != ""
    ensures LastValue(Rewritten(lines, updates), key)
         == if HasKey(updates, key) && Occurrences(lines, key) <= 1 then Value(updates, key)
            else LastValue(lines, key)
  {
    hide LastValue, Occurrences, Rewrite, FormatAll, UpdatesOk, Loaded, Lookup;
    var pass := Rewrite(lines, updates);
    PassUpdatesFirst(lines, updates, key);
    FormattedValues(pass.1, key);
    LastValueOfConcat(pass.0, FormatAll(pass.1), key);
    AbsentHasNoValue(lines, key);
  }

  lemma {:induction false} BlanksHaveNoValue(lines: seq<string>, key: string)
    requires forall i :: 0 <= i < |lines| ==> lines[i] == ""
    ensures LastValue(lines, key) == None
  {
    if lines != [] {
      BlankHasNoEntry();
      BlanksHaveNoValue(lines[1..], key);
    }
  }

  lemma KeptHasSameValues(lines: seq<string>, key: string)
    ensures LastValue(Kept(lines), key) == LastValue(lines, key)
  {
    var kept := DropBlank(lines);
    assert lines == kept + lines[|kept|..];
    BlanksHaveNoValue(lines[|kept|..], key);
    LastValueOfConcat(kept, lines[|kept|..], key);
    BlanksHaveNoValue([""], key);
  }

  // ---------------------------------------------------------------- write, then read

  function Write(file: File, updates: seq<Setting>): File {
    Text(Written(Rewritten(Lines(file), updates)))
  }

  function Read(file: File): map<string, string> {
    ReadLines(Lines(file))
  }

  /** The updates as the mapping a reader should end up with. */
  function AsMap(updates: seq<Setting>): map<string, string> {
    map key | key in (set e | e in updates :: e.key) && HasKey(updates, key) :: Loaded(Lookup(updates, key).value)
  }

  lemma AsMapHolds(updates: seq<Setting>, key: string)
    ensures At(AsMap(updates), key) == Value(updates, key)
  {
    hide Loaded, Lookup;
    if HasKey(updates, key) {
      assert Lookup(updates, key) in updates;
    }
  }

  predicate ValuesOk(updates: seq<Setting>) {
    forall e :: e in updates ==> SingleLine(Strip(e.value))
  }

  predicate SingleSettings(settings: seq<Setting>) {
    forall e :: e in settings ==> SingleLine(e.key) && SingleLine(Strip(e.value))
  }

  lemma StillSingle(raw: string, remaining: seq<Setting>)
    requires SingleSettings(remaining)
    ensures SingleSettings(Left(raw, remaining))
    ensures SingleLine(raw) ==> SingleLine(NewLine(raw, remaining))
  {
    hide KeyOf, Strip;
    if Replaces(raw, remaining) {
      FormattedIsSingle(Lookup(remaining, KeyOf(raw).value));
    }
  }

  lemma {:induction false} PassIsSingle(lines: seq<string>, remaining: seq<Setting>)
    requires AllSingle(lines) && SingleSettings(remaining)
    ensures AllSingle(Rewrite(lines, remaining).0) && SingleSettings(Rewrite(lines, remaining).1)
    decreases |lines|
  {
    hide KeyOf, Strip, Pop, Lookup, Left, NewLine;
    if lines != [] {
      StillSingle(lines[0], remaining);
      PassIsSingle(lines[1..], Left(lines[0], remaining));
    }
  }

  lemma FormattedIsSingle(e: Setting)
    ensures SingleLine(FormatLine(e)) <==> SingleLine(e.key) && SingleLine(Strip(e.value))
  {
    hide Strip;
    var line, key, value := FormatLine(e), e.key, Strip(e.value);
    assert !IsBreak('=');
    assert forall i :: 0 <= i < |key| ==> line[i] == key[i];
    assert forall i :: 0 <= i < |value| ==> line[|key| + 1 + i] == value[i];
    assert forall i :: |key| < i < |line| ==> line[i] == value[i - |key| - 1];
  }

  /** The written file's lines are the rewritten ones, in order, up to trailing blank lines. */
  lemma LinesAfterWrite(file: File, updates: seq<Setting>)
    requires SingleSettings(updates)
    ensures AllSingle(Rewritten(Lines(file), updates))
    ensures Lines(Write(file, updates)) == Kept(Rewritten(Lines(file), updates))
  {
    hide Strip, Rewrite, Written, FormatLine, SplitLines;
    var pass := Rewrite(Lines(file), updates);
    PassIsSingle(Lines(file), updates);
    forall i | 0 <= i < |pass.1| ensures SingleLine(FormatAll(pass.1)[i]) {
      assert pass.1[i] in pass.1;
      FormattedIsSingle(pass.1[i]);
    }
    LinesOfWritten(Rewritten(Lines(file), updates));
  }

  lemma OkIsSingle(updates: seq<Setting>)
    requires UpdatesOk(updates) && ValuesOk(updates)
    ensures SingleSettings(updates)
  {
    hide Strip;
    assert forall e :: e in updates ==> KeyOk(e.key);
  }

  lemma {:induction false} ReadValuesAreSingle(lines: seq<string>, key: string)
    requires AllSingle(lines) && LastValue(lines, key).Some?
    ensures SingleLine(LastValue(lines, key).value) && key != ""
  {
    hide Strip, Separator;
    if LastValue(lines[1..], key).Some? {
      ReadValuesAreSingle(lines[1..], key);
    } else {
      var value := ValueOn(lines[0], key).value;
      assert forall i :: 0 <= i < |value| ==> value[i] in value && value[i] in lines[0];
    }
  }

  lemma LoadedIsSingle(value: string)
    ensures SingleLine(Loaded(value)) <==> SingleLine(Strip(value))
  {
    hide Strip;
    var s := Strip(value);
    if Wrapped(s) {
      assert !IsBreak(s[0]) && !IsBreak(s[|s| - 1]);
      assert forall i :: 0 < i < |s| - 1 ==> s[i] == Loaded(value)[i - 1];
    }
  }

  predicate Effective(file: File, e: Setting) {
    Occurrences(Lines(file), e.key) <= 1 || At(Read(file), e.key) == Some(Loaded(e.value))
  }

  /** Reading after writing is a map update exactly when every new value is one line once stripped
      and every updated key stands on at most one line (or already had its new value: with two lines
      of one key the first is rewritten and the last one wins). */
  lemma ReadAfterWriteIff(file: File, updates: seq<Setting>)
    requires UpdatesOk(updates)
    ensures Read(Write(file, updates)) == Read(file) + AsMap(updates)
       <==> ValuesOk(updates) && forall e :: e in updates ==> Effective(file, e)
  {
    hide KeyOk, Strip, LastValue, Occurrences, ReadLines, Lines, Write, Loaded, Lookup, SplitLines, AsMap;
    var want := Read(file) + AsMap(updates);
    if ValuesOk(updates) {
      forall key ensures At(Read(Write(file, updates)), key)
           == if HasKey(updates, key) && Occurrences(Lines(file), key) <= 1 then Value(updates, key)
              else At(Read(file), key) {
        KeyAfterWrite(file, updates, key);
      }
      forall key ensures At(want, key) == if HasKey(updates, key) then Value(updates, key) else At(Read(file), key) {
        AsMapHolds(updates, key);
      }
      forall e | e in updates ensures HasKey(updates, e.key) && Value(updates, e.key) == Some(Loaded(e.value)) {
        LookupIsUnique(updates, e);
      }
      SameMaps(Read(Write(file, updates)), want);
      assert forall key :: HasKey(updates, key) ==> Lookup(updates, key) in updates;
    } else {
      var e :| e in updates && !SingleLine(Strip(e.value));
      LookupIsUnique(updates, e);
      AsMapHolds(updates, e.key);
      LoadedIsSingle(e.value);
      assert At(want, e.key) == Some(Loaded(e.value));
      NoBrokenValues(Write(file, updates), e.key);
    }
  }

  lemma SameMaps(a: map<string, string>, b: map<string, string>)
    ensures a == b <==> forall key :: At(a, key) == At(b, key)
  {
    if forall key :: At(a, key) == At(b, key) {
      assert forall key :: key in a <==> At(a, key).Some?;
      assert forall key :: key in b <==> At(b, key).Some?;
      assert forall key | key in a :: At(a, key) == At(b, key);
    }
  }

  lemma NoBrokenValues(file: File, key: string)
    ensures At(Read(file), key).Some? ==> SingleLine(At(Read(file), key).value)
  {
    ReaderKeepsLast(Lines(file), key);
    if LastValue(Lines(file), key).Some? {
      ReadValuesAreSingle(Lines(file), key);
    }
  }

  lemma KeyAfterWrite(file: File, updates: seq<Setting>, key: string)
    requires UpdatesOk(updates) && ValuesOk(updates)
    ensures At(Read(Write(file, updates)), key)
         == if HasKey(updates, key) && Occurrences(Lines(file), key) <= 1 then Value(updates, key)
            else At(Read(file), key)
  {
    hide Strip, LastValue, Occurrences, ReadLines, Lines, Write, Loaded, SplitLines;
    var lines := Rewritten(Lines(file), updates);
    OkIsSingle(updates);
    LinesAfterWrite(file, updates);
    ReaderKeepsLast(Lines(file), key);
    ReaderKeepsLast(Kept(lines), key);
    KeptHasSameValues(lines, key);
    if key == "" {
      EmptyKeyIsUnset(Lines(file));
      EmptyKeyIsUnset(lines);
      assert !HasKey(updates, key) by {
        assert forall i :: 0 <= i < |updates| ==> KeyOk(updates[i].key);
      }
    } else {
      RewrittenValue(Lines(file), updates, key);
    }
  }

  lemma {:induction false} EmptyKeyIsUnset(lines: seq<string>)
    ensures LastValue(lines, "") == None
  {
    if lines != [] {
      EmptyKeyIsUnset(lines[1..]);
    }
  }
}
