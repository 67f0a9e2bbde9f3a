/** What a rewrite of `.env` leaves alone, and that doing it twice changes nothing. */
module EnvRewriteLaws {
  import opened Market
  import opened EnvFile
  import opened EnvLaws

  // ---------------------------------------------------------------- line by line

  /** The first line of the file that carries its key. */
  predicate FirstOfKey(lines: seq<string>, i: nat)
    requires i < |lines|
  {
    KeyOf(lines[i]).Some? && forall j :: 0 <= j < i ==> KeyOf(lines[j]) != KeyOf(lines[i])
  }

  /** The updates whose key stands on no line, in the order given. */
  function Unmet(lines: seq<string>, updates: seq<Setting>): (r: seq<Setting>)
    ensures forall e :: e in r ==> e in updates
  {
    if updates == [] then []
    else
      var rest := Unmet(lines, updates[1..]);
      if Occurrences(lines, updates[0].key) == 0 then [updates[0]] + rest else rest
  }

  lemma {:induction false} PopIsUnmet(raw: string, rest: seq<string>, updates: seq<Setting>, key: string)
    requires KeyOf(raw) == Some(key)
    ensures Unmet(rest, Pop(updates, key)) == Unmet([raw] + rest, updates)
  {
    hide KeyOf;
    if updates != [] {
      PopIsUnmet(raw, rest, updates[1..], key);
      assert ([raw] + rest)[1..] == rest;
      var popped := Pop(updates, key);
      assert updates[0].key != key ==> popped[1..] == Pop(updates[1..], key);
    }
  }

  lemma HeadOrTail(settings: seq<Setting>, key: string)
    requires settings != []
    ensures HasKey(settings, key) <==> settings[0].key == key || HasKey(settings[1..], key)
  {
    assert forall i :: 0 <= i < |settings[1..]| ==> settings[1..][i] == settings[i + 1];
    assert forall i :: 1 <= i < |settings| ==> settings[i] == settings[1..][i - 1];
  }

  lemma {:induction false} UnreplacedIsUnmet(raw: string, rest: seq<string>, updates: seq<Setting>)
    requires !Replaces(raw, updates)
    ensures Unmet(rest, updates) == Unmet([raw] + rest, updates)
  {
    hide KeyOf;
    if updates != [] {
      if KeyOf(raw).Some? {
        HeadOrTail(updates, KeyOf(raw).value);
      }
      UnreplacedIsUnmet(raw, rest, updates[1..]);
      assert ([raw] + rest)[1..] == rest;
    }
  }

  lemma {:induction false} PassKeepsUnmet(lines: seq<string>, updates: seq<Setting>)
    ensures Rewrite(lines, updates).1 == Unmet(lines, updates)
    decreases |lines|
  {
    hide KeyOf, Pop;
    if lines == [] {
      NothingIsMet(updates);
    } else {
      PassKeepsUnmet(lines[1..], Left(lines[0], updates));
      assert lines == [lines[0]] + lines[1..];
      if Replaces(lines[0], updates) {
        PopIsUnmet(lines[0], lines[1..], updates, KeyOf(lines[0]).value);
      } else {
        UnreplacedIsUnmet(lines[0], lines[1..], updates);
      }
    }
  }

  lemma {:induction false} NothingIsMet(updates: seq<Setting>)
    ensures Unmet([], updates) == updates
  {
    if updates != [] {
      NothingIsMet(updates[1..]);
    }
  }

  lemma {:induction false} PassLine(lines: seq<string>, updates: seq<Setting>, i: nat)
    requires DistinctKeys(updates) && i < |lines|
    ensures Rewrite(lines, updates).0[i]
         == if FirstOfKey(lines, i) && HasKey(updates, KeyOf(lines[i]).value)
            then FormatLine(Lookup(updates, KeyOf(lines[i]).value)) else lines[i]
    decreases |lines|
  {
    hide KeyOf, Pop, Lookup, FormatLine;
    if i > 0 {
      var left := Left(lines[0], updates);
      PassLine(lines[1..], left, i - 1);
      assert Rewrite(lines, updates).0[i] == Rewrite(lines[1..], left).0[i - 1];
      assert FirstOfKey(lines, i) <==> FirstOfKey(lines[1..], i - 1) && KeyOf(lines[0]) != KeyOf(lines[i]);
      if KeyOf(lines[i]).Some? && Replaces(lines[0], updates) {
        var key := KeyOf(lines[i]).value;
        PopKeepsLookup(updates, KeyOf(lines[0]).value, key);
      }
    }
  }

  lemma PopKeepsLookup(settings: seq<Setting>, key: string, other: string)
    requires DistinctKeys(settings)
    ensures HasKey(Pop(settings, key), other) <==> HasKey(settings, other) && other != key
    ensures HasKey(settings, other) && other != key ==> Lookup(Pop(settings, key), other) == Lookup(settings, other)
  {
    hide Pop, Loaded, Lookup;
    PopLeavesOthers(settings, key, other);
    if HasKey(settings, other) && other != key {
      var e := Lookup(settings, other);
      assert e in Pop(settings, key);
      LookupIsUnique(Pop(settings, key), e);
    }
  }

  /** The frame of a write, for any settings with distinct keys: a line changes only when it is the
      first with an updated key, comments and the order of lines stay, and what has no line yet is
      appended in the order given. If the settings are single lines, so is each line of the file. */
  lemma WriteTouchesOnlyFirstLines(file: File, updates: seq<Setting>)
    requires DistinctKeys(updates)
    ensures
      var lines, unmet := Lines(file), Unmet(Lines(file), updates);
      exists out: seq<string> ::
        && Write(file, updates) == Text(Written(out))
        && (SingleSettings(updates) ==> Lines(Write(file, updates)) == Kept(out))
        && |out| == |lines| + |unmet|
        && (forall i :: 0 <= i < |lines| ==>
              out[i] == if FirstOfKey(lines, i) && HasKey(updates, KeyOf(lines[i]).value)
                        then FormatLine(Lookup(updates, KeyOf(lines[i]).value)) else lines[i])
        && (forall j :: 0 <= j < |unmet| ==> out[|lines| + j] == FormatLine(unmet[j]))
  {
    hide KeyOf, Lookup, FormatLine, SplitLines, Rewrite, Kept, Lines, Unmet, HasKey, Written, DistinctKeys;
    hide SingleSettings;
    var lines := Lines(file);
    var out := Rewritten(lines, updates);
    if SingleSettings(updates) {
      LinesAfterWrite(file, updates);
    }
    PassKeepsUnmet(lines, updates);
    forall i | 0 <= i < |lines|
      ensures out[i] == if FirstOfKey(lines, i) && HasKey(updates, KeyOf(lines[i]).value)
                        then FormatLine(Lookup(updates, KeyOf(lines[i]).value)) else lines[i] {
      PassLine(lines, updates, i);
    }
  }

  // ---------------------------------------------------------------- twice is once

  lemma RewriteHead(lines: seq<string>, updates: seq<Setting>)
    requires lines != []
    ensures
      var rest := Rewrite(lines[1..], Left(lines[0], updates));
      Rewrite(lines, updates) == ([NewLine(lines[0], updates)] + rest.0, rest.1)
  {
  }

  /** A setting whose line is found again by its key. */
  predicate Stable(e: Setting) {
    SingleLine(FormatLine(e)) && KeyOf(FormatLine(e)) == Some(e.key)
  }

  predicate AllStable(settings: seq<Setting>) {
    DistinctKeys(settings) && forall e :: e in settings ==> Stable(e)
  }

  lemma TailStable(settings: seq<Setting>)
    requires AllStable(settings) && settings != []
    ensures AllStable(settings[1..]) && Stable(settings[0]) && DistinctKeys(settings)
  {
    hide Stable;
    assert settings[0] in settings && forall f :: f in settings[1..] ==> f in settings;
  }

  lemma LeftStable(raw: string, remaining: seq<Setting>)
    requires AllStable(remaining)
    ensures AllStable(Left(raw, remaining))
    ensures Replaces(raw, remaining) ==>
      var e := Lookup(remaining, KeyOf(raw).value);
      && Stable(e) && KeyOf(raw) == Some(e.key) && NewLine(raw, remaining) == FormatLine(e)
  {
    hide KeyOf, Stable;
  }

  lemma {:induction false} FormattedIsStable(settings: seq<Setting>)
    requires AllStable(settings)
    ensures Rewrite(FormatAll(settings), settings) == (FormatAll(settings), [])
    decreases |settings|
  {
    hide KeyOf, FormatLine, Lookup, Rewrite, Pop, AllStable, FormatAll, DistinctKeys;
    var lines := FormatAll(settings);
    if settings == [] {
      RewriteOfNothing(settings);
    } else {
      var e, rest := settings[0], settings[1..];
      TailStable(settings);
      LookupIsUnique(settings, e);
      PopFirst(settings);
      FormattedIsStable(rest);
      assert lines[0] == FormatLine(e) && lines[1..] == FormatAll(rest);
      assert Left(lines[0], settings) == rest && NewLine(lines[0], settings) == lines[0];
      RewriteHead(lines, settings);
      assert lines == [lines[0]] + lines[1..];
    }
  }

  lemma {:induction false} PopAbsent(settings: seq<Setting>, key: string)
    requires !HasKey(settings, key)
    ensures Pop(settings, key) == settings
  {
    if settings != [] {
      HeadOrTail(settings, key);
      PopAbsent(settings[1..], key);
    }
  }

  lemma PopFirst(settings: seq<Setting>)
    requires DistinctKeys(settings) && settings != []
    ensures Pop(settings, settings[0].key) == settings[1..]
  {
    PopAbsent(settings[1..], settings[0].key);
  }

  lemma {:induction false} RewrittenIsStable(lines: seq<string>, updates: seq<Setting>)
    requires AllStable(updates)
    ensures Rewrite(Rewritten(lines, updates), updates) == (Rewritten(lines, updates), [])
    decreases |lines|
  {
    hide KeyOf, FormatLine, Lookup, Pop, Rewrite, AllStable;
    var out := Rewritten(lines, updates);
    if lines == [] {
      RewriteOfNothing(updates);
      FormattedIsStable(updates);
      assert out == FormatAll(updates);
    } else {
      var left, line := Left(lines[0], updates), NewLine(lines[0], updates);
      LeftStable(lines[0], updates);
      RewrittenIsStable(lines[1..], left);
      RewriteHead(lines, updates);
      RewriteHead(out, updates);
      assert out == [line] + Rewritten(lines[1..], left);
      assert out[0] == line && out[1..] == Rewritten(lines[1..], left);
      assert Left(line, updates) == left && NewLine(line, updates) == line;
    }
  }

  lemma {:induction false} RewriteOfConcat(a: seq<string>, b: seq<string>, updates: seq<Setting>)
    ensures Rewrite(a + b, updates).0 == Rewrite(a, updates).0 + Rewrite(b, Rewrite(a, updates).1).0
    ensures Rewrite(a + b, updates).1 == Rewrite(b, Rewrite(a, updates).1).1
    decreases |a|
  {
    hide Left, NewLine;
    if a == [] {
      assert a + b == b;
    } else {
      assert (a + b)[1..] == a[1..] + b;
      RewriteOfConcat(a[1..], b, Left(a[0], updates));
    }
  }

  lemma {:induction false} BlanksAreStable(lines: seq<string>, updates: seq<Setting>)
    requires forall i :: 0 <= i < |lines| ==> lines[i] == ""
    ensures Rewrite(lines, updates) == (lines, updates)
    decreases |lines|
  {
    if lines != [] {
      BlankHasNoEntry();
      BlanksAreStable(lines[1..], updates);
      RewriteHead(lines, updates);
      assert lines == [""] + lines[1..];
    }
  }

  lemma KeptIsStable(lines: seq<string>, updates: seq<Setting>)
    requires Rewrite(lines, updates) == (lines, [])
    ensures Rewrite(Kept(lines), updates) == (Kept(lines), [])
  {
    hide Rewrite;
    var kept := DropBlank(lines);
    var blanks := lines[|kept|..];
    assert lines == kept + blanks;
    RewriteOfConcat(kept, blanks, updates);
    BlanksAreStable(blanks, Rewrite(kept, updates).1);
    var pass := Rewrite(kept, updates);
    assert pass.0 == (pass.0 + blanks)[..|kept|] == lines[..|kept|];
    if kept == [] {
      RewriteOfNothing(updates);
      BlanksAreStable([""], updates);
    }
  }

  lemma WrittenOfKept(lines: seq<string>)
    requires AllSingle(lines)
    ensures Written(Kept(lines)) == Written(lines)
  {
    hide Sealed, Flat;
    SinglesAreFlat(lines);
    SinglesAreFlat(Kept(lines));
    DropNewlinesOfSealed(lines);
    DropNewlinesOfSealed(Kept(lines));
    var kept := DropBlank(lines);
    assert DropBlank([""]) == [];
    assert DropBlank(kept) == kept;
    assert AllSingle(Kept(lines));
  }

  lemma StableIsSingle(updates: seq<Setting>)
    requires AllStable(updates)
    ensures SingleSettings(updates)
  {
    hide KeyOf, FormatLine, Strip;
    forall e | e in updates ensures SingleLine(e.key) && SingleLine(Strip(e.value)) {
      assert Stable(e);
      FormattedIsSingle(e);
    }
  }

  /** Storing the same settings again leaves the file exactly as it is, duplicate lines or not. */
  lemma StableIsIdempotent(file: File, updates: seq<Setting>)
    requires AllStable(updates)
    ensures Write(Write(file, updates), updates) == Write(file, updates)
  {
    hide SplitLines, Rewrite, Kept, Lines, Written, AllStable;
    var out := Rewritten(Lines(file), updates);
    StableIsSingle(updates);
    LinesAfterWrite(file, updates);
    RewrittenIsStable(Lines(file), updates);
    KeptIsStable(out, updates);
    assert Rewritten(Kept(out), updates) == Kept(out) + FormatAll([]) == Kept(out);
    WrittenOfKept(out);
  }

  // ---------------------------------------------------------------- a case where reading back fails

  const TWICE: File := Text("A=1\nA=2\n")
  const STORE: seq<Setting> := [Setting("A", "3")]

  lemma TwiceLines(lines: seq<string>)
    requires lines == ["A=1", "A=2"]
    ensures Lines(TWICE) == lines
  {
    assert AllSingle(lines);
    hide SplitLines, Flat, Pieces, Sealed, SingleLine, IsBreak;
    SinglesAreFlat(lines);
    SplitJoined(lines);
    assert Join(lines) == lines[0] + "\n" + Join(lines[1..]) && Join(lines[1..]) == "A=2";
    assert Join(lines) + "\n" == TWICE.content;
  }

  lemma AReadsBack(digit: char)
    requires '0' <= digit <= '9'
    ensures KeyOk("A") && Loaded([digit]) == [digit]
    ensures KeyOf("A=" + [digit]) == Some("A") && Entry("A=" + [digit]) == Some(Setting("A", [digit]))
  {
    hide KeyOf, Entry, Strip;
    assert !IsSpace('A') && !IsSpace(digit);
    var e := Setting("A", [digit]);
    assert FormatLine(e) == "A" + "=" + [digit] == "A=" + [digit];
    FormatReadsBack(e);
  }

  lemma TwiceCounts(lines: seq<string>)
    requires |lines| == 2 && KeyOf(lines[0]) == Some("A") && KeyOf(lines[1]) == Some("A")
    requires Entry(lines[1]) == Some(Setting("A", "2"))
    ensures Occurrences(lines, "A") == 2 && LastValue(lines, "A") == Some("2")
  {
    hide KeyOf, Entry;
    assert Occurrences(lines[1..], "A") == 1 + Occurrences(lines[1..][1..], "A");
    assert LastValue(lines[1..], "A") == Some("2") by {
      assert LastValue(lines[1..][1..], "A") == None;
    }
  }

  /** With `A` on two lines the first becomes `A=3`, but the reader still answers the old second one. */
  lemma StaleDuplicateWins()
    ensures At(Read(Write(TWICE, STORE)), "A") == Some("2")
    ensures Read(Write(TWICE, STORE)) != Read(TWICE) + AsMap(STORE)
  {
    hide Lines, KeyOf, Entry, KeyOk, Loaded, Write, ReadLines, Occurrences, LastValue, Strip, AsMap, Lookup, SplitLines;
    var lines := ["A=1", "A=2"];
    TwiceLines(lines);
    AReadsBack('1');
    AReadsBack('2');
    AReadsBack('3');
    assert lines[0] == "A=" + ['1'] && lines[1] == "A=" + ['2'];
    TwiceCounts(lines);
    ReaderKeepsLast(lines, "A");
    StoreIsOk();
    KeyAfterWrite(TWICE, STORE, "A");
    AsMapHolds(STORE, "A");
    assert STORE[0].key == "A";
  }

  lemma StoreIsOk()
    ensures UpdatesOk(STORE) && ValuesOk(STORE)
    ensures HasKey(STORE, "A") && Value(STORE, "A") == Some("3")
  {
    hide KeyOk, Loaded, Strip;
    AReadsBack('3');
    assert STORE[0].key == "A";
    assert !IsSpace('3');
  }
}
