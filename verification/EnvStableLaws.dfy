/** Exactly when storing twice is storing once, and exactly when stored settings read back, for any
    keys and values at all. */
module EnvStableLaws {
  import opened Market
  import opened EnvFile
  import opened EnvLaws
  import opened EnvRewriteLaws

  // ---------------------------------------------------------------- what a rewrite seals

  lemma FormattedIsSealed(e: Setting)
    ensures Sealed(FormatLine(e)) && FormatLine(e) != ""
  {
    hide Strip;
    var line, value := FormatLine(e), Strip(e.value);
    assert line[|line| - 1] == if value == "" then '=' else value[|value| - 1];
  }

  lemma {:induction false} PassIsSealed(lines: seq<string>, updates: seq<Setting>)
    requires AllSealed(lines)
    ensures AllSealed(Rewrite(lines, updates).0)
    decreases |lines|
  {
    hide KeyOf, FormatLine, Lookup, Pop;
    if lines != [] {
      PassIsSealed(lines[1..], Left(lines[0], updates));
      if Replaces(lines[0], updates) {
        FormattedIsSealed(Lookup(updates, KeyOf(lines[0]).value));
      }
    }
  }

  lemma RewrittenIsSealed(lines: seq<string>, updates: seq<Setting>)
    requires AllSingle(lines)
    ensures AllSealed(Rewritten(lines, updates))
  {
    hide Rewrite, FormatLine, Sealed;
    SinglesAreFlat(lines);
    PassIsSealed(lines, updates);
    var pass := Rewrite(lines, updates);
    forall i | 0 <= i < |pass.1| ensures Sealed(FormatAll(pass.1)[i]) {
      FormattedIsSealed(pass.1[i]);
    }
  }

  // ---------------------------------------------------------------- the written file

  lemma FormattedLast(lines: seq<string>, updates: seq<Setting>)
    requires updates != [] && DistinctKeys(updates)
    ensures exists i :: 0 <= i < |Rewritten(lines, updates)| && Rewritten(lines, updates)[i] != ""
  {
    hide Rewrite, KeyOf, Lookup;
    var pass := Rewrite(lines, updates);
    if pass.1 != [] {
      FormattedIsSealed(pass.1[0]);
      assert Rewritten(lines, updates)[|lines|] != "";
    } else {
      var i := MetLine(lines, updates, updates[0]);
      assert Rewritten(lines, updates)[i] == pass.0[i];
    }
  }

  /** A setting that the pass has used up stands, formatted, in place of a line with its key. */
  lemma {:induction false} MetLine(lines: seq<string>, remaining: seq<Setting>, e: Setting) returns (i: nat)
    requires DistinctKeys(remaining) && e in remaining && e !in Rewrite(lines, remaining).1
    ensures i < |lines| && KeyOf(lines[i]) == Some(e.key)
    ensures Rewrite(lines, remaining).0[i] == FormatLine(e) != ""
    decreases |lines|
  {
    hide KeyOf, FormatLine, Lookup, Pop;
    FormattedIsSealed(e);
    LookupIsUnique(remaining, e);
    if KeyOf(lines[0]) == Some(e.key) {
      i := 0;
    } else {
      i := MetLine(lines[1..], Left(lines[0], remaining), e);
      assert Rewrite(lines, remaining).0[i + 1] == Rewrite(lines[1..], Left(lines[0], remaining)).0[i];
      i := i + 1;
    }
  }

  lemma {:induction false} KeptEndsFilled(lines: seq<string>, i: nat)
    requires i < |lines| && lines[i] != ""
    ensures DropBlank(lines) != [] && Kept(lines)[|Kept(lines)| - 1] != ""
  {
    var kept := DropBlank(lines);
    assert forall j :: |kept| <= j < |lines| ==> lines[j] == "";
  }

  /** What is written ends with a line that is not blank, if anything was to be stored. */
  lemma WrittenAsFilled(lines: seq<string>, updates: seq<Setting>)
    requires AllSingle(lines) && updates != [] && DistinctKeys(updates)
    ensures var kept := DropBlank(Rewritten(lines, updates));
            && kept != [] && kept[|kept| - 1] != "" && AllSealed(kept)
            && SplitLines(Written(Rewritten(lines, updates))) == Flat(kept)
  {
    hide Rewritten, SplitLines, Sealed;
    var out := Rewritten(lines, updates);
    RewrittenIsSealed(lines, updates);
    FormattedLast(lines, updates);
    var i :| 0 <= i < |out| && out[i] != "";
    KeptEndsFilled(out, i);
    DropNewlinesOfSealed(out);
    SplitJoined(DropBlank(out));
  }

  lemma {:induction false} LastIsFilled(lines: seq<string>)
    requires AllSealed(lines) && lines != [] && lines[|lines| - 1] != ""
    ensures Flat(lines) != [] && Flat(lines)[|Flat(lines)| - 1] != ""
  {
    hide Pieces, Sealed;
    assert Sealed(lines[0]);
    if |lines| == 1 {
      PiecesEndFilled(lines[0]);
      assert Flat(lines) == Pieces(lines[0]) + Flat([]);
    } else {
      LastIsFilled(lines[1..]);
    }
  }

  lemma {:induction false} PiecesEndFilled(line: string)
    requires Sealed(line) && line != ""
    ensures Pieces(line)[|Pieces(line)| - 1] != ""
    decreases |line|
  {
    hide IsBreak, LineEnd, Pieces, BreakLength;
    var i := LineEnd(line);
    if i == |line| {
      assert line[..i] == line;
    } else {
      EndInside(line, "", i);
      RoomAfter(line, i);
      PiecesStep(line, i);
      PiecesEndFilled(line[i + BreakLength(line, i)..]);
    }
  }

  /** The pass over a file whose last line is filled leaves no trailing blank. */
  lemma NothingDropped(lines: seq<string>, updates: seq<Setting>)
    requires lines != [] && lines[|lines| - 1] != ""
    ensures DropBlank(Rewritten(lines, updates)) == Rewritten(lines, updates)
  {
    hide KeyOf, FormatLine;
    var pass := Rewrite(lines, updates);
    LastOfPass(lines, updates);
    if pass.1 != [] {
      FormattedIsSealed(pass.1[|pass.1| - 1]);
    }
    assert Rewritten(lines, updates)[|Rewritten(lines, updates)| - 1] != "";
  }

  lemma {:induction false} LastOfPass(lines: seq<string>, updates: seq<Setting>)
    requires lines != [] && lines[|lines| - 1] != ""
    ensures var pass := Rewrite(lines, updates); pass.0[|lines| - 1] != ""
    decreases |lines|
  {
    hide KeyOf, FormatLine, Lookup, Rewrite, Sealed;
    if Replaces(lines[0], updates) {
      FormattedIsSealed(Lookup(updates, KeyOf(lines[0]).value));
    }
    RewriteHead(lines, updates);
    if |lines| > 1 {
      LastOfPass(lines[1..], Left(lines[0], updates));
    }
  }

  /** If the second write changes nothing, each setting's line is single and found again. */
  lemma IdempotentIsStable(file: File, updates: seq<Setting>)
    requires DistinctKeys(updates) && updates != []
    requires Write(Write(file, updates), updates) == Write(file, updates)
    ensures AllStable(updates)
  {
    hide SplitLines, Written, Rewrite, Flat, Sealed, KeyOf, FormatLine;
    var first := Lines(Write(file, updates));
    WrittenAsFilled(Lines(file), updates);
    LastIsFilled(DropBlank(Rewritten(Lines(file), updates)));
    NothingDropped(first, updates);
    WrittenAsFilled(first, updates);
    var out, pass := Rewritten(first, updates), Rewrite(first, updates);
    assert Flat(out) == first && |out| == |first| + |pass.1|;
    FlatCounts(out);
    assert pass.1 == [] && out == pass.0 == first;
    forall e | e in updates ensures Stable(e) {
      var i := MetLine(first, updates, e);
      assert first[i] == FormatLine(e);
    }
  }

  /** For any settings with distinct keys: storing them again changes nothing if and only if each
      setting's line is a single one that carries its key. */
  lemma WriteIsIdempotentIff(file: File, updates: seq<Setting>)
    requires DistinctKeys(updates)
    ensures Write(Write(file, updates), updates) == Write(file, updates)
       <==> forall e :: e in updates ==> Stable(e)
  {
    hide Write, Stable, DistinctKeys;
    if updates == [] || forall e :: e in updates ==> Stable(e) {
      StableIsIdempotent(file, updates);
    } else if Write(Write(file, updates), updates) == Write(file, updates) {
      IdempotentIsStable(file, updates);
    }
  }

  // ---------------------------------------------------------------- keys that are read

  /** What every key the reader yields looks like. */
  predicate Readable(key: string) {
    key != "" && Strip(key) == key && '=' !in key && SingleLine(key)
  }

  lemma BodyIsInside(line: string)
    ensures forall c :: c in WithoutExport(line) ==> c in line
  {
    hide StripLeft;
    if EXPORT <= line {
      var rest := line[|EXPORT|..];
      assert forall c :: c in rest ==> c in line;
      assert forall c :: c in StripLeft(rest) ==> c in rest;
    }
  }

  lemma EntryIsReadable(raw: string)
    requires SingleLine(raw) && Entry(raw).Some?
    ensures Readable(Entry(raw).value.key)
  {
    hide IsBreak, IsSpace, Strip, Separator, WithoutExport;
    var line := Strip(raw);
    var body := WithoutExport(line);
    BodyIsInside(line);
    var before := body[..Separator(body)];
    var key := Strip(before);
    assert key == Entry(raw).value.key;
    hide Entry;
    assert forall c :: c in before ==> c in body && c != '=';
    assert forall i :: 0 <= i < |key| ==> key[i] in key && key[i] in raw;
    assert forall c :: c in raw ==> !IsBreak(c);
  }

  lemma {:induction false} ReadKeysAreReadable(lines: seq<string>, key: string)
    requires AllSingle(lines) && LastValue(lines, key).Some?
    ensures Readable(key)
  {
    hide Entry, SingleLine, Readable;
    if LastValue(lines[1..], key).Some? {
      ReadKeysAreReadable(lines[1..], key);
    } else {
      EntryIsReadable(lines[0]);
    }
  }

  /** If a readable key starts like a comment or an export, its own line carries a shorter one or none. */
  lemma OddKeyIsLost(e: Setting)
    requires Readable(e.key) && !KeyOk(e.key)
    ensures KeyOf(FormatLine(e)).Some? ==> |KeyOf(FormatLine(e)).value| < |e.key|
  {
    hide Strip, IsSpace, SingleLine;
    var line := FormatLine(e);
    FormattedIsStripped(e);
    assert line[0] == e.key[0];
    if e.key[0] != '#' {
      ExportPrefix(e.key, Strip(e.value));
      var body := StripLeft(line[|EXPORT|..]);
      var i := Separator(body);
      ExportedKeyIsShorter(e.key, Strip(e.value));
      assert |Strip(body[..i])| <= i;
    }
  }

  lemma ExportedKeyIsShorter(key: string, value: string)
    requires EXPORT <= key && '=' !in key
    ensures Separator(StripLeft((key + "=" + value)[|EXPORT|..])) < |key|
  {
    var line := key + "=" + value;
    var rest := line[|EXPORT|..];
    assert rest[|key| - |EXPORT|] == line[|key|] == '=';
    EqualsSurvives(rest, |key| - |EXPORT|);
  }

  lemma {:induction false} EqualsSurvives(s: string, at: nat)
    requires at < |s| && s[at] == '='
    ensures Separator(StripLeft(s)) <= at
    decreases |s|
  {
    assert !IsSpace('=');
    hide IsSpace;
    if IsSpace(s[0]) {
      EqualsSurvives(s[1..], at - 1);
    }
  }

  lemma {:induction false} OnlyIsFirst(lines: seq<string>, i: nat)
    requires i < |lines| && KeyOf(lines[i]).Some? && Occurrences(lines, KeyOf(lines[i]).value) <= 1
    ensures FirstOfKey(lines, i)
    decreases i
  {
    hide KeyOf;
    if i > 0 {
      OnlyIsFirst(lines[1..], i - 1);
      CarriedIsCounted(lines[1..], i - 1);
      assert forall j :: 1 <= j < i ==> lines[j] == lines[1..][j - 1];
    }
  }

  lemma {:induction false} CarriedIsCounted(lines: seq<string>, i: nat)
    requires i < |lines| && KeyOf(lines[i]).Some?
    ensures Occurrences(lines, KeyOf(lines[i]).value) > 0
  {
    hide KeyOf;
    if i > 0 {
      CarriedIsCounted(lines[1..], i - 1);
    }
  }

  lemma {:induction false} NowhereCarried(lines: seq<string>, key: string)
    requires forall i :: 0 <= i < |lines| ==> KeyOf(lines[i]) != Some(key)
    ensures Occurrences(lines, key) == 0
  {
    hide KeyOf;
    if lines != [] {
      NowhereCarried(lines[1..], key);
    }
  }

  // ---------------------------------------------------------------- any keys at all

  predicate Odd(e: Setting) {
    !KeyOk(e.key)
  }

  lemma {:induction false} LongestOdd(updates: seq<Setting>) returns (e: Setting)
    requires exists f :: f in updates && Odd(f)
    ensures e in updates && Odd(e) && forall f :: f in updates && Odd(f) ==> |f.key| <= |e.key|
  {
    hide Odd;
    var head, rest := updates[0], updates[1..];
    assert forall f :: f in updates <==> f == head || f in rest;
    e := head;
    if exists f :: f in rest && Odd(f) {
      var longest := LongestOdd(rest);
      if !Odd(head) || |head.key| < |longest.key| {
        e := longest;
      }
    }
  }

  /** No written line carries an odd key, unless a longer odd one was stored. */
  lemma FormattedMisses(f: Setting, e: Setting)
    requires Readable(f.key) && Odd(e) && (Odd(f) ==> |f.key| <= |e.key|)
    ensures KeyOf(FormatLine(f)) != Some(e.key)
  {
    hide KeyOf, FormatLine, KeyOk, Readable;
    if Odd(f) {
      OddKeyIsLost(f);
    } else {
      FormatReadsBack(f);
    }
  }

  lemma LongestOddIsLost(lines: seq<string>, updates: seq<Setting>, e: Setting)
    requires DistinctKeys(updates) && e in updates && Occurrences(lines, e.key) <= 1 && Odd(e)
    requires forall f :: f in updates ==> Readable(f.key) && (Odd(f) ==> |f.key| <= |e.key|)
    ensures Occurrences(Rewritten(lines, updates), e.key) == 0
  {
    hide KeyOf, FormatLine, Odd, Readable, Lookup, Rewrite, Occurrences, Unmet;
    var pass, out := Rewrite(lines, updates), Rewritten(lines, updates);
    PassKeepsUnmet(lines, updates);
    LookupIsUnique(updates, e);
    forall i | 0 <= i < |out| ensures KeyOf(out[i]) != Some(e.key) {
      if i < |lines| {
        PassLine(lines, updates, i);
        if FirstOfKey(lines, i) && HasKey(updates, KeyOf(lines[i]).value) {
          FormattedMisses(Lookup(updates, KeyOf(lines[i]).value), e);
        } else if KeyOf(lines[i]) == Some(e.key) {
          OnlyIsFirst(lines, i);
        }
      } else {
        assert out[i] == FormatLine(pass.1[i - |lines|]) && pass.1[i - |lines|] in updates;
        FormattedMisses(pass.1[i - |lines|], e);
      }
    }
    NowhereCarried(out, e.key);
  }

  /** What is read back has a readable key and a single-line value. */
  lemma ReadBackIsReadable(file: File, e: Setting)
    requires At(Read(file), e.key) == Some(Loaded(e.value))
    ensures Readable(e.key) && SingleLine(Strip(e.value))
  {
    hide Strip, ReadLines, LastValue, Loaded, SplitLines, Lines, Readable, SingleLine;
    ReaderKeepsLast(Lines(file), e.key);
    LinesAreSingle(file);
    NoBrokenValues(file, e.key);
    LoadedIsSingle(e.value);
    ReadKeysAreReadable(Lines(file), e.key);
  }

  lemma LinesAreSingle(file: File)
    ensures AllSingle(Lines(file))
  {
  }

  lemma UncarriedIsNotRead(file: File, updates: seq<Setting>, key: string)
    requires SingleSettings(updates) && key != "" && Occurrences(Rewritten(Lines(file), updates), key) == 0
    ensures At(Read(Write(file, updates)), key) == None
  {
    hide Write, ReadLines, LastValue, SplitLines, Rewritten, Occurrences, Kept, SingleSettings, Lines, SingleLine;
    LinesAfterWrite(file, updates);
    var out := Rewritten(Lines(file), updates);
    AbsentHasNoValue(out, key);
    KeptHasSameValues(out, key);
    ReaderKeepsLast(Kept(out), key);
  }

  /** For any file, keys and values, with each key on at most one line: storing the settings and
      reading again is a map update if and only if every key is a plain name and every value one
      line. */
  lemma StoreIff(file: File, updates: seq<Setting>)
    requires DistinctKeys(updates) && forall e :: e in updates ==> Occurrences(Lines(file), e.key) <= 1
    ensures Read(Write(file, updates)) == Read(file) + AsMap(updates)
       <==> forall e :: e in updates ==> KeyOk(e.key) && SingleLine(Strip(e.value))
  {
    hide Write, Strip, Lines, ReadLines, Loaded, AsMap, Occurrences, KeyOk, DistinctKeys, Readable, SingleLine;
    if forall e :: e in updates ==> KeyOk(e.key) {
      ReadAfterWriteIff(file, updates);
    } else if Read(Write(file, updates)) == Read(file) + AsMap(updates) {
      forall e | e in updates
        ensures At(Read(Write(file, updates)), e.key) == Some(Loaded(e.value))
        ensures Readable(e.key) && SingleLine(e.key) && e.key != "" && SingleLine(Strip(e.value)) {
        LookupIsUnique(updates, e);
        AsMapHolds(updates, e.key);
        ReadBackIsReadable(Write(file, updates), e);
        ReadableIsSingle(e.key);
      }
      var e := SomeOdd(updates);
      LongestOddIsLost(Lines(file), updates, e);
      UncarriedIsNotRead(file, updates, e.key);
    }
  }

  lemma ReadableIsSingle(key: string)
    requires Readable(key)
    ensures SingleLine(key) && key != ""
  {
  }

  lemma SomeOdd(updates: seq<Setting>) returns (e: Setting)
    requires exists f :: f in updates && !KeyOk(f.key)
    ensures e in updates && Odd(e) && forall f :: f in updates && Odd(f) ==> |f.key| <= |e.key|
  {
    hide KeyOk;
    var f :| f in updates && !KeyOk(f.key);
    assert Odd(f);
    e := LongestOdd(updates);
  }

  const TWO_LINES: Setting := Setting("A", "1\nB")

  lemma TwoLinesStored()
    ensures FormatLine(TWO_LINES) == "A=1\nB"
  {
    assert !IsSpace('1') && !IsSpace('B');
    hide IsSpace;
    assert Strip("1\nB") == "1\nB";
  }

  /** A value with a line break inside: whatever the file, storing it again adds its tail once more. */
  lemma BrokenValueGrows(file: File)
    ensures Write(Write(file, [TWO_LINES]), [TWO_LINES]) != Write(file, [TWO_LINES])
  {
    TwoLinesStored();
    assert IsBreak("A=1\nB"[3]);
    assert !Stable(TWO_LINES);
    hide Write, KeyOf, DistinctKeys, Stable, FormatLine, IsBreak;
    assert [TWO_LINES][0] == TWO_LINES;
    OneIsDistinct(TWO_LINES);
    WriteIsIdempotentIff(file, [TWO_LINES]);
  }

  lemma OneIsDistinct(e: Setting)
    ensures DistinctKeys([e])
  {
  }
}
