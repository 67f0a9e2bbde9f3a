/** The `.env` reader and in-place rewriter. Text is a sequence of characters; a `\r\n` pair, which
    text-mode reading turns into `\n`, ends one line either way. */
module EnvFile {
  import opened Market

  datatype File = Missing | Text(content: string)

  /** One setting to store. `updates` is a mapping: a sequence of these with distinct keys. */
  datatype Setting = Setting(key: string, value: string)

  // ---------------------------------------------------------------- Python's string operations

  /** The characters `str.splitlines` breaks at. */
  predicate IsBreak(c: char) {
    c in {'\n', '\r', '\U{0B}', '\U{0C}', '\U{1C}', '\U{1D}', '\U{1E}', '\U{85}', '\U{2028}', '\U{2029}'}
  }

  /** The characters `str.strip` removes. */
  predicate IsSpace(c: char) {
    || IsBreak(c)
    || c in {' ', '\t', '\U{1F}', '\U{A0}', '\U{1680}', '\U{202F}', '\U{205F}', '\U{3000}'}
    || '\U{2000}' <= c <= '\U{200A}'
  }

  predicate SingleLine(s: string) {
    forall i :: 0 <= i < |s| ==> !IsBreak(s[i])
  }

  function StripLeft(s: string): (r: string)
    ensures r == "" || !IsSpace(r[0])
    ensures |r| <= |s| && r == s[|s| - |r|..]
    ensures s == "" || !IsSpace(s[0]) ==> r == s
  {
    if s == "" || !IsSpace(s[0]) then s else StripLeft(s[1..])
  }

  function StripRight(s: string): (r: string)
    ensures r == "" || !IsSpace(r[|r| - 1])
    ensures |r| <= |s| && r == s[..|r|]
    ensures s == "" || !IsSpace(s[|s| - 1]) ==> r == s
  {
    if s == "" || !IsSpace(s[|s| - 1]) then s else StripRight(s[..|s| - 1])
  }

  function Strip(s: string): (r: string)
    ensures r == "" || (!IsSpace(r[0]) && !IsSpace(r[|r| - 1]))
    ensures s == "" || (!IsSpace(s[0]) && !IsSpace(s[|s| - 1])) ==> r == s
    ensures |r| <= |s|
    ensures forall c :: c in r ==> c in s
  {
    var left := StripLeft(s);
    assert forall c :: c in left ==> c in s;
    StripRight(left)
  }

  /** The position of the first `=`, or the length. */
  function Separator(s: string): (i: nat)
    ensures i <= |s| && '=' !in s[..i] && (i < |s| ==> s[i] == '=')
    ensures forall j :: 0 <= j < |s| && s[j] == '=' ==> i <= j
  {
    if s == "" || s[0] == '=' then 0 else 1 + Separator(s[1..])
  }

  function LineEnd(text: string): (i: nat)
    ensures i <= |text| && SingleLine(text[..i]) && (i < |text| ==> IsBreak(text[i]))
    ensures forall j :: 0 <= j < |text| && IsBreak(text[j]) ==> i <= j
  {
    if text == "" || IsBreak(text[0]) then 0 else 1 + LineEnd(text[1..])
  }

  function BreakLength(text: string, i: nat): (n: nat)
    requires i <= |text|
    ensures i + n <= |text| && (i < |text| ==> n > 0)
  {
    if i == |text| then 0
    else if text[i] == '\r' && i + 1 < |text| && text[i + 1] == '\n' then 2
    else 1
  }

  function SplitLines(text: string): (lines: seq<string>)
    ensures forall i :: 0 <= i < |lines| ==> SingleLine(lines[i])
    decreases |text|
  {
    if text == "" then []
    else
      var i := LineEnd(text);
      [text[..i]] + SplitLines(text[i + BreakLength(text, i)..])
  }

  function Join(lines: seq<string>): string {
    if lines == [] then ""
    else if |lines| == 1 then lines[0]
    else lines[0] + "\n" + Join(lines[1..])
  }

  function DropNewlines(s: string): (r: string)
    ensures s == "" || s[|s| - 1] != '\n' ==> r == s
  {
    if s == "" || s[|s| - 1] != '\n' then s else DropNewlines(s[..|s| - 1])
  }

  // ---------------------------------------------------------------- the reader

  const EXPORT := "export "

  function WithoutExport(line: string): string {
    if EXPORT <= line then StripLeft(line[|EXPORT|..]) else line
  }

  function Unquote(s: string): (r: string)
    ensures forall c :: c in r ==> c in s
  {
    if Wrapped(s) then s[1..|s| - 1] else s
  }

  predicate Wrapped(s: string) {
    |s| >= 2 && s[0] == s[|s| - 1] && s[0] in {'\'', '"'}
  }

  /** The value the reader makes of a written one. */
  function Loaded(value: string): string {
    Unquote(Strip(value))
  }

  /** What one line sets, if anything. */
  function Entry(raw: string): (e: Option<Setting>)
    ensures e.Some? ==> forall c :: c in e.value.value ==> c in raw
  {
    var line := Strip(raw);
    if line == "" || line[0] == '#' then None
    else
      var body := WithoutExport(line);
      var i := Separator(body);
      if i == |body| then None
      else
        var key := Strip(body[..i]);
        var after := body[i + 1..];
        assert forall c :: c in after ==> c in body;
        if key == "" then None else Some(Setting(key, Loaded(after)))
  }

  /** Later lines win. */
  function ReadLines(lines: seq<string>): map<string, string> {
    if lines == [] then map[]
    else
      var before := ReadLines(lines[..|lines| - 1]);
      match Entry(lines[|lines| - 1])
      case None => before
      case Some(e) => before[e.key := e.value]
  }

  function Lines(file: File): seq<string> {
    if file.Missing? then [] else SplitLines(file.content)
  }

  method ReadEnvFile(file: File) returns (values: map<string, string>)
    ensures values == ReadLines(Lines(file))
  {
    hide Strip, Separator, SplitLines, WithoutExport, IsSpace, SingleLine;
    values := map[];
    if file.Missing? {
      return;
    }
    var lines := SplitLines(file.content);
    var n := 0;
    while n < |lines|
      invariant 0 <= n <= |lines| && values == ReadLines(lines[..n])
    {
      assert lines[..n + 1][..n] == lines[..n];
      var line := Strip(lines[n]);
      n := n + 1;
      if line == "" || line[0] == '#' {
        continue;
      }
      line := WithoutExport(line);
      var i := Separator(line);
      if i == |line| {
        continue;
      }
      var key, value := Strip(line[..i]), Strip(line[i + 1..]);
      if Wrapped(value) {
        value := value[1..|value| - 1];
      }
      if key != "" {
        values := values[key := value];
      }
    }
    assert lines[..n] == lines;
  }

  // ---------------------------------------------------------------- the writer

  function FormatLine(e: Setting): string {
    e.key + "=" + Strip(e.value)
  }

  predicate HasKey(settings: seq<Setting>, key: string) {
    exists i :: 0 <= i < |settings| && settings[i].key == key
  }

  predicate DistinctKeys(settings: seq<Setting>) {
    forall i, j :: 0 <= i < j < |settings| ==> settings[i].key != settings[j].key
  }

  function Lookup(settings: seq<Setting>, key: string): (e: Setting)
    requires HasKey(settings, key)
    ensures e in settings && e.key == key
  {
    if settings[0].key == key then settings[0] else Lookup(settings[1..], key)
  }

  function Pop(settings: seq<Setting>, key: string): (r: seq<Setting>)
    ensures forall e :: e in r <==> e in settings && e.key != key
    ensures DistinctKeys(settings) ==> DistinctKeys(r)
  {
    if settings == [] then []
    else
      var rest := Pop(settings[1..], key);
      assert forall e :: e in settings <==> e == settings[0] || e in settings[1..];
      assert forall i :: 0 <= i < |rest| ==> rest[i] in settings[1..];
      if settings[0].key == key then rest else [settings[0]] + rest
  }

  /** The key the writer sees on a line it may replace. */
  function KeyOf(raw: string): Option<string> {
    var stripped := Strip(raw);
    var candidate := WithoutExport(stripped);
    var i := Separator(candidate);
    if stripped != "" && stripped[0] != '#' && i < |candidate| then Some(Strip(candidate[..i])) else None
  }

  predicate Replaces(raw: string, remaining: seq<Setting>) {
    KeyOf(raw).Some? && HasKey(remaining, KeyOf(raw).value)
  }

  function NewLine(raw: string, remaining: seq<Setting>): string {
    if Replaces(raw, remaining) then FormatLine(Lookup(remaining, KeyOf(raw).value)) else raw
  }

  function Left(raw: string, remaining: seq<Setting>): seq<Setting> {
    if Replaces(raw, remaining) then Pop(remaining, KeyOf(raw).value) else remaining
  }

  /** The lines after the pass over the file, and what is still to be stored. */
  function Rewrite(lines: seq<string>, remaining: seq<Setting>): (r: (seq<string>, seq<Setting>))
    ensures |r.0| == |lines|
    decreases |lines|
  {
    if lines == [] then ([], remaining)
    else
      var rest := Rewrite(lines[1..], Left(lines[0], remaining));
      ([NewLine(lines[0], remaining)] + rest.0, rest.1)
  }

  function FormatAll(settings: seq<Setting>): (r: seq<string>)
    ensures |r| == |settings| && forall i :: 0 <= i < |r| ==> r[i] == FormatLine(settings[i])
  {
    seq(|settings|, i requires 0 <= i < |settings| => FormatLine(settings[i]))
  }

  function Rewritten(lines: seq<string>, updates: seq<Setting>): seq<string> {
    var pass := Rewrite(lines, updates);
    pass.0 + FormatAll(pass.1)
  }

  function Written(lines: seq<string>): string {
    DropNewlines(Join(lines)) + "\n"
  }

  lemma RewriteStep(lines: seq<string>, n: nat, remaining: seq<Setting>)
    requires n < |lines|
    ensures
      var rest := Rewrite(lines[n + 1..], Left(lines[n], remaining));
      Rewrite(lines[n..], remaining) == ([NewLine(lines[n], remaining)] + rest.0, rest.1)
  {
    assert lines[n..][1..] == lines[n + 1..];
  }

  lemma RewriteOfNothing(remaining: seq<Setting>)
    ensures Rewrite([], remaining) == ([], remaining)
  {
  }

  method WriteEnvFile(file: File, updates: seq<Setting>) returns (after: File)
    ensures after == Text(Written(Rewritten(Lines(file), updates)))
  {
    hide Strip, Separator, SplitLines, WithoutExport, IsSpace, SingleLine, HasKey, FormatLine, Lookup, Pop, Join, DropNewlines, Rewrite;
    hide FormatAll;
    var lines := if file.Missing? then [] else SplitLines(file.content);
    var remaining, rewritten: seq<string> := updates, [];
    var n := 0;
    while n < |lines|
      invariant 0 <= n <= |lines|
      invariant rewritten + Rewrite(lines[n..], remaining).0 == Rewrite(lines, updates).0
      invariant Rewrite(lines[n..], remaining).1 == Rewrite(lines, updates).1
    {
      var raw := lines[n];
      ghost var was, left := rewritten, remaining;
      RewriteStep(lines, n, remaining);
      var stripped := Strip(raw);
      var candidate := WithoutExport(stripped);
      var i := Separator(candidate);
      var key := Strip(candidate[..i]);
      if stripped != "" && stripped[0] != '#' && i < |candidate| && HasKey(remaining, key) {
        rewritten := rewritten + [FormatLine(Lookup(remaining, key))];
        remaining := Pop(remaining, key);
      } else {
        rewritten := rewritten + [raw];
      }
      assert rewritten == was + [NewLine(raw, left)] && remaining == Left(raw, left);
      n := n + 1;
    }
    assert rewritten == Rewrite(lines, updates).0 && remaining == Rewrite(lines, updates).1 by {
      assert lines[n..] == [];
      RewriteOfNothing(remaining);
    }
    var m := 0;
    ghost var pass := rewritten;
    assert FormatAll(remaining)[..0] == [];
    while m < |remaining|
      invariant 0 <= m <= |remaining|
      invariant rewritten == pass + FormatAll(remaining)[..m]
    {
      assert FormatAll(remaining)[..m + 1] == FormatAll(remaining)[..m] + [FormatLine(remaining[m])];
      rewritten := rewritten + [FormatLine(remaining[m])];
      m := m + 1;
    }
    assert FormatAll(remaining)[..m] == FormatAll(remaining);
    assert rewritten == Rewritten(lines, updates);
    after := Text(DropNewlines(Join(rewritten)) + "\n");
  }
}
