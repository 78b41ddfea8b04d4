/** The runtime.env file of an installation: what is printed, and what is accepted back. */
module RuntimeEnv {
  import opened Common

  type Settings = map<string, string>

  // ---------- characters ----------

  /** What str.splitlines breaks at. */
  predicate Breaks(c: char) {
    var n := c as int;
    0x0A <= n <= 0x0D || 0x1C <= n <= 0x1E || n == 0x85 || n == 0x2028 || n == 0x2029
  }

  /** What str.strip removes. */
  predicate Space(c: char) {
    var n := c as int;
    0x09 <= n <= 0x0D || 0x1C <= n <= 0x20 || n == 0x85 || n == 0xA0 || n == 0x1680 || 0x2000 <= n <= 0x200A
    || n == 0x2028 || n == 0x2029 || n == 0x202F || n == 0x205F || n == 0x3000
  }

  predicate Upper(c: char) {
    'A' <= c <= 'Z'
  }

  predicate KeyChar(c: char) {
    Upper(c) || '0' <= c <= '9' || c == '_'
  }

  predicate ValidKey(key: string) {
    key != "" && Upper(key[0]) && forall i :: 0 <= i < |key| ==> KeyChar(key[i])
  }

  predicate Quoting(c: char) {
    c == '$' || c == '"' || c == '\'' || c == '\0'
  }

  predicate AcceptedValue(value: string) {
    value != "" && forall i :: 0 <= i < |value| ==> !Quoting(value[i])
  }

  predicate Unbroken(s: string) {
    forall i :: 0 <= i < |s| ==> !Breaks(s[i])
  }

  // ---------- printing ----------

  function PrintLine(key: string, value: string): string {
    key + "=" + value + "\n"
  }

  /** One line a setting, in the order of keys; the program sorts them. */
  function Print(values: Settings, keys: seq<string>): string
    requires forall k :: k in keys ==> k in values
  {
    if keys == [] then "" else PrintLine(keys[0], values[keys[0]]) + Print(values, keys[1..])
  }

  // ---------- parsing ----------

  /** text.splitlines(), with what has been read of the current line. */
  function Lines(text: string, line: string): seq<string> {
    if text == "" then if line == "" then [] else [line]
    else if text[0] == '\r' && |text| > 1 && text[1] == '\n' then [line] + Lines(text[2..], "")
    else if Breaks(text[0]) then [line] + Lines(text[1..], "")
    else Lines(text[1..], line + [text[0]])
  }

  function Stripped(s: string): string {
    if s != "" && Space(s[0]) then Stripped(s[1..]) else s
  }

  predicate Ignored(line: string) {
    Stripped(line) == "" || Stripped(line)[0] == '#'
  }

  /** The index of the first '=', or the length. */
  function Equals(line: string): (i: nat)
    ensures i <= |line| && '=' !in line[..i] && (i < |line| ==> line[i] == '=')
  {
    if line == "" || line[0] == '=' then 0 else 1 + Equals(line[1..])
  }

  function KeyOf(line: string): string {
    line[..Equals(line)]
  }

  function ValueOf(line: string): string {
    if Equals(line) < |line| then line[Equals(line)+1..] else ""
  }

  predicate AcceptedLine(line: string, values: Settings) {
    Equals(line) < |line| && ValidKey(KeyOf(line)) && KeyOf(line) !in values && AcceptedValue(ValueOf(line))
  }

  function ParseLines(lines: seq<string>): Option<Settings> {
    if lines == [] then Some(map[])
    else
      var before := ParseLines(lines[..|lines|-1]);
      var line := lines[|lines|-1];
      if before.None? || Ignored(line) then before
      else if AcceptedLine(line, before.value) then Some(before.value[KeyOf(line) := ValueOf(line)])
      else None
  }

  function Parse(text: string): Option<Settings> {
    ParseLines(Lines(text, ""))
  }

  /** parse_runtime_env: the first offending line ends it. */
  method ParseRuntimeEnv(text: string) returns (r: Result<Settings>)
    ensures r.Ok? <==> Parse(text).Some?
    ensures r.Ok? ==> r.value == Parse(text).value
  {
    var lines := Lines(text, "");
    var values: Settings := map[];
    for i := 0 to |lines|
      invariant ParseLines(lines[..i]) == Some(values)
    {
      assert lines[..i+1][..i] == lines[..i];
      if Ignored(lines[i]) { continue; }
      if !AcceptedLine(lines[i], values) {
        RefusalStays(lines, i + 1);
        return Refused("Invalid or duplicate non-secret runtime input.");
      }
      values := values[KeyOf(lines[i]) := ValueOf(lines[i])];
    }
    assert lines[..|lines|] == lines;
    r := Ok(values);
  }

  lemma {:induction false} RefusalStays(lines: seq<string>, n: nat)
    requires n <= |lines| && ParseLines(lines[..n]).None?
    ensures ParseLines(lines).None?
    decreases |lines| - n
  {
    if n < |lines| {
      assert lines[..n+1][..n] == lines[..n];
      RefusalStays(lines, n + 1);
    } else {
      assert lines[..n] == lines;
    }
  }

  // ---------- the round trip ----------

  /** What a map must be to survive printing. */
  predicate Printable(values: Settings) {
    forall k :: k in values ==> ValidKey(k) && AcceptedValue(values[k]) && Unbroken(values[k])
  }

  ghost predicate Enumerates(keys: seq<string>, values: Settings) {
    && (forall k :: k in keys <==> k in values)
    && (forall i, j :: 0 <= i < j < |keys| ==> keys[i] != keys[j])
  }

  lemma {:induction false} LineEnds(line: string, rest: string, read: string)
    requires Unbroken(line)
    ensures Lines(line + "\n" + rest, read) == [read + line] + Lines(rest, "")
  {
    if line == "" {
      assert line + "\n" + rest == "\n" + rest;
      assert ("\n" + rest)[1..] == rest;
      assert read + line == read;
    } else {
      var text := line + "\n" + rest;
      assert text[1..] == line[1..] + "\n" + rest;
      LineEnds(line[1..], rest, read + [line[0]]);
      assert read + [line[0]] + line[1..] == read + line;
    }
  }

  lemma ValidKeyIsUnbroken(key: string)
    requires ValidKey(key)
    ensures Unbroken(key) && '=' !in key && Stripped(key + "=") == key + "=" && key[0] != '#'
  {
  }

  lemma {:induction false} FirstEquals(key: string, rest: string)
    requires '=' !in key
    ensures Equals(key + "=" + rest) == |key|
  {
    if key != "" {
      assert (key + "=" + rest)[1..] == key[1..] + "=" + rest;
      FirstEquals(key[1..], rest);
    } else {
      assert key + "=" + rest == "=" + rest;
    }
  }

  lemma PrintedLineParses(key: string, value: string)
    requires ValidKey(key)
    ensures var line := key + "=" + value;
      !Ignored(line) && Equals(line) < |line| && KeyOf(line) == key && ValueOf(line) == value
  {
    var line := key + "=" + value;
    ValidKeyIsUnbroken(key);
    FirstEquals(key, value);
    assert line[0] == key[0] && !Space(line[0]);
  }

  /** The lines of a print are its settings. */
  function LinesOf(values: Settings, keys: seq<string>): (r: seq<string>)
    requires forall k :: k in keys ==> k in values
    ensures |r| == |keys| && forall i :: 0 <= i < |r| ==> r[i] == keys[i] + "=" + values[keys[i]]
  {
    if keys == [] then [] else [keys[0] + "=" + values[keys[0]]] + LinesOf(values, keys[1..])
  }

  lemma {:induction false} PrintHasLines(values: Settings, keys: seq<string>)
    requires (forall k :: k in keys ==> k in values) && Printable(values)
    ensures Lines(Print(values, keys), "") == LinesOf(values, keys)
  {
    if keys != [] {
      var key, value := keys[0], values[keys[0]];
      ValidKeyIsUnbroken(key);
      PrintHasLines(values, keys[1..]);
      LineEnds(key + "=" + value, Print(values, keys[1..]), "");
      assert PrintLine(key, value) + Print(values, keys[1..]) == (key + "=" + value) + "\n" + Print(values, keys[1..]);
      assert "" + (key + "=" + value) == key + "=" + value;
    }
  }

  /** The settings of the first n keys. */
  function Among(values: Settings, keys: seq<string>): Settings {
    map k | k in values && k in keys :: values[k]
  }

  lemma AmongGrows(values: Settings, keys: seq<string>, n: nat)
    requires Enumerates(keys, values) && 0 < n <= |keys|
    ensures keys[n-1] in values && keys[n-1] !in Among(values, keys[..n-1])
    ensures Among(values, keys[..n]) == Among(values, keys[..n-1])[keys[n-1] := values[keys[n-1]]]
  {
    assert keys[..n] == keys[..n-1] + [keys[n-1]];
    assert keys[n-1] in keys;
  }

  /** One more printed line is one more setting. */
  lemma PrintedLineAdds(lines: seq<string>, n: nat, before: Settings, key: string, value: string)
    requires 0 < n <= |lines| && lines[n-1] == key + "=" + value
    requires ParseLines(lines[..n-1]) == Some(before)
    requires ValidKey(key) && AcceptedValue(value) && key !in before
    ensures ParseLines(lines[..n]) == Some(before[key := value])
  {
    hide Ignored, KeyOf, ValueOf, Equals, ValidKey, AcceptedValue;
    PrintedLineParses(key, value);
    assert lines[..n][..n-1] == lines[..n-1];
  }

  lemma {:induction false} PrintedLinesParse(values: Settings, keys: seq<string>, n: nat)
    requires Enumerates(keys, values) && Printable(values) && n <= |keys|
    ensures ParseLines(LinesOf(values, keys)[..n]) == Some(Among(values, keys[..n]))
  {
    hide ValidKey, AcceptedValue, Unbroken, LinesOf, ParseLines;
    if n == 0 {
      NothingParses(values);
    } else {
      PrintedLinesParse(values, keys, n - 1);
      AmongGrows(values, keys, n);
      hide Among;
      PrintedLineAdds(LinesOf(values, keys), n, Among(values, keys[..n-1]), keys[n-1], values[keys[n-1]]);
    }
  }

  lemma NothingParses(values: Settings)
    ensures ParseLines([]) == Some(Among(values, []))
  {
  }

  lemma {:induction false} PrintableParsesBack(values: Settings, keys: seq<string>)
    requires Enumerates(keys, values) && Printable(values)
    ensures Parse(Print(values, keys)) == Some(values)
  {
    hide Lines, Print, LinesOf, ParseLines, Printable;
    PrintHasLines(values, keys);
    PrintedLinesParse(values, keys, |keys|);
    assert LinesOf(values, keys)[..|keys|] == LinesOf(values, keys) && keys[..|keys|] == keys;
    assert Among(values, keys) == values;
  }

  lemma {:induction false} LinesAreUnbroken(text: string, line: string)
    requires Unbroken(line)
    ensures forall i :: 0 <= i < |Lines(text, line)| ==> Unbroken(Lines(text, line)[i])
    decreases |text|
  {
    if text == "" {
    } else if text[0] == '\r' && |text| > 1 && text[1] == '\n' {
      LinesAreUnbroken(text[2..], "");
    } else if Breaks(text[0]) {
      LinesAreUnbroken(text[1..], "");
    } else {
      LinesAreUnbroken(text[1..], line + [text[0]]);
    }
  }

  lemma {:induction false} ParsedLinesArePrintable(lines: seq<string>)
    requires ParseLines(lines).Some? && forall i :: 0 <= i < |lines| ==> Unbroken(lines[i])
    ensures Printable(ParseLines(lines).value)
  {
    hide Ignored, ValidKey, AcceptedValue;
    if lines != [] {
      ParsedLinesArePrintable(lines[..|lines|-1]);
    }
  }

  /** Every accepted file holds only settings that survive printing. */
  lemma {:induction false} ParsedIsPrintable(text: string)
    requires Parse(text).Some?
    ensures Printable(Parse(text).value)
  {
    LinesAreUnbroken(text, "");
    ParsedLinesArePrintable(Lines(text, ""));
  }

  /** A map survives printing and parsing, in whatever order it is printed, if and only if it is printable. */
  lemma {:induction false} RoundTrip(values: Settings, keys: seq<string>)
    requires Enumerates(keys, values)
    ensures Parse(Print(values, keys)) == Some(values) <==> Printable(values)
  {
    if Printable(values) {
      PrintableParsesBack(values, keys);
    }
    if Parse(Print(values, keys)) == Some(values) {
      ParsedIsPrintable(Print(values, keys));
    }
  }

  /** However often an accepted file is read, updated with acceptable settings and printed, nothing else is lost. */
  lemma {:induction false} UpdateLosesNothing(text: string, updates: Settings, keys: seq<string>)
    requires Parse(text).Some? && Printable(updates) && Enumerates(keys, Parse(text).value + updates)
    ensures Parse(Print(Parse(text).value + updates, keys)) == Some(Parse(text).value + updates)
  {
    ParsedIsPrintable(text);
    var all := Parse(text).value + updates;
    assert forall k :: k in all ==> k in updates || k in Parse(text).value;
    PrintableParsesBack(all, keys);
  }

  // ---------- what is accepted, written out ----------

  /** Line breaks, which are white space all of them, and white space: the code points, one by one. */
  lemma WhiteSpace(c: char)
    ensures Breaks(c) <==> c as int in {10, 11, 12, 13, 28, 29, 30, 133, 8232, 8233}
    ensures Space(c) <==> Breaks(c) || c as int in {9, 31, 32, 160, 5760, 8192, 8193, 8194, 8195, 8196, 8197, 8198, 8199, 8200,
                                                     8201, 8202, 8239, 8287, 12288}
  {
  }

  predicate BlankUntil(line: string, i: int) {
    0 <= i <= |line| && forall j :: 0 <= j < i ==> Space(line[j])
  }

  /** Only white space, or white space before a comment. */
  predicate Blank(line: string, i: int) {
    BlankUntil(line, i) && (i == |line| || line[i] == '#')
  }

  lemma BlankShifts(line: string, i: int)
    requires line != "" && i > 0
    ensures Blank(line, i) <==> Space(line[0]) && Blank(line[1..], i - 1)
  {
    var rest := line[1..];
    assert forall j :: 0 <= j < |rest| ==> rest[j] == line[j+1];
    if Space(line[0]) && Blank(rest, i - 1) {
      forall j | 0 <= j < i ensures Space(line[j]) {
        if j > 0 { assert rest[j-1] == line[j]; }
      }
    }
  }

  lemma {:induction false} IgnoredExactly(line: string)
    ensures Ignored(line) <==> exists i :: Blank(line, i)
  {
    if line == "" {
      assert Blank(line, 0);
    } else if Space(line[0]) {
      IgnoredExactly(line[1..]);
      if Ignored(line) {
        var i :| Blank(line[1..], i);
        BlankShifts(line, i + 1);
      }
      if i :| Blank(line, i) {
        assert i > 0;
        BlankShifts(line, i);
      }
    } else {
      if line[0] == '#' { assert Blank(line, 0); }
    }
  }

  /** A capital, then capitals, digits and underscores; and a value of at least one character, none of them quoting. */
  predicate Setting(line: string) {
    exists i :: 0 < i < |line| - 1 && line[i] == '=' && NamedUntil(line, i)
      && forall j :: i < j < |line| ==> line[j] !in {'$', '"', '\'', '\0'}
  }

  predicate NamedUntil(line: string, i: int)
    requires 0 < i < |line|
  {
    'A' <= line[0] <= 'Z' && forall j :: 0 <= j < i ==> 'A' <= line[j] <= 'Z' || '0' <= line[j] <= '9' || line[j] == '_'
  }

  lemma SettingIsAccepted(line: string, values: Settings)
    ensures AcceptedLine(line, values) <==> Setting(line) && KeyOf(line) !in values
  {
    var e := Equals(line);
    if e < |line| {
      var key, value := KeyOf(line), ValueOf(line);
      assert forall j :: 0 <= j < e ==> key[j] == line[j];
      assert forall j :: e < j < |line| ==> line[j] == value[j-e-1];
      if i :| 0 < i < |line| - 1 && line[i] == '=' && NamedUntil(line, i) {
        assert e == i;
      }
    }
  }

  /** The line and its place count: not blank, no comment. */
  predicate Counts(lines: seq<string>, i: int) {
    0 <= i < |lines| && !Ignored(lines[i])
  }

  /**
   * A file is accepted exactly if each of its lines is blank, a comment or a setting, and no two
   * settings share a key; it then says what its settings say.
   */
  lemma {:induction false} ParsedExactly(lines: seq<string>)
    ensures ParseLines(lines).Some? <==>
      (forall i :: Counts(lines, i) ==> Setting(lines[i]))
      && (forall i, j :: Counts(lines, i) && Counts(lines, j) && i < j ==> KeyOf(lines[i]) != KeyOf(lines[j]))
    ensures ParseLines(lines).Some? ==>
      var values := ParseLines(lines).value;
      && (forall i :: Counts(lines, i) ==> KeyOf(lines[i]) in values && values[KeyOf(lines[i])] == ValueOf(lines[i]))
      && (forall k :: k in values ==> exists i :: Counts(lines, i) && KeyOf(lines[i]) == k)
  {
    hide Ignored, Setting, KeyOf, ValueOf, AcceptedLine;
    if lines != [] {
      var n := |lines| - 1;
      var front, line := lines[..n], lines[n];
      ParsedExactly(front);
      assert forall i :: 0 <= i < n ==> front[i] == lines[i] && (Counts(front, i) <==> Counts(lines, i));
      assert Counts(lines, n) <==> !Ignored(line);
      assert forall i :: Counts(lines, i) ==> i == n || Counts(front, i);
      if ParseLines(front).Some? { SettingIsAccepted(line, ParseLines(front).value); }
    }
  }

  /** Any break ends a line, and a carriage return with its line feed ends one line only. */
  lemma {:induction false} AnyBreakEnds(line: string, c: char, rest: string, read: string)
    requires Unbroken(line) && Breaks(c)
    ensures !(c == '\r' && rest != "" && rest[0] == '\n') ==> Lines(line + [c] + rest, read) == [read + line] + Lines(rest, "")
    ensures Lines(line + "\r\n" + rest, read) == [read + line] + Lines(rest, "")
  {
    if line == "" {
      assert line + [c] + rest == [c] + rest && ([c] + rest)[1..] == rest;
      assert line + "\r\n" + rest == "\r\n" + rest && ("\r\n" + rest)[2..] == rest;
      assert read + line == read;
    } else {
      assert (line + [c] + rest)[1..] == line[1..] + [c] + rest;
      assert (line + "\r\n" + rest)[1..] == line[1..] + "\r\n" + rest;
      AnyBreakEnds(line[1..], c, rest, read + [line[0]]);
      assert read + [line[0]] + line[1..] == read + line;
    }
  }

  lemma {:induction false} LastLineIsKept(line: string, read: string)
    requires Unbroken(line)
    ensures Lines(line, read) == if read + line == "" then [] else [read + line]
  {
    if line != "" {
      LastLineIsKept(line[1..], read + [line[0]]);
      assert read + [line[0]] + line[1..] == read + line;
    } else {
      assert read + line == read;
    }
  }

  /** The last line counts whether it is ended or not. */
  lemma {:induction false} EndIsOptional(values: Settings, keys: seq<string>)
    requires Enumerates(keys, values) && Printable(values) && keys != []
    ensures var text := Print(values, keys);
      text[|text|-1] == '\n' && Parse(text[..|text|-1]) == Some(values)
  {
    PrintableParsesBack(values, keys);
    PrintEnds(values, keys);
    hide Print, ParseLines;
  }

  lemma {:induction false} PrintEnds(values: Settings, keys: seq<string>)
    requires (forall k :: k in keys ==> k in values) && Printable(values) && keys != []
    ensures var text := Print(values, keys);
      text != "" && text[|text|-1] == '\n' && Lines(text[..|text|-1], "") == Lines(text, "")
  {
    var key, value := keys[0], values[keys[0]];
    var line, rest := key + "=" + value, Print(values, keys[1..]);
    var text := Print(values, keys);
    ValidKeyIsUnbroken(key);
    assert text == line + "\n" + rest;
    LineEnds(line, rest, "");
    if |keys| == 1 {
      assert rest == "" && text[..|text|-1] == line && "" + line == line;
      LastLineIsKept(line, "");
    } else {
      PrintEnds(values, keys[1..]);
      assert text[..|text|-1] == line + "\n" + rest[..|rest|-1];
      LineEnds(line, rest[..|rest|-1], "");
    }
    hide Lines, Print;
  }
}
