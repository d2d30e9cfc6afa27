/**
 * A reader for the part of TOML 1.0 that a managed section uses: headers, comments, and bare keys with basic
 * strings, arrays of basic strings and booleans.
 */
module TomlReader {
  import opened JsText

  datatype Value = Text(text: string) | Texts(items: seq<string>) | Flag(on: bool)

  datatype Line = Nothing | Header(name: string) | Pair(key: string, value: Value) | Malformed

  // A basic string, and what follows its closing quote.
  datatype Scan = Scan(text: string, rest: string)

  // Values by section and key.
  type Table = map<(string, string), Value>

  // The section a line belongs to, and what was read up to it.
  datatype Reading = Failed | Reading(section: string, table: Table)

  /** Where `c` first is, or the length if it is not there. */
  function Position(s: string, c: char): (i: nat)
    ensures i <= |s| && (i < |s| ==> s[i] == c)
    ensures forall j | 0 <= j < i :: s[j] != c
  {
    if s == "" || s[0] == c then 0 else 1 + Position(s[1..], c)
  }

  function Lines(s: string): (r: seq<string>)
    ensures r != []
    decreases |s|
  {
    var i := Position(s, '\n');
    if i == |s| then [s] else [s[..i]] + Lines(s[i + 1..])
  }

  /** What a backslash and this character stand for; the escapes by code point are not read. */
  function Unescaped(c: char): Option<char> {
    match c
    case '\\' => Some('\\')
    case '"' => Some('"')
    case 'b' => Some('\U{0008}')
    case 't' => Some('\t')
    case 'n' => Some('\n')
    case 'f' => Some('\U{000C}')
    case 'r' => Some('\r')
    case _ => None
  }

  function Prefixed(c: char, scan: Option<Scan>): Option<Scan> {
    if scan.None? then None else Some(Scan([c] + scan.value.text, scan.value.rest))
  }

  /** Reads on behind an opening quote, up to the first quote that is not escaped. */
  function ReadBasic(s: string): (r: Option<Scan>)
    ensures r.Some? ==> |r.value.rest| < |s|
  {
    if s == "" then None
    else if s[0] == '"' then Some(Scan("", s[1..]))
    else if s[0] != '\\' then Prefixed(s[0], ReadBasic(s[1..]))
    else if |s| == 1 || Unescaped(s[1]).None? then None
    else Prefixed(Unescaped(s[1]).value, ReadBasic(s[2..]))
  }

  /** Reads on behind an opening bracket or a comma. */
  function ReadItems(s: string): Option<seq<string>>
    decreases |s|
  {
    if s == "" || s[0] != '"' || ReadBasic(s[1..]).None? then None else
      var item := ReadBasic(s[1..]).value;
      var rest := TrimStart(item.rest);
      if rest == "" then None
      else if rest[0] == ']' then if Blank(rest[1..]) then Some([item.text]) else None
      else if rest[0] != ',' then None
      else
        var more := ReadItems(TrimStart(rest[1..]));
        if more.None? then None else Some([item.text] + more.value)
  }

  function ReadValue(s: string): Option<Value> {
    if s == "" then None
    else if s[0] == '"' then
      var scan := ReadBasic(s[1..]);
      if scan.Some? && Blank(scan.value.rest) then Some(Text(scan.value.text)) else None
    else if s[0] == '[' then
      var items := ReadItems(TrimStart(s[1..]));
      if items.Some? then Some(Texts(items.value)) else None
    else if TrimEnd(s) == "true" then Some(Flag(true))
    else if TrimEnd(s) == "false" then Some(Flag(false))
    else None
  }

  predicate KeyChar(c: char) {
    'a' <= c <= 'z' || 'A' <= c <= 'Z' || '0' <= c <= '9' || c == '_' || c == '-'
  }

  predicate BareKey(key: string) {
    key != "" && forall i | 0 <= i < |key| :: KeyChar(key[i])
  }

  function HeaderOf(h: string): Line {
    if |h| > 2 && h[0] == '[' && h[|h| - 1] == ']' then Header(h[1..|h| - 1]) else Malformed
  }

  function PairOf(t: string): Line {
    var i := Position(t, '=');
    if i == |t| || !BareKey(TrimEnd(t[..i])) then Malformed else
      var value := ReadValue(TrimStart(t[i + 1..]));
      if value.None? then Malformed else Pair(TrimEnd(t[..i]), value.value)
  }

  function ReadLine(line: string): Line {
    var t := TrimStart(line);
    if t == "" || t[0] == '#' then Nothing
    else if t[0] == '[' then HeaderOf(TrimEnd(t))
    else PairOf(t)
  }

  /** What one line does to the settings read so far; a key must not be set twice. */
  function Apply(r: Reading, line: Line): Reading {
    if r.Failed? || line.Malformed? then Failed
    else if line.Header? then r.(section := line.name)
    else if line.Nothing? then r
    else if (r.section, line.key) in r.table then Failed
    else r.(table := r.table[(r.section, line.key) := line.value])
  }

  function ReadLines(lines: seq<string>, r: Reading): Reading {
    if lines == [] then r else ReadLines(lines[1..], Apply(r, ReadLine(lines[0])))
  }

  function Settings(text: string): Option<Table> {
    var r := ReadLines(Lines(text), Reading("", map[]));
    if r.Failed? then None else Some(r.table)
  }

  // ---------- Lines ----------

  lemma LinesOfOne(s: string)
    requires '\n' !in s
    ensures Lines(s) == [s]
  {
  }

  lemma PositionBehind(a: string, c: char, b: string)
    requires c !in a
    ensures Position(a + [c] + b, c) == |a|
  {
    var s := a + [c] + b;
    assert s[|a|] == c;
    assert forall j | 0 <= j < |a| :: s[j] == a[j];
  }

  lemma FirstLine(a: string, b: string)
    requires '\n' !in a
    ensures Lines(a + "\n" + b) == [a] + Lines(b)
  {
    var s := a + "\n" + b;
    PositionBehind(a, '\n', b);
    assert s[..|a|] == a && s[|a| + 1..] == b;
  }

  lemma {:induction false} LinesConcat(a: string, b: string)
    ensures Lines(a + "\n" + b) == Lines(a) + Lines(b)
    decreases |a|
  {
    hide Lines, Position;
    var i := Position(a, '\n');
    if i == |a| {
      LinesOfOne(a);
      FirstLine(a, b);
    } else {
      var rest := a[i + 1..];
      assert a == a[..i] + "\n" + rest;
      FirstLine(a[..i], rest);
      FirstLine(a[..i], rest + "\n" + b);
      assert a + "\n" + b == a[..i] + "\n" + (rest + "\n" + b);
      LinesConcat(rest, b);
      assert [a[..i]] + Lines(rest) + Lines(b) == [a[..i]] + (Lines(rest) + Lines(b));
    }
  }

  // ---------- Reading a list of lines ----------

  lemma {:induction false} FailedStays(lines: seq<string>)
    ensures ReadLines(lines, Failed) == Failed
  {
    hide ReadLine;
    if lines == [] {
    } else {
      FailedStays(lines[1..]);
    }
  }

  lemma {:induction false} MalformedSpoils(lines: seq<string>, r: Reading, line: string)
    requires line in lines && ReadLine(line).Malformed?
    ensures ReadLines(lines, r) == Failed
  {
    hide ReadLine;
    if lines[0] == line {
      FailedStays(lines[1..]);
    } else {
      assert line in lines[1..];
      MalformedSpoils(lines[1..], Apply(r, ReadLine(lines[0])), line);
    }
  }

  /** One line further. */
  lemma ReadStep(lines: seq<string>, i: nat, r: Reading)
    requires i < |lines|
    ensures ReadLines(lines[i..], r) == ReadLines(lines[i + 1..], Apply(r, ReadLine(lines[i])))
  {
    hide ReadLine, Apply;
    assert lines[i..][1..] == lines[i + 1..];
  }

  // ---------- Reading one line ----------

  lemma KeyCharIsNoSpace(c: char)
    requires KeyChar(c)
    ensures !IsSpace(c) && c !in {'=', '#', '[', '\n'}
  {
  }

  lemma KeyTrims(key: string)
    requires BareKey(key)
    ensures TrimEnd(key + " ") == key
  {
    KeyCharIsNoSpace(key[|key| - 1]);
    assert (key + " ")[..|key|] == key;
    hide BareKey, KeyChar;
    assert TrimEnd(key) == key;
  }

  lemma NoSpaceToTrim(s: string)
    requires s != "" && !IsSpace(s[0])
    ensures TrimStart(s) == s && TrimStart(" " + s) == s
  {
    assert (" " + s)[1..] == s;
  }

  /** A bare key, an equals sign and a value, as they are written. */
  lemma ReadPair(key: string, text: string)
    requires BareKey(key) && text != "" && !IsSpace(text[0])
    ensures var line := key + " = " + text;
      ReadLine(line) == if ReadValue(text).None? then Malformed else Pair(key, ReadValue(text).value)
  {
    hide ReadValue, TrimStart, TrimEnd, IsSpace, Position;
    var line := key + " = " + text;
    forall i | 0 <= i < |key| ensures key[i] !in {'=', '#', '['} && !IsSpace(key[i]) {
      KeyCharIsNoSpace(key[i]);
    }
    NoSpaceToTrim(line);
    assert line == (key + " ") + ['='] + (" " + text);
    PositionBehind(key + " ", '=', " " + text);
    assert line[..|key| + 1] == key + " " && line[|key| + 2..] == " " + text;
    KeyTrims(key);
    NoSpaceToTrim(text);
  }

  lemma NoSpaceAtEnd(s: string)
    requires s != "" && !IsSpace(s[|s| - 1])
    ensures TrimEnd(s) == s
  {
  }

  lemma BracketsAreText()
    ensures !IsSpace('[') && !IsSpace(']')
  {
  }

  lemma HeaderInside(name: string)
    requires name != ""
    ensures HeaderOf("[" + name + "]") == Header(name)
  {
    var h := "[" + name + "]";
    assert |h| == |name| + 2 && h[0] == '[' && h[|name| + 1] == ']';
    assert h[1..|name| + 1] == name;
  }

  lemma ReadHeader(name: string)
    requires name != ""
    ensures ReadLine("[" + name + "]") == Header(name)
  {
    hide TrimStart, TrimEnd, HeaderOf, PairOf, IsSpace;
    var line := "[" + name + "]";
    assert line[0] == '[' && line[|line| - 1] == ']';
    BracketsAreText();
    NoSpaceToTrim(line);
    NoSpaceAtEnd(line);
    HeaderInside(name);
  }

  lemma ReadComment(line: string)
    requires line == "" || line[0] == '#'
    ensures ReadLine(line) == Nothing
  {
  }
}
