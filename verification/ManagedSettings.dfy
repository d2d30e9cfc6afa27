/** What a reader of the configuration file finds in the section that `scripts/lib/mcp-config.js` wrote. */
module ManagedSettings {
  import opened JsText
  import opened ManagedBlock
  import opened TomlReader

  // ---------- Values ----------

  lemma ReadOne(c: char, s: string)
    ensures ReadBasic((if c == '\\' || c == '"' then ['\\', c] else [c]) + s) == Prefixed(c, ReadBasic(s))
  {
    var t := (if c == '\\' || c == '"' then ['\\', c] else [c]) + s;
    if c == '\\' || c == '"' {
      assert t[2..] == s;
    } else {
      assert t[1..] == s;
    }
  }

  lemma EmptyReadsBack(rest: string)
    ensures ReadBasic("\"" + rest) == Some(Scan("", rest))
  {
  }

  /** Escaping round trip: the reader gives back any value, and goes no further than its closing quote. */
  lemma {:induction false} EscapedReadsBack(v: string, rest: string)
    ensures ReadBasic(EscapeTomlString(v) + "\"" + rest) == Some(Scan(v, rest))
  {
    hide ReadBasic;
    if v == "" {
      assert EscapeTomlString(v) + "\"" + rest == "\"" + rest;
      assert ReadBasic("\"" + rest) == Some(Scan("", rest)) by { EmptyReadsBack(rest); }
    } else {
      var c, tail := v[0], EscapeTomlString(v[1..]) + "\"" + rest;
      var w := if c == '\\' || c == '"' then ['\\', c] else [c];
      assert EscapeTomlString(v) + "\"" + rest == w + tail;
      EscapedReadsBack(v[1..], rest);
      ReadOne(c, tail);
      assert v == [c] + v[1..];
    }
  }

  lemma NothingIsUnread()
    ensures ReadBasic("") == None
  {
  }

  /** An escaped value without its closing quote is not a string. */
  lemma {:induction false} OpenIsUnread(v: string)
    ensures ReadBasic(EscapeTomlString(v)) == None
  {
    hide ReadBasic;
    if v == "" {
      assert ReadBasic("") == None by { NothingIsUnread(); }
    } else {
      OpenIsUnread(v[1..]);
      ReadOne(v[0], EscapeTomlString(v[1..]));
    }
  }

  lemma {:induction false} EscapeConcat(a: string, b: string)
    ensures EscapeTomlString(a + b) == EscapeTomlString(a) + EscapeTomlString(b)
  {
    if a == "" {
      assert a + b == b;
    } else {
      assert (a + b)[1..] == a[1..] + b;
      EscapeConcat(a[1..], b);
    }
  }

  lemma {:induction false} EscapeKeepsLines(v: string)
    ensures '\n' in EscapeTomlString(v) <==> '\n' in v
  {
    if v == "" {
    } else {
      EscapeKeepsLines(v[1..]);
    }
  }

  lemma ReadText(v: string)
    ensures ReadValue("\"" + EscapeTomlString(v) + "\"") == Some(Text(v))
  {
    hide EscapeTomlString, ReadBasic, ReadItems;
    EscapedReadsBack(v, "");
    var s := "\"" + EscapeTomlString(v) + "\"";
    assert s[1..] == EscapeTomlString(v) + "\"" + "";
  }

  lemma ReadBracket(t: string)
    requires t != "" && !IsSpace(t[0])
    ensures ReadValue("[" + t) == if ReadItems(t).Some? then Some(Texts(ReadItems(t).value)) else None
  {
    hide ReadItems, TrimStart, TrimEnd, ReadBasic, Blank, IsSpace;
    NoSpaceToTrim(t);
    assert ("[" + t)[1..] == t;
  }

  lemma ReadOneItem(v: string)
    ensures ReadItems("\"" + EscapeTomlString(v) + "\"]") == Some([v])
  {
    hide EscapeTomlString, ReadBasic, TrimStart;
    EscapedReadsBack(v, "]");
    var t := "\"" + EscapeTomlString(v) + "\"]";
    assert t[1..] == EscapeTomlString(v) + "\"" + "]";
    NoSpaceToTrim("]");
  }

  lemma ReadList(v: string)
    ensures ReadValue("[\"" + EscapeTomlString(v) + "\"]") == Some(Texts([v]))
  {
    hide EscapeTomlString, ReadValue, ReadItems;
    var t := "\"" + EscapeTomlString(v) + "\"]";
    assert "[\"" + EscapeTomlString(v) + "\"]" == "[" + t;
    ReadBracket(t);
    ReadOneItem(v);
  }

  // ---------- Lines ----------

  /** How a value is written: alone, or as the one item of a list. */
  function Written(v: string, list: bool): string {
    if list then "[\"" + EscapeTomlString(v) + "\"]" else "\"" + EscapeTomlString(v) + "\""
  }

  lemma KeyHasNoBreak(key: string)
    requires BareKey(key)
    ensures '\n' !in key
  {
    hide IsSpace;
    forall i | 0 <= i < |key| ensures key[i] != '\n' { KeyCharIsNoSpace(key[i]); }
  }

  /** A line that sets a key to a value without line breaks. */
  lemma WholeLine(key: string, v: string, list: bool)
    requires BareKey(key) && '\n' !in v
    ensures var line := key + " = " + Written(v, list);
      && ReadLine(line) == Pair(key, if list then Texts([v]) else Text(v))
      && Lines(line) == [line] && '\n' !in line
  {
    hide BareKey, ReadLine, ReadValue, Lines, EscapeTomlString;
    ReadText(v);
    ReadList(v);
    ReadPair(key, Written(v, list));
    EscapeKeepsLines(v);
    KeyHasNoBreak(key);
    LinesOfOne(key + " = " + Written(v, list));
  }

  lemma OpenItem(v: string)
    ensures ReadItems("\"" + EscapeTomlString(v)) == None && ReadValue("\"" + EscapeTomlString(v)) == None
  {
    hide EscapeTomlString, ReadBasic, TrimStart, TrimEnd, Blank;
    OpenIsUnread(v);
    var t := "\"" + EscapeTomlString(v);
    assert t[1..] == EscapeTomlString(v);
  }

  lemma OpenText(v: string, list: bool)
    ensures ReadValue((if list then "[\"" else "\"") + EscapeTomlString(v)) == None
  {
    hide EscapeTomlString, ReadValue, ReadItems;
    OpenItem(v);
    if list {
      var t := "\"" + EscapeTomlString(v);
      assert "[\"" + EscapeTomlString(v) == "[" + t;
      ReadBracket(t);
    }
  }

  lemma BreakIsPlain()
    ensures EscapeTomlString("\n") == "\n"
  {
    assert "\n"[1..] == "";
    assert EscapeTomlString("") == "";
  }

  /** A line break in a value tears its line, and no reader can make sense of the first half. */
  lemma TornLine(key: string, v: string, list: bool)
    requires BareKey(key) && '\n' in v
    ensures exists line :: line in Lines(key + " = " + Written(v, list)) && ReadLine(line).Malformed?
  {
    hide BareKey, ReadLine, ReadValue, Lines, EscapeTomlString, Position;
    var i := Position(v, '\n');
    var a, b := v[..i], v[i + 1..];
    assert v == a + ("\n" + b);
    EscapeConcat(a, "\n" + b);
    EscapeConcat("\n", b);
    BreakIsPlain();
    var start := (if list then "[\"" else "\"") + EscapeTomlString(a);
    var first := key + " = " + start;
    var rest := EscapeTomlString(b) + if list then "\"]" else "\"";
    assert key + " = " + Written(v, list) == first + "\n" + rest;
    KeyHasNoBreak(key);
    EscapeKeepsLines(a);
    FirstLine(first, rest);
    OpenText(a, list);
    ReadPair(key, start);
    assert first in Lines(first + "\n" + rest);
  }

  // ---------- The block ----------

  /** No value has a line break. */
  predicate OneLiners(spec: ServerSpec) {
    && '\n' !in spec.command && '\n' !in spec.arg && '\n' !in spec.host
    && '\n' !in spec.port && '\n' !in spec.dbPath && '\n' !in spec.nodePath
  }

  /** Line `i` of the body sets a key. */
  predicate Sets(i: nat) {
    1 <= i <= 3 || 6 <= i <= 9
  }

  function Key(i: nat): string {
    match i
    case 1 => "command"
    case 2 => "args"
    case 3 => "enabled"
    case 6 => "HARNESS_MEM_HOST"
    case 7 => "HARNESS_MEM_PORT"
    case 8 => "HARNESS_MEM_DB_PATH"
    case _ => "NODE_PATH"
  }

  /** The text behind the equals sign. */
  function LineText(spec: ServerSpec, i: nat): string {
    if i == 3 then "true" else Written(ValueOf(spec, i), i == 2)
  }

  function Setting(spec: ServerSpec, i: nat): Value {
    if i == 3 then Flag(true) else if i == 2 then Texts([spec.arg]) else Text(ValueOf(spec, i))
  }

  /** The section that line `i` is in, or opens. */
  function SectionAt(i: nat): string {
    if i < 5 then "mcp_servers.harness" else "mcp_servers.harness.env"
  }

  lemma KeysAreBare(i: nat)
    ensures BareKey(Key(i))
  {
    match i
    case 1 => assert BareKey("command");
    case 2 => assert BareKey("args");
    case 3 => assert BareKey("enabled");
    case 6 => assert BareKey("HARNESS_MEM_HOST");
    case 7 => assert BareKey("HARNESS_MEM_PORT");
    case 8 => assert BareKey("HARNESS_MEM_DB_PATH");
    case _ => assert BareKey("NODE_PATH");
  }

  lemma EntryForm(key: string, v: string)
    ensures Entry(key + " = ", v, "") == key + " = " + Written(v, false)
    ensures Entry(key + " = [", v, "]") == key + " = " + Written(v, true)
  {
    hide EscapeTomlString;
    assert key + " = [" == key + " = " + "[";
  }

  lemma ServerSection(spec: ServerSpec)
    ensures var lines := BodyLines(spec);
      |lines| == 10 && lines[0] == "[" + SectionAt(0) + "]" && lines[4] == ""
  {
    hide Entry;
  }

  lemma EnabledLine(spec: ServerSpec)
    ensures |BodyLines(spec)| == 10 && BodyLines(spec)[3] == Key(3) + " = " + LineText(spec, 3)
  {
    hide Entry, Written;
  }

  lemma ServerEntries(spec: ServerSpec)
    ensures var lines := BodyLines(spec);
      && |lines| == 10 && lines[1] == Key(1) + " = " + LineText(spec, 1) && lines[2] == Key(2) + " = " + LineText(spec, 2)
  {
    EntryForm("command", spec.command);
    EntryForm("args", spec.arg);
    hide Entry, Written;
    assert "command = " == "command" + " = " && "args = [" == "args" + " = [";
  }

  lemma EnvSection(spec: ServerSpec)
    ensures |BodyLines(spec)| == 10 && BodyLines(spec)[5] == "[" + SectionAt(5) + "]"
  {
    hide Entry, Written;
  }

  lemma EnvEntries(spec: ServerSpec)
    ensures var lines := BodyLines(spec);
      && |lines| == 10 && lines[6] == Key(6) + " = " + LineText(spec, 6) && lines[7] == Key(7) + " = " + LineText(spec, 7)
  {
    EntryForm("HARNESS_MEM_HOST", spec.host);
    EntryForm("HARNESS_MEM_PORT", spec.port);
    hide Entry, Written;
    assert "HARNESS_MEM_HOST = " == "HARNESS_MEM_HOST" + " = ";
    assert "HARNESS_MEM_PORT = " == "HARNESS_MEM_PORT" + " = ";
  }

  lemma EnvPaths(spec: ServerSpec)
    ensures var lines := BodyLines(spec);
      && |lines| == 10 && lines[8] == Key(8) + " = " + LineText(spec, 8) && lines[9] == Key(9) + " = " + LineText(spec, 9)
  {
    EntryForm("HARNESS_MEM_DB_PATH", spec.dbPath);
    EntryForm("NODE_PATH", spec.nodePath);
    hide Entry, Written;
    assert "HARNESS_MEM_DB_PATH = " == "HARNESS_MEM_DB_PATH" + " = ";
    assert "NODE_PATH = " == "NODE_PATH" + " = ";
  }

  /** The lines of the body: two headers, an empty line, and the keys with their values. */
  lemma BodyLine(spec: ServerSpec, i: nat)
    requires i < 10
    ensures |BodyLines(spec)| == 10
    ensures var line := BodyLines(spec)[i];
      if Sets(i) then line == Key(i) + " = " + LineText(spec, i)
      else line == if i == 4 then "" else "[" + SectionAt(i) + "]"
  {
    ServerSection(spec);
    EnabledLine(spec);
    ServerEntries(spec);
    EnvSection(spec);
    EnvEntries(spec);
    EnvPaths(spec);
    hide BodyLines, Key, LineText, SectionAt;
  }

  ghost predicate OneLine(line: string) {
    '\n' !in line
  }

  /** What line `i` reads as. */
  ghost predicate ReadsAs(line: Line, spec: ServerSpec, i: nat) {
    if Sets(i) then line == Pair(Key(i), Setting(spec, i))
    else line == if i == 4 then Nothing else Header(SectionAt(i))
  }

  lemma ValuesAreOneLiners(spec: ServerSpec, i: nat)
    requires OneLiners(spec)
    ensures '\n' !in ValueOf(spec, i)
  {
  }

  lemma ReadTrue(key: string)
    requires BareKey(key)
    ensures ReadLine(key + " = " + "true") == Pair(key, Flag(true)) && OneLine(key + " = " + "true")
  {
    hide ReadLine;
    assert TrimEnd("true") == "true";
    KeyHasNoBreak(key);
    ReadPair(key, "true");
  }

  lemma SettingLine(spec: ServerSpec, i: nat)
    requires OneLiners(spec) && Sets(i)
    ensures var line := Key(i) + " = " + LineText(spec, i);
      ReadLine(line) == Pair(Key(i), Setting(spec, i)) && OneLine(line)
  {
    KeysAreBare(i);
    hide BareKey, Key, ReadLine, ReadValue, Lines;
    if i == 3 {
      assert TrimEnd("true") == "true";
      ReadTrue(Key(i));
    } else {
      hide Written;
      ValuesAreOneLiners(spec, i);
      WholeLine(Key(i), ValueOf(spec, i), i == 2);
    }
  }

  lemma SectionNames()
    ensures forall i: nat :: SectionAt(i) != "" && '\n' !in SectionAt(i)
    ensures SectionAt(0) != SectionAt(5)
  {
    assert |SectionAt(0)| != |SectionAt(5)|;
    assert forall k | 0 <= k < |SectionAt(0)| :: SectionAt(0)[k] != '\n';
    assert forall k | 0 <= k < |SectionAt(5)| :: SectionAt(5)[k] != '\n';
    assert forall i: nat :: SectionAt(i) == SectionAt(0) || SectionAt(i) == SectionAt(5);
  }

  lemma ReadBodyLine(spec: ServerSpec, i: nat)
    requires OneLiners(spec) && i < 10
    ensures var lines := BodyLines(spec);
      |lines| == 10 && ReadsAs(ReadLine(lines[i]), spec, i) && OneLine(lines[i])
  {
    BodyLine(spec, i);
    SectionNames();
    hide BodyLines, ReadLine, Key, LineText, Setting, SectionAt;
    if Sets(i) {
      SettingLine(spec, i);
    } else if i == 4 {
      ReadComment("");
    } else {
      ReadHeader(SectionAt(i));
    }
  }

  lemma {:induction false} LinesOfJoined(lines: seq<string>)
    requires lines != [] && forall i | 0 <= i < |lines| :: OneLine(lines[i])
    ensures Lines(JoinLines(lines)) == lines
  {
    hide Lines;
    if |lines| == 1 {
      LinesOfOne(lines[0]);
    } else {
      FirstLine(lines[0], JoinLines(lines[1..]));
      LinesOfJoined(lines[1..]);
    }
  }

  /** The lines of the block, its markers included. */
  ghost function BlockLines(spec: ServerSpec): seq<string> {
    [BEGIN_CODEX_MCP] + BodyLines(spec) + [END_CODEX_MCP, ""]
  }

  lemma MarkersAreComments()
    ensures ReadLine(BEGIN_CODEX_MCP) == ReadLine(END_CODEX_MCP) == ReadLine("") == Nothing
    ensures OneLine(BEGIN_CODEX_MCP) && OneLine(END_CODEX_MCP) && OneLine("")
  {
    hide ReadLine;
    BeginMarker();
    EndMarker();
    ReadComment(BEGIN_CODEX_MCP);
    ReadComment(END_CODEX_MCP);
    ReadComment("");
  }

  lemma LinesOfBlock(spec: ServerSpec)
    requires OneLiners(spec)
    ensures Lines(BuildCodexManagedBlock(spec)) == BlockLines(spec)
  {
    MarkersAreComments();
    var body := BodyLines(spec);
    hide BodyLines, ReadLine, Lines, JoinLines, OneLine, OneLiners;
    forall i | 0 <= i < |body| ensures OneLine(body[i]) {
      ReadBodyLine(spec, 0);
      ReadBodyLine(spec, i);
    }
    LinesOfJoined(BlockLines(spec));
  }

  /** The settings that the lines before line `i` make. */
  ghost function Found(spec: ServerSpec, i: nat): Table {
    if i == 0 then map[]
    else if Sets(i - 1) then Found(spec, i - 1)[(SectionAt(i - 1), Key(i - 1)) := Setting(spec, i - 1)]
    else Found(spec, i - 1)
  }

  lemma KeysDiffer(i: nat, j: nat)
    requires Sets(i) && Sets(j) && i < j
    ensures SectionAt(i) != SectionAt(j) || Key(i) != Key(j)
  {
    SectionNames();
    assert |Key(1)| == 7 && |Key(2)| == 4 && |Key(3)| == 7 && Key(1)[0] == 'c' && Key(3)[0] == 'e';
    assert |Key(6)| == |Key(7)| == 16 && Key(6)[12] == 'H' && Key(7)[12] == 'P' && |Key(8)| == 19 && |Key(9)| == 9;
  }

  lemma {:induction false} FoundKeys(spec: ServerSpec, i: nat, j: nat)
    requires i <= j && Sets(j)
    ensures (SectionAt(j), Key(j)) !in Found(spec, i)
  {
    hide SectionAt, Key, Setting;
    if i == 0 {
    } else {
      FoundKeys(spec, i - 1, j);
      if Sets(i - 1) { KeysDiffer(i - 1, j); }
    }
  }

  lemma SameSection(i: nat)
    requires i > 1 && i != 6
    ensures SectionAt(i - 2) == SectionAt(i - 1)
  {
  }

  /** Reading on from the first line of the body to line `i`. */
  lemma {:induction false} ReadUpTo(lines: seq<string>, spec: ServerSpec, i: nat)
    requires |lines| == 13 && i <= 10 && forall j | 1 <= j <= 10 :: ReadsAs(ReadLine(lines[j]), spec, j - 1)
    ensures ReadLines(lines[1..], Reading("", map[]))
         == ReadLines(lines[i + 1..], Reading(if i == 0 then "" else SectionAt(i - 1), Found(spec, i)))
  {
    hide ReadLine, ReadLines, SectionAt, Key, Setting;
    if i == 0 {
    } else {
      ReadUpTo(lines, spec, i - 1);
      assert ReadsAs(ReadLine(lines[i]), spec, i - 1);
      var section := if i == 1 then "" else SectionAt(i - 2);
      ReadStep(lines, i, Reading(section, Found(spec, i - 1)));
      if Sets(i - 1) { FoundKeys(spec, i - 1, i - 1); }
      if i != 1 && i != 6 { SameSection(i); }
    }
  }

  lemma ReadNoLines(r: Reading)
    ensures ReadLines([], r) == r
  {
  }

  /** The last two lines, the end marker and an empty one, change nothing. */
  lemma ReadTheEnd(lines: seq<string>, r: Reading)
    requires |lines| == 13 && ReadLine(lines[11]) == ReadLine(lines[12]) == Nothing
    ensures ReadLines(lines[11..], r) == r
  {
    hide ReadLine, ReadLines;
    ReadStep(lines, 11, r);
    ReadStep(lines, 12, r);
    assert lines[13..] == [];
    ReadNoLines(r);
  }

  lemma SkipComment(lines: seq<string>, r: Reading)
    requires lines != [] && ReadLine(lines[0]) == Nothing
    ensures ReadLines(lines, r) == ReadLines(lines[1..], r)
  {
    hide ReadLine;
  }

  lemma BlockLinesRead(spec: ServerSpec)
    requires OneLiners(spec)
    ensures var lines := BlockLines(spec);
      && |lines| == 13 && ReadLine(lines[0]) == ReadLine(lines[11]) == ReadLine(lines[12]) == Nothing
      && forall j | 1 <= j <= 10 :: ReadsAs(ReadLine(lines[j]), spec, j - 1)
  {
    hide BodyLines, ReadLine, OneLine, OneLiners, ReadsAs, Lines;
    MarkersAreComments();
    ReadBodyLine(spec, 0);
    var lines := BlockLines(spec);
    forall j | 1 <= j <= 10 ensures ReadsAs(ReadLine(lines[j]), spec, j - 1) {
      ReadBodyLine(spec, j - 1);
    }
  }

  lemma CleanBlockReads(spec: ServerSpec)
    requires OneLiners(spec)
    ensures Settings(BuildCodexManagedBlock(spec)) == Some(Found(spec, 10))
  {
    hide BlockLines, ReadLine, Lines, OneLiners, ReadLines, ReadsAs, Found, SectionAt, BuildCodexManagedBlock;
    LinesOfBlock(spec);
    BlockLinesRead(spec);
    var lines := BlockLines(spec);
    SkipComment(lines, Reading("", map[]));
    ReadUpTo(lines, spec, 10);
    ReadTheEnd(lines, Reading(SectionAt(9), Found(spec, 10)));
  }

  lemma {:induction false} LinesOfOneLine(lines: seq<string>, i: nat, line: string)
    requires i < |lines| && line in Lines(lines[i])
    ensures line in Lines(JoinLines(lines))
  {
    hide Lines;
    if |lines| > 1 {
      LinesConcat(lines[0], JoinLines(lines[1..]));
      if i > 0 { LinesOfOneLine(lines[1..], i - 1, line); }
    }
  }

  ghost predicate Torn(text: string) {
    exists line :: line in Lines(text) && ReadLine(line).Malformed?
  }

  lemma TornValue(spec: ServerSpec) returns (i: nat)
    requires !OneLiners(spec)
    ensures Sets(i) && i != 3 && '\n' in ValueOf(spec, i)
  {
    i := if '\n' in spec.command then 1 else if '\n' in spec.arg then 2 else if '\n' in spec.host then 6
      else if '\n' in spec.port then 7 else if '\n' in spec.dbPath then 8 else 9;
  }

  /** Some line of the body is torn if some value has a line break. */
  lemma SomeTorn(spec: ServerSpec) returns (i: nat)
    requires !OneLiners(spec)
    ensures i < |BodyLines(spec)| && Torn(BodyLines(spec)[i])
  {
    hide BodyLines, ReadLine, Lines, BareKey, Written, Key, OneLiners, ValueOf;
    i := TornValue(spec);
    BodyLine(spec, i);
    KeysAreBare(i);
    TornLine(Key(i), ValueOf(spec, i), i == 2);
  }

  lemma TornBlockIsUnread(spec: ServerSpec)
    requires !OneLiners(spec)
    ensures Settings(BuildCodexManagedBlock(spec)) == None
  {
    hide BodyLines, ReadLine, Lines, JoinLines, OneLiners, ReadLines;
    var i := SomeTorn(spec);
    var line :| line in Lines(BodyLines(spec)[i]) && ReadLine(line).Malformed?;
    LinesOfOneLine(BlockLines(spec), i + 1, line);
    MalformedSpoils(Lines(BuildCodexManagedBlock(spec)), Reading("", map[]), line);
  }

  /**
   * A block that was written reads as what was to be written: every value under its own key in its own
   * section, and the server enabled.  That is so exactly if no value has a line break; otherwise the block
   * cannot be read.
   */
  lemma BlockReads(spec: ServerSpec)
    ensures Settings(BuildCodexManagedBlock(spec)) == if OneLiners(spec) then Some(Found(spec, 10)) else None
  {
    hide BuildCodexManagedBlock, OneLiners, Settings, Found;
    if OneLiners(spec) {
      CleanBlockReads(spec);
    } else {
      TornBlockIsUnread(spec);
    }
  }

  lemma FoundStep(spec: ServerSpec, i: nat)
    ensures Found(spec, i + 1)
      == if Sets(i) then Found(spec, i)[(SectionAt(i), Key(i)) := Setting(spec, i)] else Found(spec, i)
  {
    hide SectionAt, Key, Setting;
  }

  lemma FoundNothing(spec: ServerSpec)
    ensures Found(spec, 0) == map[]
  {
  }

  lemma TenLines(spec: ServerSpec)
    ensures Found(spec, 10) == map[
      ("mcp_servers.harness", "command") := Text(spec.command),
      ("mcp_servers.harness", "args") := Texts([spec.arg]),
      ("mcp_servers.harness", "enabled") := Flag(true),
      ("mcp_servers.harness.env", "HARNESS_MEM_HOST") := Text(spec.host),
      ("mcp_servers.harness.env", "HARNESS_MEM_PORT") := Text(spec.port),
      ("mcp_servers.harness.env", "HARNESS_MEM_DB_PATH") := Text(spec.dbPath),
      ("mcp_servers.harness.env", "NODE_PATH") := Text(spec.nodePath)
    ]
  {
    hide Found;
    FoundNothing(spec);
    FoundStep(spec, 0);
    FoundStep(spec, 1);
    FoundStep(spec, 2);
    FoundStep(spec, 3);
    FoundStep(spec, 4);
    FoundStep(spec, 5);
    FoundStep(spec, 6);
    FoundStep(spec, 7);
    FoundStep(spec, 8);
    FoundStep(spec, 9);
  }

  /** What is found under the keys of the file's managed section after a write. */
  lemma WriteThenRead(content: string, spec: ServerSpec)
    requires Put(content, spec).Some? && MarkerFree(spec) && OneLiners(spec)
    requires var b, e := BEGIN_CODEX_MCP, END_CODEX_MCP;
      WellFormed(content, b, e) || (!Includes(content, b) && !Includes(content, e))
    ensures var put := Put(content, spec).value;
      && WellFormed(put, BEGIN_CODEX_MCP, END_CODEX_MCP)
      && var found := Settings(Managed(put, BEGIN_CODEX_MCP, END_CODEX_MCP));
      && found.Some?
      && found.value == map[
        ("mcp_servers.harness", "command") := Text(spec.command),
        ("mcp_servers.harness", "args") := Texts([spec.arg]),
        ("mcp_servers.harness", "enabled") := Flag(true),
        ("mcp_servers.harness.env", "HARNESS_MEM_HOST") := Text(spec.host),
        ("mcp_servers.harness.env", "HARNESS_MEM_PORT") := Text(spec.port),
        ("mcp_servers.harness.env", "HARNESS_MEM_DB_PATH") := Text(spec.dbPath),
        ("mcp_servers.harness.env", "NODE_PATH") := Text(spec.nodePath)
      ]
  {
    hide WellFormed, Includes, MarkerFree, OneLiners, Put, Managed, Settings, BuildCodexManagedBlock;
    PutGetExactly(content, spec);
    BlockReads(spec);
    TenLines(spec);
  }
}
