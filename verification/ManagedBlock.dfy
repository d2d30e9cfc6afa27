/** The managed section of a configuration file: `scripts/lib/mcp-config.js`. */
module ManagedBlock {
  import opened JsText

  const BEGIN_CODEX_MCP := "# >>> harness-mem codex mcp"
  const END_CODEX_MCP := "# <<< harness-mem codex mcp"
  const HARNESS_SECTION := "[mcp_servers.harness]"

  datatype ServerSpec = ServerSpec(command: string, arg: string, host: string, port: string, dbPath: string, nodePath: string)

  /** Every backslash doubled, then every quote preceded by a backslash. */
  function EscapeTomlString(value: string): string {
    if value == "" then ""
    else (if value[0] == '\\' || value[0] == '"' then ['\\', value[0]] else [value[0]]) + EscapeTomlString(value[1..])
  }

  function Entry(key: string, value: string, close: string): string {
    key + "\"" + EscapeTomlString(value) + "\"" + close
  }

  function BodyLines(spec: ServerSpec): seq<string> {
    [
      HARNESS_SECTION,
      Entry("command = ", spec.command, ""),
      Entry("args = [", spec.arg, "]"),
      "enabled = true",
      "",
      "[mcp_servers.harness.env]",
      Entry("HARNESS_MEM_HOST = ", spec.host, ""),
      Entry("HARNESS_MEM_PORT = ", spec.port, ""),
      Entry("HARNESS_MEM_DB_PATH = ", spec.dbPath, ""),
      Entry("NODE_PATH = ", spec.nodePath, "")
    ]
  }

  function BuildCodexManagedBlock(spec: ServerSpec): string {
    JoinLines([BEGIN_CODEX_MCP] + BodyLines(spec) + [END_CODEX_MCP, ""])
  }

  function IndexFrom(s: string, m: string, i: nat): (r: int)
    requires i <= |s|
    requires forall j | 0 <= j < i :: !OccursAt(s, m, j)
    ensures r == -1 <==> !Includes(s, m)
    ensures r != -1 ==> OccursAt(s, m, r) && forall j | 0 <= j < r :: !OccursAt(s, m, j)
    decreases |s| - i
  {
    if OccursAt(s, m, i) then i else if i == |s| then -1 else IndexFrom(s, m, i + 1)
  }

  /** `indexOf`. */
  function IndexOf(s: string, m: string): (r: int)
    ensures r == -1 <==> !Includes(s, m)
    ensures r != -1 ==> OccursAt(s, m, r) && forall j | 0 <= j < r :: !OccursAt(s, m, j)
  {
    IndexFrom(s, m, 0)
  }

  predicate WellFormed(content: string, beginMarker: string, endMarker: string) {
    var start, end := IndexOf(content, beginMarker), IndexOf(content, endMarker);
    start != -1 && end != -1 && end >= start
  }

  /** What follows the end marker and the line break after it. */
  function Tail(content: string, endMarker: string): string
    requires Includes(content, endMarker)
  {
    var afterEnd := IndexOf(content, endMarker) + |endMarker|;
    if afterEnd < |content| && content[afterEnd] == '\n' then content[afterEnd + 1..] else content[afterEnd..]
  }

  function UpsertManagedBlock(content: string, beginMarker: string, endMarker: string, block: string): Option<string> {
    if WellFormed(content, beginMarker, endMarker) then
      var head := TrimEnd(content[..IndexOf(content, beginMarker)]);
      Some(TrimEnd(head + "\n\n" + block + StripLeading(Tail(content, endMarker), '\n')) + "\n")
    else if Includes(content, HARNESS_SECTION) then None
    else if TrimEnd(content) == "" then Some(block)
    else Some(TrimEnd(content) + "\n\n" + block)
  }

  /** What `writeCodexConfig` makes of a file: `None` leaves it alone. */
  function Put(content: string, spec: ServerSpec): Option<string> {
    UpsertManagedBlock(content, BEGIN_CODEX_MCP, END_CODEX_MCP, BuildCodexManagedBlock(spec))
  }

  // ---------- Occurrences of a marker ----------

  lemma OccurrenceChar(s: string, m: string, i: int, k: nat)
    requires OccursAt(s, m, i) && k < |m|
    ensures s[i + k] == m[k]
  {
    assert s[i..i + |m|][k] == s[i + k];
  }

  /** A marker that lacks a character cannot straddle it. */
  lemma NoStraddle(x: string, c: char, y: string, m: string, j: int)
    requires c !in m && m != ""
    ensures OccursAt(x + [c] + y, m, j) <==> OccursAt(x, m, j) || OccursAt(y, m, j - |x| - 1)
  {
    var s := x + [c] + y;
    if OccursAt(s, m, j) {
      if j <= |x| < j + |m| {
        OccurrenceChar(s, m, j, |x| - j);
      } else if j + |m| <= |x| {
        assert s[j..j + |m|] == x[j..j + |m|];
      } else {
        assert s[j..j + |m|] == y[j - |x| - 1..j - |x| - 1 + |m|];
      }
    }
    if OccursAt(x, m, j) { assert s[j..j + |m|] == x[j..j + |m|]; }
    if OccursAt(y, m, j - |x| - 1) { assert s[j..j + |m|] == y[j - |x| - 1..j - |x| - 1 + |m|]; }
  }

  lemma IncludesAround(x: string, c: char, y: string, m: string)
    requires c !in m && m != ""
    ensures Includes(x + [c] + y, m) <==> Includes(x, m) || Includes(y, m)
  {
    var s := x + [c] + y;
    if i :| 0 <= i <= |s| && OccursAt(s, m, i) { NoStraddle(x, c, y, m, i); }
    if i :| 0 <= i <= |x| && OccursAt(x, m, i) { NoStraddle(x, c, y, m, i); }
    if i :| 0 <= i <= |y| && OccursAt(y, m, i) { NoStraddle(x, c, y, m, i + |x| + 1); }
  }

  /** The first occurrence behind marker-free text and a line break. */
  lemma IndexAfterBreak(x: string, y: string, m: string)
    requires '\n' !in m && m != "" && !Includes(x, m) && Includes(y, m)
    ensures IndexOf(x + "\n" + y, m) == |x| + 1 + IndexOf(y, m)
  {
    var s, k := x + "\n" + y, IndexOf(y, m);
    forall j | 0 <= j < |x| + 1 + k ensures !OccursAt(s, m, j) {
      NoStraddle(x, '\n', y, m, j);
    }
    NoStraddle(x, '\n', y, m, |x| + 1 + k);
  }

  /** The first occurrence before a line break. */
  lemma IndexBeforeBreak(x: string, y: string, m: string)
    requires '\n' !in m && m != "" && Includes(x, m)
    ensures IndexOf(x + "\n" + y, m) == IndexOf(x, m)
  {
    var s, k := x + "\n" + y, IndexOf(x, m);
    forall j | 0 <= j < k ensures !OccursAt(s, m, j) {
      NoStraddle(x, '\n', y, m, j);
    }
    NoStraddle(x, '\n', y, m, k);
  }

  lemma LacksFirst(s: string, m: string)
    requires m != "" && m[0] !in s
    ensures !Includes(s, m)
  {
    if i :| 0 <= i <= |s| && OccursAt(s, m, i) {
      OccurrenceChar(s, m, i, 0);
    }
  }

  // ---------- The block ----------

  lemma DifferentChar(s: string, m: string, k: nat)
    requires |s| == |m| && k < |m| && s[k] != m[k]
    ensures !Includes(s, m)
  {
    if i :| 0 <= i <= |s| && OccursAt(s, m, i) {
      OccurrenceChar(s, m, i, k);
    }
  }

  lemma {:induction false} EscapedPrefix(v: string, m: string)
    requires '\\' !in m && '"' !in m && m <= EscapeTomlString(v)
    ensures m <= v
  {
    if m == "" {
    } else {
      var e := EscapeTomlString(v);
      assert m[0] == e[0] && e == [v[0]] + EscapeTomlString(v[1..]);
      assert m[1..] <= EscapeTomlString(v[1..]);
      EscapedPrefix(v[1..], m[1..]);
    }
  }

  lemma {:induction false} PrefixEscaped(v: string, m: string)
    requires '\\' !in m && '"' !in m && m <= v
    ensures m <= EscapeTomlString(v)
  {
    if m == "" {
    } else {
      assert m[0] == v[0] && m[1..] <= v[1..];
      PrefixEscaped(v[1..], m[1..]);
      assert m == [v[0]] + m[1..];
    }
  }

  lemma OccursLater(w: string, rest: string, m: string, i: int)
    requires |w| <= i
    ensures OccursAt(w + rest, m, i) <==> OccursAt(rest, m, i - |w|)
  {
    if i + |m| <= |w + rest| {
      assert (w + rest)[i..i + |m|] == rest[i - |w|..i - |w| + |m|];
    }
  }

  lemma IncludesLater(w: string, rest: string, m: string)
    requires Includes(rest, m)
    ensures Includes(w + rest, m)
  {
    var i :| 0 <= i <= |rest| && OccursAt(rest, m, i);
    OccursLater(w, rest, m, |w| + i);
  }

  /** Escaping neither creates nor destroys a marker. */
  lemma {:induction false} EscapedIncludes(v: string, m: string)
    requires '\\' !in m && '"' !in m && m != ""
    ensures Includes(EscapeTomlString(v), m) <==> Includes(v, m)
  {
    var e := EscapeTomlString(v);
    if v == "" {
    } else {
      var rest := EscapeTomlString(v[1..]);
      var w := e[..|e| - |rest|];
      assert e == w + rest && v == [v[0]] + v[1..];
      EscapedIncludes(v[1..], m);
      if i :| 0 <= i <= |e| && OccursAt(e, m, i) {
        if i == 0 {
          EscapedPrefix(v, m);
          assert OccursAt(v, m, 0);
        } else {
          OccurrenceChar(e, m, i, 0);
          assert i >= |w|;
          OccursLater(w, rest, m, i);
          IncludesLater([v[0]], v[1..], m);
        }
      }
      if i :| 0 <= i <= |v| && OccursAt(v, m, i) {
        if i == 0 {
          PrefixEscaped(v, m);
          assert OccursAt(e, m, 0);
        } else {
          OccursLater([v[0]], v[1..], m, i);
          IncludesLater(w, rest, m);
        }
      }
    }
  }

  /** A marker is one line and does not end in white space. */
  ghost predicate Solid(m: string) {
    m != "" && '\n' !in m && !IsSpace(m[|m| - 1])
  }

  /** What the proofs need of a pair of markers; the two of this file satisfy it. */
  ghost predicate GoodMarkers(beginMarker: string, endMarker: string) {
    Solid(beginMarker) && Solid(endMarker) && !Includes(beginMarker, endMarker)
  }

  lemma BeginMarker()
    ensures Solid(BEGIN_CODEX_MCP)
  {
    assert forall i | 0 <= i < |BEGIN_CODEX_MCP| :: BEGIN_CODEX_MCP[i] != '\n';
  }

  lemma EndMarker()
    ensures Solid(END_CODEX_MCP) && END_CODEX_MCP[0] == '#' && '"' !in END_CODEX_MCP && '\\' !in END_CODEX_MCP
  {
    assert forall i | 0 <= i < |END_CODEX_MCP| :: END_CODEX_MCP[i] !in {'\n', '"', '\\'};
  }

  lemma CodexMarkersAreGood()
    ensures GoodMarkers(BEGIN_CODEX_MCP, END_CODEX_MCP)
  {
    BeginMarker();
    EndMarker();
    hide Solid;
    DifferentChar(BEGIN_CODEX_MCP, END_CODEX_MCP, 2);
  }

  /** None of the values written into the block contains the end marker. */
  ghost predicate MarkerFree(spec: ServerSpec) {
    forall v | v in {spec.command, spec.arg, spec.host, spec.port, spec.dbPath, spec.nodePath} ::
      !Includes(v, END_CODEX_MCP)
  }

  lemma EntryHasMarker(key: string, value: string, close: string, m: string)
    requires m != "" && m[0] == '#' && '"' !in m && '\\' !in m && '#' !in key && '#' !in close
    ensures Includes(Entry(key, value, close), m) <==> Includes(value, m)
  {
    hide EscapeTomlString, Includes;
    var e := EscapeTomlString(value);
    EscapedIncludes(value, m);
    LacksFirst(key, m);
    LacksFirst(close, m);
    IncludesAround(key, '"', e + "\"" + close, m);
    IncludesAround(e, '"', close, m);
    assert Entry(key, value, close) == key + "\"" + (e + "\"" + close);
  }

  lemma {:induction false} JoinedIncludes(lines: seq<string>, m: string)
    requires '\n' !in m && m != "" && lines != []
    ensures Includes(JoinLines(lines), m) <==> exists i | 0 <= i < |lines| :: Includes(lines[i], m)
  {
    if |lines| > 1 {
      JoinedIncludes(lines[1..], m);
      IncludesAround(lines[0], '\n', JoinLines(lines[1..]), m);
    }
  }

  lemma {:induction false} JoinConcat(a: seq<string>, b: seq<string>)
    requires a != [] && b != []
    ensures JoinLines(a + b) == JoinLines(a) + "\n" + JoinLines(b)
  {
    assert (a + b)[1..] == a[1..] + b;
    if |a| > 1 {
      JoinConcat(a[1..], b);
    } else {
      assert a[1..] + b == b;
    }
  }

  /** One marked section that contains its header. */
  ghost predicate IsBlock(block: string, beginMarker: string, endMarker: string, body: string) {
    block == beginMarker + "\n" + body + "\n" + endMarker + "\n" && Includes(body, HARNESS_SECTION)
  }

  /** The value that line `i` of the body holds, or no text. */
  function ValueOf(spec: ServerSpec, i: nat): string {
    match i
    case 1 => spec.command
    case 2 => spec.arg
    case 6 => spec.host
    case 7 => spec.port
    case 8 => spec.dbPath
    case 9 => spec.nodePath
    case _ => ""
  }

  lemma ConfigLineHasMarker(spec: ServerSpec, i: nat)
    requires i < 6
    ensures Includes(BodyLines(spec)[i], END_CODEX_MCP) <==> Includes(ValueOf(spec, i), END_CODEX_MCP)
  {
    hide Includes, Entry, Solid;
    EndMarker();
    LacksFirst("", END_CODEX_MCP);
    match i
    case 1 => EntryHasMarker("command = ", spec.command, "", END_CODEX_MCP);
    case 2 => EntryHasMarker("args = [", spec.arg, "]", END_CODEX_MCP);
    case _ => LacksFirst(BodyLines(spec)[i], END_CODEX_MCP);
  }

  lemma EnvLineHasMarker(spec: ServerSpec, i: nat)
    requires 6 <= i < 10
    ensures Includes(BodyLines(spec)[i], END_CODEX_MCP) <==> Includes(ValueOf(spec, i), END_CODEX_MCP)
  {
    hide Includes, Entry, Solid;
    EndMarker();
    match i
    case 6 => EntryHasMarker("HARNESS_MEM_HOST = ", spec.host, "", END_CODEX_MCP);
    case 7 => EntryHasMarker("HARNESS_MEM_PORT = ", spec.port, "", END_CODEX_MCP);
    case 8 => EntryHasMarker("HARNESS_MEM_DB_PATH = ", spec.dbPath, "", END_CODEX_MCP);
    case 9 => EntryHasMarker("NODE_PATH = ", spec.nodePath, "", END_CODEX_MCP);
  }

  lemma MarkerFreeByLine(spec: ServerSpec)
    ensures MarkerFree(spec) <==> forall i | 0 <= i < 10 :: !Includes(ValueOf(spec, i), END_CODEX_MCP)
  {
    hide Includes, Solid;
    EndMarker();
    LacksFirst("", END_CODEX_MCP);
    assert ValueOf(spec, 1) == spec.command && ValueOf(spec, 2) == spec.arg && ValueOf(spec, 6) == spec.host;
    assert ValueOf(spec, 7) == spec.port && ValueOf(spec, 8) == spec.dbPath && ValueOf(spec, 9) == spec.nodePath;
  }

  /** The end marker gets into the body through a value, and only so. */
  lemma BodyHasMarker(spec: ServerSpec)
    ensures Includes(JoinLines(BodyLines(spec)), END_CODEX_MCP) <==> !MarkerFree(spec)
  {
    var lines := BodyLines(spec);
    assert |lines| == 10;
    hide BodyLines, JoinLines, Includes, ValueOf, MarkerFree;
    forall i | 0 <= i < 10
      ensures Includes(lines[i], END_CODEX_MCP) <==> Includes(ValueOf(spec, i), END_CODEX_MCP)
    {
      if i < 6 { ConfigLineHasMarker(spec, i); } else { EnvLineHasMarker(spec, i); }
    }
    EndMarker();
    JoinedIncludes(lines, END_CODEX_MCP);
    MarkerFreeByLine(spec);
  }

  lemma SectionIsALine(spec: ServerSpec)
    ensures Includes(JoinLines(BodyLines(spec)), HARNESS_SECTION)
  {
    var lines := BodyLines(spec);
    hide JoinLines, Entry;
    assert '\n' !in HARNESS_SECTION;
    assert HARNESS_SECTION[0..|HARNESS_SECTION|] == HARNESS_SECTION;
    assert OccursAt(lines[0], HARNESS_SECTION, 0);
    JoinedIncludes(lines, HARNESS_SECTION);
  }

  lemma BodyIsThere(spec: ServerSpec)
    ensures BodyLines(spec) != []
  {
  }

  lemma JoinedParts(b: string, text: string, e: string)
    ensures b + "\n" + text + "\n" + (e + "\n") == b + "\n" + text + "\n" + e + "\n"
  {
  }

  /** The block that is built is one marked section; only a value can put an end marker inside it. */
  lemma BuiltBlock(spec: ServerSpec)
    ensures IsBlock(BuildCodexManagedBlock(spec), BEGIN_CODEX_MCP, END_CODEX_MCP, JoinLines(BodyLines(spec)))
    ensures Includes(JoinLines(BodyLines(spec)), END_CODEX_MCP) <==> !MarkerFree(spec)
  {
    hide BodyLines, MarkerFree, Includes;
    var body := BodyLines(spec);
    BodyHasMarker(spec);
    SectionIsALine(spec);
    BodyIsThere(spec);
    JoinConcat([BEGIN_CODEX_MCP], body);
    JoinConcat([BEGIN_CODEX_MCP] + body, [END_CODEX_MCP, ""]);
    assert JoinLines([END_CODEX_MCP, ""]) == END_CODEX_MCP + "\n";
    hide JoinLines;
    JoinedParts(BEGIN_CODEX_MCP, JoinLines(body), END_CODEX_MCP);
  }

  // ---------- White space at the seams ----------

  lemma {:induction false} TrimEndAppend(x: string, y: string)
    ensures TrimEnd(x + y) == if Blank(y) then TrimEnd(x) else x + TrimEnd(y)
  {
    if y == "" {
      assert x + y == x;
    } else {
      assert (x + y)[..|x + y| - 1] == x + y[..|y| - 1];
      assert y == y[..|y| - 1] + [y[|y| - 1]];
      if IsSpace(y[|y| - 1]) {
        TrimEndAppend(x, y[..|y| - 1]);
        assert Blank(y) <==> Blank(y[..|y| - 1]);
      }
    }
  }

  /** Text without trailing white space, ended by one line break; nothing at all if there is no text. */
  function Settled(t: string): string {
    if TrimEnd(t) == "" then "" else TrimEnd(t) + "\n"
  }

  /** The text in front of the block. */
  function Before(content: string, beginMarker: string): string
    requires Includes(content, beginMarker)
  {
    TrimEnd(content[..IndexOf(content, beginMarker)])
  }

  /** The text behind the block. */
  function After(content: string, endMarker: string): string
    requires Includes(content, endMarker)
  {
    Settled(StripLeading(Tail(content, endMarker), '\n'))
  }

  lemma BlankIffTrimsAway(t: string)
    ensures Blank(t) <==> TrimEnd(t) == ""
  {
    TrimEndAppend("", t);
    assert "" + t == t;
    assert t[0..] == t;
  }

  lemma TrimTwice(s: string)
    ensures TrimEnd(TrimEnd(s)) == TrimEnd(s)
  {
  }

  lemma SettledForm(t: string)
    ensures var s := Settled(t); s == "" || (TrimEnd(s) != "" && TrimEnd(s) + "\n" == s)
  {
    TrimTwice(t);
    TrimEndAppend(TrimEnd(t), "\n");
  }

  lemma SettledStarts(t: string)
    ensures Settled(t) != "" ==> t != "" && Settled(t)[0] == t[0]
  {
    hide Blank;
    var r := TrimEnd(t);
    if r != "" {
      assert r <= t && r[0] == t[0];
    }
  }

  lemma StripsNothing(s: string)
    requires s == "" || s[0] != '\n'
    ensures StripLeading(s, '\n') == s
  {
  }

  lemma TrimNothing()
    ensures TrimEnd("") == ""
  {
  }

  lemma SettledTwice(t: string)
    ensures Settled(Settled(t)) == Settled(t)
  {
    hide TrimEnd;
    SettledForm(t);
    TrimNothing();
  }

  lemma SettledIsStable(t: string)
    requires t == "" || t[0] != '\n'
    ensures Settled(StripLeading(Settled(t), '\n')) == Settled(t)
  {
    hide Settled, StripLeading, TrimEnd;
    SettledStarts(t);
    StripsNothing(Settled(t));
    SettledTwice(t);
  }

  // ---------- Where a written block is found again ----------

  lemma Lengthens(s: string, t: string, m: string, i: int)
    requires t <= s && OccursAt(t, m, i)
    ensures OccursAt(s, m, i)
  {
    assert s[i..i + |m|] == t[i..i + |m|];
  }

  lemma PrefixLacks(s: string, t: string, m: string)
    requires t <= s && (!Includes(s, m) || |t| <= IndexOf(s, m)) && m != ""
    ensures !Includes(t, m)
  {
    if i :| 0 <= i <= |t| && OccursAt(t, m, i) {
      Lengthens(s, t, m, i);
    }
  }

  lemma SpaceInTail(s: string, k: int)
    requires |TrimEnd(s)| <= k < |s|
    ensures IsSpace(s[k])
  {
    var t := TrimEnd(s);
    assert s[|t|..][k - |t|] == s[k];
  }

  /** Cutting trailing white space loses no marker. */
  lemma TrimKeepsIndex(s: string, m: string)
    requires Solid(m)
    ensures IndexOf(TrimEnd(s), m) == IndexOf(s, m)
  {
    var t := TrimEnd(s);
    forall i ensures OccursAt(t, m, i) <==> OccursAt(s, m, i) {
      if OccursAt(t, m, i) { Lengthens(s, t, m, i); }
      if OccursAt(s, m, i) {
        OccurrenceChar(s, m, i, |m| - 1);
        if i + |m| > |t| { SpaceInTail(s, i + |m| - 1); }
        assert t[i..i + |m|] == s[i..i + |m|];
      }
    }
  }

  lemma AtStart(s: string, m: string)
    requires OccursAt(s, m, 0)
    ensures Includes(s, m) && IndexOf(s, m) == 0
  {
  }

  /** Where the first end marker of a block is. */
  ghost function EndOf(b: string, e: string, body: string): int {
    if Includes(body, e) then IndexOf(b + "\n" + body, e) else |b| + |body| + 2
  }

  /** Where the markers of a block are, whatever follows it: its own end comes first unless its body has one. */
  lemma BlockStartsAndEnds(block: string, b: string, e: string, body: string, rest: string)
    requires GoodMarkers(b, e) && IsBlock(block, b, e, body)
    ensures IndexOf(block + rest, b) == 0
    ensures IndexOf(block + rest, e) == EndOf(b, e, body)
  {
    hide Includes, IndexOf;
    var s := block + rest;
    assert s[0..|b|] == b && OccursAt(s, b, 0);
    AtStart(s, b);
    var x, y := b + "\n" + body, e + "\n" + rest;
    assert s == x + "\n" + y;
    assert y[0..|e|] == e && OccursAt(y, e, 0);
    AtStart(y, e);
    IncludesAround(b, '\n', body, e);
    if Includes(body, e) { IndexBeforeBreak(x, y, e); } else { IndexAfterBreak(x, y, e); }
  }

  /** Inside the body, or at the very end of the block. */
  lemma EndOfBlock(block: string, b: string, e: string, body: string)
    requires GoodMarkers(b, e) && IsBlock(block, b, e, body)
    ensures |e| < |block| && block[|block| - 1] == '\n' && |block| == |b| + |body| + |e| + 3
    ensures 0 <= EndOf(b, e, body)
    ensures Includes(body, e) ==> EndOf(b, e, body) + |e| <= |b| + 1 + |body|
    ensures !Includes(body, e) ==> EndOf(b, e, body) + |e| + 1 == |block|
  {
    hide Includes;
    IncludesAround(b, '\n', body, e);
  }

  /** A block two line breaks behind marker-free text is the first block of the whole. */
  lemma PlacedBlock(head: string, block: string, b: string, e: string, body: string, rest: string)
    requires GoodMarkers(b, e) && IsBlock(block, b, e, body)
    requires !Includes(head, e)
    ensures var s := head + "\n\n" + block + rest;
      && (!Includes(head, b) ==> IndexOf(s, b) == |head| + 2)
      && (Includes(head, b) ==> IndexOf(s, b) == IndexOf(head, b))
      && IndexOf(s, e) == |head| + 2 + EndOf(b, e, body)
  {
    hide IsBlock, IndexOf, Includes, OccursAt, EndOf;
    var y := block + rest;
    BlockStartsAndEnds(block, b, e, body, rest);
    EndOfBlock(block, b, e, body);
    LacksFirst("", b);
    LacksFirst("", e);
    IndexAfterBreak("", y, b);
    IndexAfterBreak("", y, e);
    var z := "" + "\n" + y;
    if Includes(head, b) { IndexBeforeBreak(head, z, b); } else { IndexAfterBreak(head, z, b); }
    IndexAfterBreak(head, z, e);
    assert head + "\n\n" + block + rest == head + "\n" + z;
  }

  lemma IndexMeansIncludes(s: string, m: string)
    ensures Includes(s, m) <==> IndexOf(s, m) >= 0
  {
  }

  lemma SliceAround(u: string, v: string, w: string, k: nat)
    requires |v| == k + 1
    ensures var s := u + v + w;
      && s[..|u|] == u && s[|u|..|u| + k] == v[..k]
      && s[|u| + k] == v[k] && s[|u| + k + 1..] == w
  {
  }

  /** The block itself, with the line break that ends it. */
  function Managed(content: string, beginMarker: string, endMarker: string): string
    requires WellFormed(content, beginMarker, endMarker)
  {
    content[IndexOf(content, beginMarker)..IndexOf(content, endMarker) + |endMarker|] + "\n"
  }

  lemma ReadParts(u: string, block: string, rest: string, b: string, e: string)
    requires var s := u + block + rest; Includes(s, b) && Includes(s, e)
    requires |e| < |block| && block[|block| - 1] == '\n'
    requires IndexOf(u + block + rest, b) == |u| && IndexOf(u + block + rest, e) == |u| + |block| - 1 - |e|
    ensures var s := u + block + rest;
      WellFormed(s, b, e) && Before(s, b) == TrimEnd(u) && Tail(s, e) == rest && Managed(s, b, e) == block
  {
    hide Includes, IndexOf, TrimEnd;
    var k := |block| - 1;
    SliceAround(u, block, rest, k);
    assert block == block[..k] + "\n";
  }

  /** What the file is after a write: text before, a blank line, the block, text after. */
  lemma ReadBack(head: string, block: string, b: string, e: string, body: string, rest: string)
    requires GoodMarkers(b, e) && IsBlock(block, b, e, body) && !Includes(body, e)
    requires !Includes(head, b) && !Includes(head, e) && TrimEnd(head) == head
    requires Settled(StripLeading(rest, '\n')) == rest
    ensures var s := head + "\n\n" + block + rest;
      WellFormed(s, b, e) && Before(s, b) == head && After(s, e) == rest && Managed(s, b, e) == block
  {
    hide Includes, OccursAt, Solid, IndexOf, TrimEnd, Settled, StripLeading, IsBlock, EndOf, WellFormed, Before, Tail, Managed;
    PlacedBlock(head, block, b, e, body, rest);
    EndOfBlock(block, b, e, body);
    TrimEndAppend(head, "\n\n");
    IndexMeansIncludes(head + "\n\n" + block + rest, b);
    IndexMeansIncludes(head + "\n\n" + block + rest, e);
    ReadParts(head + "\n\n", block, rest, b, e);
  }

  // ---------- What a write does ----------

  lemma TrimOne(s: string)
    requires |s| == 1 && !IsSpace(s[0])
    ensures TrimEnd(s) == s
  {
  }

  lemma BlockTrims(block: string, b: string, e: string, body: string)
    requires Solid(e) && IsBlock(block, b, e, body)
    ensures TrimEnd(block) != "" && TrimEnd(block) + "\n" == block
  {
    var x := b + "\n" + body + "\n" + e;
    hide TrimEnd;
    TrimEndAppend(x, "\n");
    TrimEndAppend(b + "\n" + body + "\n", e);
    TrimEndAppend(e[..|e| - 1], e[|e| - 1..]);
    assert e == e[..|e| - 1] + e[|e| - 1..] && e[|e| - 1] in e[|e| - 1..];
    TrimOne(e[|e| - 1..]);
  }

  /** Trimming the text that ends in a block and a remainder settles the remainder. */
  lemma TrimBehindBlock(u: string, block: string, t: string)
    requires TrimEnd(block) != "" && TrimEnd(block) + "\n" == block
    ensures TrimEnd(u + block + t) + "\n" == u + block + Settled(t)
  {
    TrimEndAppend(u + block, t);
    TrimEndAppend(u, block);
    BlankIffTrimsAway(t);
    BlankIffTrimsAway(block);
    hide TrimEnd;
    if TrimEnd(t) == "" {
      assert u + block + "" == u + block == u + (TrimEnd(block) + "\n") == u + TrimEnd(block) + "\n";
    } else {
      assert u + block + TrimEnd(t) + "\n" == u + block + (TrimEnd(t) + "\n");
    }
  }

  lemma MarkerIsText(m: string)
    requires Solid(m)
    ensures m != ""
  {
  }

  /** Over a well-formed block the text before it and the text behind it stay, up to white space at the seams. */
  lemma WriteOverBlock(content: string, block: string, b: string, e: string, body: string)
    requires GoodMarkers(b, e) && IsBlock(block, b, e, body) && WellFormed(content, b, e)
    ensures UpsertManagedBlock(content, b, e, block)
         == Some(Before(content, b) + "\n\n" + block + After(content, e))
    ensures var head := Before(content, b); TrimEnd(head) == head && !Includes(head, b) && !Includes(head, e)
    ensures var rest := After(content, e); Settled(StripLeading(rest, '\n')) == rest
  {
    var start := IndexOf(content, b);
    assert 0 <= start <= |content|;
    hide TrimEnd, Settled, Tail, Solid, IsBlock, Includes, OccursAt, IndexOf;
    var head := Before(content, b);
    BlockTrims(block, b, e, body);
    var t := StripLeading(Tail(content, e), '\n');
    TrimBehindBlock(head + "\n\n", block, t);
    TrimTwice(content[..start]);
    assert head <= content;
    assert b != "" && e != "" by { MarkerIsText(b); MarkerIsText(e); }
    PrefixLacks(content, head, b);
    PrefixLacks(content, head, e);
    SettledIsStable(t);
  }

  /** A first write: the whole text, trimmed, comes before the block. */
  lemma WriteBehindText(content: string, block: string, b: string, e: string, body: string)
    requires GoodMarkers(b, e) && IsBlock(block, b, e, body)
    requires TrimEnd(content) != "" && !WellFormed(content, b, e) && !Includes(content, HARNESS_SECTION)
    ensures UpsertManagedBlock(content, b, e, block) == Some(TrimEnd(content) + "\n\n" + block + "")
  {
    hide TrimEnd, Includes, IsBlock, WellFormed;
    var u := TrimEnd(content) + "\n\n" + block;
    assert u + "" == u;
  }

  /** Before a first write there is no marker, and nothing will be behind the block. */
  lemma UnmanagedText(content: string, b: string, e: string)
    requires GoodMarkers(b, e) && !Includes(content, b) && !Includes(content, e)
    ensures var head := TrimEnd(content); TrimEnd(head) == head && !Includes(head, b) && !Includes(head, e)
    ensures Settled(StripLeading("", '\n')) == ""
  {
    TrimTwice(content);
    PrefixLacks(content, TrimEnd(content), b);
    PrefixLacks(content, TrimEnd(content), e);
    assert TrimEnd("") == "";
  }

  /** Writing `block1` and then `block2` comes to the same as writing `block2`. */
  ghost predicate PutPut(content: string, b: string, e: string, block1: string, block2: string) {
    var once := UpsertManagedBlock(content, b, e, block1);
    (if once.None? then None else UpsertManagedBlock(once.value, b, e, block2)) == UpsertManagedBlock(content, b, e, block2)
  }

  /** Text that already has such a section, outside any block, is left alone. */
  predicate Refused(content: string, b: string, e: string) {
    !WellFormed(content, b, e) && Includes(content, HARNESS_SECTION)
  }

  /** Text that has no block yet: some words, and no marker. */
  predicate Unmanaged(content: string, b: string, e: string) {
    TrimEnd(content) != "" && !Includes(content, b) && !Includes(content, e)
  }

  lemma PutPutHolds(content: string, b: string, e: string, block1: string, body1: string, block2: string, body2: string)
    requires GoodMarkers(b, e) && IsBlock(block1, b, e, body1) && IsBlock(block2, b, e, body2) && !Includes(body1, e)
    requires WellFormed(content, b, e) || Unmanaged(content, b, e)
    requires !Refused(content, b, e)
    ensures PutPut(content, b, e, block1, block2)
  {
    hide TrimEnd, Settled, Tail, Solid, IsBlock, Includes, IndexOf, Before, After, Managed, UpsertManagedBlock, StripLeading;
    if WellFormed(content, b, e) {
      WriteOverBlock(content, block1, b, e, body1);
      WriteOverBlock(content, block2, b, e, body2);
      var head, rest := Before(content, b), After(content, e);
      ReadBack(head, block1, b, e, body1, rest);
      WriteOverBlock(head + "\n\n" + block1 + rest, block2, b, e, body2);
    } else {
      UnmanagedText(content, b, e);
      WriteBehindText(content, block1, b, e, body1);
      WriteBehindText(content, block2, b, e, body2);
      var head := TrimEnd(content);
      ReadBack(head, block1, b, e, body1, "");
      WriteOverBlock(head + "\n\n" + block1 + "", block2, b, e, body2);
    }
  }

  lemma RefusalIsFinal(content: string, b: string, e: string, block1: string, block2: string)
    requires Refused(content, b, e)
    ensures UpsertManagedBlock(content, b, e, block1) == None && PutPut(content, b, e, block1, block2)
  {
  }

  // ---------- Where a second write goes wrong ----------

  /** On blank text the first write omits the blank line that the second one puts in front of the block. */
  lemma BlankTextFails(content: string, b: string, e: string, block1: string, body1: string, block2: string, body2: string)
    requires GoodMarkers(b, e) && IsBlock(block1, b, e, body1) && IsBlock(block2, b, e, body2)
    requires !WellFormed(content, b, e) && !Refused(content, b, e) && TrimEnd(content) == ""
    ensures !PutPut(content, b, e, block1, block2)
  {
    hide TrimEnd, Solid, Includes, IndexOf, Tail, IsBlock, EndOf, Before, After;
    BlockStartsAndEnds(block1, b, e, body1, "");
    EndOfBlock(block1, b, e, body1);
    assert block1 + "" == block1;
    WriteOverBlock(block1, block2, b, e, body2);
    assert |UpsertManagedBlock(block1, b, e, block2).value| >= 2 + |block2|;
  }

  lemma IncludesWithin(x: string, y: string, z: string, m: string)
    requires Includes(y, m)
    ensures Includes(x + y + z, m)
  {
    var i := IndexOf(y, m);
    assert (x + y + z)[|x| + i..|x| + i + |m|] == y[i..i + |m|];
    assert OccursAt(x + y + z, m, |x| + i);
  }

  lemma BlockHasSection(block: string, b: string, e: string, body: string)
    requires IsBlock(block, b, e, body)
    ensures Includes(block, HARNESS_SECTION)
  {
    hide Includes;
    assert block == (b + "\n") + body + ("\n" + e + "\n");
    IncludesWithin(b + "\n", body, "\n" + e + "\n", HARNESS_SECTION);
  }

  lemma FoundInside(t: string, m: string)
    requires m != ""
    ensures Includes(t, m) ==> 0 <= IndexOf(t, m) < |t|
  {
  }

  lemma LoneBeginOnce(content: string, block: string, b: string, e: string, body: string)
    requires GoodMarkers(b, e) && IsBlock(block, b, e, body) && Includes(content, b) && !Includes(content, e)
    ensures var t := TrimEnd(content); var once := t + "\n\n" + block + "";
      && !Includes(t, e) && Includes(t, b) && IndexOf(once, b) == IndexOf(t, b)
      && IndexOf(once, e) == |t| + 2 + EndOf(b, e, body) && WellFormed(once, b, e)
  {
    hide TrimEnd, Includes, OccursAt, IndexOf, IsBlock, EndOf;
    var t := TrimEnd(content);
    TrimKeepsIndex(content, b);
    TrimKeepsIndex(content, e);
    FoundInside(t, b);
    PlacedBlock(t, block, b, e, body, "");
    EndOfBlock(block, b, e, body);
  }

  /** A lone begin marker becomes the start of the block: the second write drops all text behind it. */
  lemma LoneBeginFails(content: string, b: string, e: string, block1: string, body1: string, block2: string, body2: string)
    requires GoodMarkers(b, e) && IsBlock(block1, b, e, body1) && IsBlock(block2, b, e, body2)
    requires !WellFormed(content, b, e) && !Refused(content, b, e) && TrimEnd(content) != ""
    requires Includes(content, b) && !Includes(content, e)
    ensures !PutPut(content, b, e, block1, block2)
  {
    hide TrimEnd, Includes, OccursAt, IndexOf, IsBlock, Tail, StripLeading, Settled, EndOf, UpsertManagedBlock, After;
    var t := TrimEnd(content);
    var once := t + "\n\n" + block1 + "";
    WriteBehindText(content, block1, b, e, body1);
    WriteBehindText(content, block2, b, e, body2);
    LoneBeginOnce(content, block1, b, e, body1);
    WriteOverBlock(once, block2, b, e, body2);
    var head, rest := Before(once, b), After(once, e);
    FoundInside(t, b);
    assert |head| < |t|;
    PlacedBlock(head, block2, b, e, body2, rest);
    PlacedBlock(t, block2, b, e, body2, "");
  }

  lemma BlockBegins(block: string, b: string, e: string, body: string)
    requires GoodMarkers(b, e) && IsBlock(block, b, e, body)
    ensures IndexOf("\n" + block, b) == 1
  {
    hide Includes, OccursAt, IndexOf, EndOf;
    BlockStartsAndEnds(block, b, e, body, "");
    assert block + "" == block && "" + "\n" + block == "\n" + block;
    LacksFirst("", b);
    IndexAfterBreak("", block, b);
  }

  /** An end marker in front of the first begin marker hides the block that a write appends. */
  lemma EarlyEndOnce(content: string, block: string, b: string, e: string, body: string)
    requires GoodMarkers(b, e) && IsBlock(block, b, e, body)
    requires !WellFormed(content, b, e) && Includes(content, e)
    ensures var once := TrimEnd(content) + "\n\n" + block + "";
      !WellFormed(once, b, e) && Includes(once, HARNESS_SECTION)
  {
    hide TrimEnd, Includes, OccursAt, IndexOf, IsBlock, EndOf;
    var t := TrimEnd(content);
    var y := "\n" + block;
    var once := t + "\n" + y;
    assert t + "\n\n" + block + "" == once;
    TrimKeepsIndex(content, b);
    TrimKeepsIndex(content, e);
    BlockBegins(block, b, e, body);
    IndexBeforeBreak(t, y, e);
    FoundInside(t, e);
    if Includes(t, b) { IndexBeforeBreak(t, y, b); } else { IndexAfterBreak(t, y, b); }
    BlockHasSection(block, b, e, body);
    IncludesWithin(t + "\n\n", block, "", HARNESS_SECTION);
  }

  lemma EarlyEndFails(content: string, b: string, e: string, block1: string, body1: string, block2: string, body2: string)
    requires GoodMarkers(b, e) && IsBlock(block1, b, e, body1) && IsBlock(block2, b, e, body2)
    requires !WellFormed(content, b, e) && !Refused(content, b, e) && TrimEnd(content) != "" && Includes(content, e)
    ensures !PutPut(content, b, e, block1, block2)
  {
    hide TrimEnd, Includes, IsBlock, WellFormed, UpsertManagedBlock;
    WriteBehindText(content, block1, b, e, body1);
    WriteBehindText(content, block2, b, e, body2);
    EarlyEndOnce(content, block1, b, e, body1);
    RefusalIsFinal(TrimEnd(content) + "\n\n" + block1 + "", b, e, block2, block2);
  }

  // ---------- A block that holds an end marker of its own ----------

  /** Stripping leading line breaks from text that contains others stops there. */
  lemma {:induction false} StripStops(w: string, v: string)
    requires v != "" && v[0] != '\n'
    ensures StripLeading(w + v, '\n') == StripLeading(w, '\n') + v
  {
    if w == "" {
      assert w + v == v;
    } else if w[0] == '\n' {
      assert (w + v)[1..] == w[1..] + v;
      StripStops(w[1..], v);
    } else {
      assert (w + v)[0] == w[0];
    }
  }

  lemma SolidTrims(x: string, e: string)
    requires Solid(e)
    ensures TrimEnd(x + e) == x + e
  {
    assert (x + e)[|x + e| - 1] == e[|e| - 1];
  }

  lemma LeftoverLength(x: string, e: string, rest: string)
    requires Solid(e) && (rest == "" || (TrimEnd(rest) != "" && TrimEnd(rest) + "\n" == rest))
    ensures |Settled(x + (e + "\n" + rest))| > |rest|
  {
    hide TrimEnd;
    var front := x + e + "\n";
    assert x + (e + "\n" + rest) == front + rest;
    TrimEndAppend(front, rest);
    BlankIffTrimsAway(rest);
    if rest == "" {
      assert front == (x + e) + "\n";
      TrimEndAppend(x + e, "\n");
      SolidTrims(x, e);
      TrimNothing();
    }
  }

  /** What is left of such a block comes in front of the old remainder. */
  lemma LeftoverIsLonger(w: string, e: string, rest: string)
    requires Solid(e) && Settled(StripLeading(rest, '\n')) == rest
    ensures |Settled(StripLeading(w + (e + "\n" + rest), '\n'))| > |rest|
  {
    hide StripLeading, TrimEnd, Settled;
    var v := e + "\n" + rest;
    StripStops(w, v);
    SettledForm(StripLeading(rest, '\n'));
    LeftoverLength(StripLeading(w, '\n'), e, rest);
  }

  lemma SliceBehind(x: string, v: string, from: nat)
    requires from <= |x|
    ensures (x + v)[from..] == x[from..] + v
  {
  }

  lemma DirtyTail(u: string, block: string, b: string, e: string, body: string, rest: string)
    requires GoodMarkers(b, e) && IsBlock(block, b, e, body) && Includes(body, e)
    requires var s := u + block + rest; Includes(s, e) && IndexOf(s, e) == |u| + EndOf(b, e, body)
    ensures exists w :: Tail(u + block + rest, e) == w + (e + "\n" + rest)
  {
    hide Includes, OccursAt, Solid, IndexOf, EndOf;
    EndOfBlock(block, b, e, body);
    var x, v := u + (b + "\n" + body + "\n"), e + "\n" + rest;
    assert u + block + rest == x + v;
    hide IsBlock;
    var s, after := u + block + rest, |u| + EndOf(b, e, body) + |e|;
    assert after < |x|;
    SliceBehind(x, v, after);
    SliceBehind(x, v, after + 1);
  }

  /** The end marker in the body closes the block early: what is left of it stays behind as text. */
  lemma DirtyBlockLeavesText(head: string, block: string, b: string, e: string, body: string, rest: string)
    requires GoodMarkers(b, e) && IsBlock(block, b, e, body) && Includes(body, e)
    requires !Includes(head, b) && !Includes(head, e) && TrimEnd(head) == head
    requires Settled(StripLeading(rest, '\n')) == rest
    ensures var s := head + "\n\n" + block + rest;
      WellFormed(s, b, e) && Before(s, b) == head && After(s, e) != rest
  {
    hide Includes, OccursAt, IndexOf, TrimEnd, Settled, IsBlock, EndOf, Tail, StripLeading, Solid;
    var u := head + "\n\n";
    var s := u + block + rest;
    PlacedBlock(head, block, b, e, body, rest);
    EndOfBlock(block, b, e, body);
    IndexMeansIncludes(s, b);
    IndexMeansIncludes(s, e);
    TrimEndAppend(head, "\n\n");
    assert s[..|u|] == u;
    DirtyTail(u, block, b, e, body, rest);
    var w :| Tail(s, e) == w + (e + "\n" + rest);
    LeftoverIsLonger(w, e, rest);
  }

  lemma SamePrefix(u: string, v: string, w: string)
    ensures u + v == u + w <==> v == w
  {
    if u + v == u + w {
      assert v == (u + v)[|u|..] == (u + w)[|u|..] == w;
    }
  }

  lemma DirtyOnce(head: string, block1: string, b: string, e: string, body1: string, rest: string,
                  block2: string, body2: string)
    requires GoodMarkers(b, e) && IsBlock(block1, b, e, body1) && IsBlock(block2, b, e, body2) && Includes(body1, e)
    requires !Includes(head, b) && !Includes(head, e) && TrimEnd(head) == head
    requires Settled(StripLeading(rest, '\n')) == rest
    ensures UpsertManagedBlock(head + "\n\n" + block1 + rest, b, e, block2) != Some(head + "\n\n" + block2 + rest)
  {
    hide TrimEnd, Settled, Tail, Solid, IsBlock, Includes, IndexOf, Before, After, UpsertManagedBlock, StripLeading;
    var s := head + "\n\n" + block1 + rest;
    DirtyBlockLeavesText(head, block1, b, e, body1, rest);
    WriteOverBlock(s, block2, b, e, body2);
    SamePrefix(head + "\n\n" + block2, After(s, e), rest);
  }

  lemma DirtyBlockFails(content: string, b: string, e: string, block1: string, body1: string, block2: string, body2: string)
    requires GoodMarkers(b, e) && IsBlock(block1, b, e, body1) && IsBlock(block2, b, e, body2) && Includes(body1, e)
    requires WellFormed(content, b, e) || Unmanaged(content, b, e)
    requires !Refused(content, b, e)
    ensures !PutPut(content, b, e, block1, block2)
  {
    hide TrimEnd, Settled, Tail, Solid, IsBlock, Includes, IndexOf, Before, After, UpsertManagedBlock, StripLeading;
    if WellFormed(content, b, e) {
      WriteOverBlock(content, block1, b, e, body1);
      WriteOverBlock(content, block2, b, e, body2);
      DirtyOnce(Before(content, b), block1, b, e, body1, After(content, e), block2, body2);
    } else {
      UnmanagedText(content, b, e);
      WriteBehindText(content, block1, b, e, body1);
      WriteBehindText(content, block2, b, e, body2);
      DirtyOnce(TrimEnd(content), block1, b, e, body1, "", block2, body2);
    }
  }

  // ---------- The laws of the file that is written ----------

  /**
   * A second write leaves no trace of the first exactly if the file is left alone, or if its text has a
   * well-formed block or else words and no marker, and the first block's values hold no end marker.
   */
  lemma PutPutExactly(content: string, spec1: ServerSpec, spec2: ServerSpec)
    ensures var b, e := BEGIN_CODEX_MCP, END_CODEX_MCP;
      PutPut(content, b, e, BuildCodexManagedBlock(spec1), BuildCodexManagedBlock(spec2))
      <==> Refused(content, b, e)
           || (MarkerFree(spec1) && (WellFormed(content, b, e) || Unmanaged(content, b, e)))
  {
    hide IsBlock, GoodMarkers, PutPut, Includes, IndexOf, TrimEnd, BuildCodexManagedBlock, BodyLines, JoinLines, MarkerFree;
    var b, e := BEGIN_CODEX_MCP, END_CODEX_MCP;
    var block1, block2 := BuildCodexManagedBlock(spec1), BuildCodexManagedBlock(spec2);
    var body1, body2 := JoinLines(BodyLines(spec1)), JoinLines(BodyLines(spec2));
    CodexMarkersAreGood();
    BuiltBlock(spec1);
    BuiltBlock(spec2);
    if Refused(content, b, e) {
      RefusalIsFinal(content, b, e, block1, block2);
    } else if WellFormed(content, b, e) || Unmanaged(content, b, e) {
      if MarkerFree(spec1) {
        PutPutHolds(content, b, e, block1, body1, block2, body2);
      } else {
        DirtyBlockFails(content, b, e, block1, body1, block2, body2);
      }
    } else if TrimEnd(content) == "" {
      BlankTextFails(content, b, e, block1, body1, block2, body2);
    } else if Includes(content, e) {
      EarlyEndFails(content, b, e, block1, body1, block2, body2);
    } else {
      LoneBeginFails(content, b, e, block1, body1, block2, body2);
    }
  }

  /** The written file reads back: the block, between the text that was around it before. */
  ghost predicate ReadsBack(content: string, put: string, b: string, e: string, block: string) {
    && WellFormed(put, b, e)
    && Managed(put, b, e) == block
    && Before(put, b) == (if WellFormed(content, b, e) then Before(content, b) else TrimEnd(content))
    && After(put, e) == (if WellFormed(content, b, e) then After(content, e) else "")
  }

  lemma OverwriteReadsBack(content: string, b: string, e: string, block: string, body: string)
    requires GoodMarkers(b, e) && IsBlock(block, b, e, body) && !Includes(body, e) && WellFormed(content, b, e)
    ensures var put := UpsertManagedBlock(content, b, e, block); put.Some? && ReadsBack(content, put.value, b, e, block)
  {
    hide TrimEnd, Settled, Tail, Solid, IsBlock, Includes, IndexOf, Before, After, Managed, UpsertManagedBlock, StripLeading;
    WriteOverBlock(content, block, b, e, body);
    ReadBack(Before(content, b), block, b, e, body, After(content, e));
  }

  lemma FirstWriteReadsBack(content: string, b: string, e: string, block: string, body: string)
    requires GoodMarkers(b, e) && IsBlock(block, b, e, body) && !Includes(body, e)
    requires !WellFormed(content, b, e) && !Refused(content, b, e) && TrimEnd(content) != ""
    requires !Includes(content, b) && !Includes(content, e)
    ensures var put := UpsertManagedBlock(content, b, e, block); put.Some? && ReadsBack(content, put.value, b, e, block)
  {
    hide TrimEnd, Settled, Tail, Solid, IsBlock, Includes, IndexOf, Before, After, Managed, UpsertManagedBlock, StripLeading;
    UnmanagedText(content, b, e);
    WriteBehindText(content, block, b, e, body);
    ReadBack(TrimEnd(content), block, b, e, body, "");
  }

  lemma BlankWrite(content: string, b: string, e: string, block: string)
    requires !WellFormed(content, b, e) && !Refused(content, b, e) && TrimEnd(content) == ""
    ensures UpsertManagedBlock(content, b, e, block) == Some(block)
  {
  }

  /** A block alone in its file. */
  lemma LoneBlock(block: string, b: string, e: string, body: string)
    requires GoodMarkers(b, e) && IsBlock(block, b, e, body) && !Includes(body, e)
    ensures WellFormed(block, b, e) && Managed(block, b, e) == block && Before(block, b) == "" && After(block, e) == ""
  {
    hide Solid, IsBlock, Includes, IndexOf, Before, Tail, Managed, EndOf, WellFormed, TrimEnd;
    BlockStartsAndEnds(block, b, e, body, "");
    EndOfBlock(block, b, e, body);
    assert "" + block + "" == block && block + "" == block;
    IndexMeansIncludes(block, b);
    IndexMeansIncludes(block, e);
    TrimNothing();
    ReadParts("", block, "", b, e);
    assert StripLeading("", '\n') == "";
  }

  lemma BlankWriteReadsBack(content: string, b: string, e: string, block: string, body: string)
    requires GoodMarkers(b, e) && IsBlock(block, b, e, body) && !Includes(body, e)
    requires !WellFormed(content, b, e) && !Refused(content, b, e) && TrimEnd(content) == ""
    ensures UpsertManagedBlock(content, b, e, block) == Some(block) && ReadsBack(content, block, b, e, block)
  {
    hide IsBlock, Includes, IndexOf, Before, After, Managed, WellFormed, UpsertManagedBlock, TrimEnd, Refused;
    BlankWrite(content, b, e, block);
    LoneBlock(block, b, e, body);
  }

  lemma CleanWriteReadsBack(content: string, b: string, e: string, block: string, body: string)
    requires GoodMarkers(b, e) && IsBlock(block, b, e, body) && !Includes(body, e) && !Refused(content, b, e)
    requires WellFormed(content, b, e) || (!Includes(content, b) && !Includes(content, e))
    ensures var put := UpsertManagedBlock(content, b, e, block); put.Some? && ReadsBack(content, put.value, b, e, block)
  {
    hide TrimEnd, IsBlock, Includes, WellFormed, Refused, ReadsBack, UpsertManagedBlock, GoodMarkers;
    if WellFormed(content, b, e) {
      OverwriteReadsBack(content, b, e, block, body);
    } else if TrimEnd(content) == "" {
      BlankWriteReadsBack(content, b, e, block, body);
    } else {
      FirstWriteReadsBack(content, b, e, block, body);
    }
  }

  lemma SliceOfSlice(s: string, a: nat, b: nat, c: nat, d: nat)
    requires a <= b <= |s| && c <= d <= b - a
    ensures s[a..b][c..d] == s[a + c..a + d]
  {
    var x, y := s[a..b][c..d], s[a + c..a + d];
    assert |x| == |y|;
    forall i | 0 <= i < |x| ensures x[i] == y[i] {
    }
  }

  lemma OccursShifted(s: string, e: string, start: nat, end: nat, j: nat)
    requires start + j <= end && end + |e| <= |s|
    ensures OccursAt(s[start..end + |e|] + "\n", e, j) <==> OccursAt(s, e, start + j)
  {
    var t := s[start..end + |e|];
    assert (t + "\n")[j..j + |e|] == t[j..j + |e|];
    SliceOfSlice(s, start, end + |e|, j, j + |e|);
  }

  /** Reading back never gives a block with an end marker of its own, as it stops at the first. */
  lemma ManagedEndsAtFirst(s: string, b: string, e: string)
    requires Solid(e) && WellFormed(s, b, e)
    ensures var m := Managed(s, b, e); IndexOf(m, e) + |e| + 1 == |m|
  {
    var start, end, m := IndexOf(s, b), IndexOf(s, e), Managed(s, b, e);
    forall j | 0 <= j < end - start ensures !OccursAt(m, e, j) {
      OccursShifted(s, e, start, end, j);
    }
    OccursShifted(s, e, start, end, end - start);
    hide OccursAt;
    assert OccursAt(m, e, end - start);
  }

  lemma DirtyWriteIsLost(content: string, b: string, e: string, block: string, body: string)
    requires GoodMarkers(b, e) && IsBlock(block, b, e, body) && Includes(body, e)
    ensures forall put: string :: WellFormed(put, b, e) ==> Managed(put, b, e) != block
  {
    hide Includes, OccursAt, IndexOf, IsBlock, EndOf, WellFormed, Managed;
    BlockStartsAndEnds(block, b, e, body, "");
    EndOfBlock(block, b, e, body);
    assert block + "" == block;
    forall put: string | WellFormed(put, b, e) ensures Managed(put, b, e) != block {
      ManagedEndsAtFirst(put, b, e);
    }
  }

  lemma IndexInside(s: string, m: string)
    ensures IndexOf(s, m) >= 0 ==> IndexOf(s, m) + |m| <= |s|
  {
  }

  lemma MarkersAreNotBlank(content: string, b: string, e: string)
    requires GoodMarkers(b, e) && (Includes(content, b) || Includes(content, e))
    ensures TrimEnd(content) != ""
  {
    hide TrimEnd;
    TrimKeepsIndex(content, b);
    TrimKeepsIndex(content, e);
    LacksFirst("", b);
    LacksFirst("", e);
  }

  /** Beside a stray marker the block does not read back, whatever is written. */
  lemma StrayMarkerIsLost(content: string, b: string, e: string, block: string, body: string)
    requires GoodMarkers(b, e) && IsBlock(block, b, e, body) && !Includes(body, e)
    requires !WellFormed(content, b, e) && !Refused(content, b, e) && (Includes(content, b) || Includes(content, e))
    ensures var put := UpsertManagedBlock(content, b, e, block);
      put.Some? && !(WellFormed(put.value, b, e) && Managed(put.value, b, e) == block)
  {
    hide TrimEnd, Includes, OccursAt, IndexOf, IsBlock, EndOf, UpsertManagedBlock;
    MarkersAreNotBlank(content, b, e);
    WriteBehindText(content, block, b, e, body);
    if Includes(content, e) {
      EarlyEndOnce(content, block, b, e, body);
    } else {
      LoneBeginOnce(content, block, b, e, body);
      FoundInside(TrimEnd(content), b);
      EndOfBlock(block, b, e, body);
      IndexInside(TrimEnd(content) + "\n\n" + block + "", e);
    }
  }

  lemma UpsertIsSome(content: string, b: string, e: string, block: string)
    ensures UpsertManagedBlock(content, b, e, block).None? <==> Refused(content, b, e)
  {
  }

  /**
   * Put then get.  A write is refused exactly for an unmanaged section.  Otherwise the block reads back
   * exactly if its values hold no end marker and the text had a well-formed block or no marker at all,
   * and then the text around it is what it was.
   */
  lemma PutGetExactly(content: string, spec: ServerSpec)
    ensures var b, e, put := BEGIN_CODEX_MCP, END_CODEX_MCP, Put(content, spec);
      var block := BuildCodexManagedBlock(spec);
      var clear := WellFormed(content, b, e) || (!Includes(content, b) && !Includes(content, e));
      && (put.None? <==> Refused(content, b, e))
      && (put.Some? ==>
            && (WellFormed(put.value, b, e) && Managed(put.value, b, e) == block <==> MarkerFree(spec) && clear)
            && (MarkerFree(spec) && clear ==> ReadsBack(content, put.value, b, e, block)))
  {
    hide IsBlock, GoodMarkers, Includes, IndexOf, BuildCodexManagedBlock, BodyLines, JoinLines, MarkerFree,
         WellFormed, Managed, Before, After;
    var b, e, block := BEGIN_CODEX_MCP, END_CODEX_MCP, BuildCodexManagedBlock(spec);
    var body := JoinLines(BodyLines(spec));
    CodexMarkersAreGood();
    BuiltBlock(spec);
    UpsertIsSome(content, b, e, block);
    hide UpsertManagedBlock, Refused;
    if !Refused(content, b, e) {
      if !MarkerFree(spec) {
        DirtyWriteIsLost(content, b, e, block, body);
      } else if WellFormed(content, b, e) || (!Includes(content, b) && !Includes(content, e)) {
        CleanWriteReadsBack(content, b, e, block, body);
      } else {
        StrayMarkerIsLost(content, b, e, block, body);
      }
    }
  }
}
