/** The few string and container primitives of the JavaScript runtime that the modelled code calls. */
module JsText {
  datatype Option<+T> = None | Some(value: T)

  /** WhiteSpace and LineTerminator code points: what `trim`, `trimEnd` and the regex class `\s` match. */
  predicate IsSpace(c: char) {
    || c in {'\t', '\n', '\U{000B}', '\U{000C}', '\r', ' '}
    || c in {'\U{00A0}', '\U{1680}', '\U{2028}', '\U{2029}', '\U{202F}', '\U{205F}', '\U{3000}', '\U{FEFF}'}
    || '\U{2000}' <= c <= '\U{200A}'
  }

  predicate Blank(s: string) {
    forall c | c in s :: IsSpace(c)
  }

  // `trimEnd`, which is also what removing a trailing run of `\s` does.
  function TrimEnd(s: string): (r: string)
    ensures r <= s && Blank(s[|r|..])
    ensures r == [] || !IsSpace(r[|r| - 1])
  {
    if s != [] && IsSpace(s[|s| - 1]) then TrimEnd(s[..|s| - 1]) else s
  }

  function TrimStart(s: string): (r: string)
    ensures |r| <= |s| && r == s[|s| - |r|..]
    ensures r == [] || !IsSpace(r[0])
    ensures Blank(s[..|s| - |r|])
  {
    if s != [] && IsSpace(s[0]) then TrimStart(s[1..]) else s
  }

  function Trim(s: string): string {
    TrimEnd(TrimStart(s))
  }

  /** `trim` takes away blank text on both sides, and leaves none. */
  lemma TrimParts(s: string) returns (before: string, after: string)
    ensures s == before + Trim(s) + after && Blank(before) && Blank(after)
    ensures Trim(s) != "" ==> !IsSpace(Trim(s)[0]) && !IsSpace(Trim(s)[|Trim(s)| - 1])
  {
    hide TrimStart, TrimEnd, Blank, IsSpace;
    var start := TrimStart(s);
    before, after := s[..|s| - |start|], start[|Trim(s)|..];
    assert s == before + start && start == Trim(s) + after;
  }

  lemma TrimIsBlank(s: string)
    ensures Trim(s) == "" <==> Blank(s)
  {
    hide Trim, IsSpace;
    var before, after := TrimParts(s);
    if Trim(s) != "" {
      assert s[|before|] == Trim(s)[0];
    }
  }

  lemma NothingToTrim(s: string)
    requires s == "" || (!IsSpace(s[0]) && !IsSpace(s[|s| - 1]))
    ensures Trim(s) == s
  {
  }

  // Drop every trailing `c`, as a replace anchored at the end does.
  function StripTrailing(s: string, c: char): (r: string)
    ensures r <= s
    ensures r == [] || r[|r| - 1] != c
    ensures forall i | |r| <= i < |s| :: s[i] == c
  {
    if s != [] && s[|s| - 1] == c then StripTrailing(s[..|s| - 1], c) else s
  }

  // Drop every leading `c`, as a replace anchored at the start does.
  function StripLeading(s: string, c: char): (r: string)
    ensures |r| <= |s| && r == s[|s| - |r|..]
    ensures r == [] || r[0] != c
    ensures forall i | 0 <= i < |s| - |r| :: s[i] == c
  {
    if s != [] && s[0] == c then StripLeading(s[1..], c) else s
  }

  // A global replace of one character by another.
  function ReplaceAll(s: string, from: char, to: char): (r: string)
    ensures |r| == |s|
    ensures forall i | 0 <= i < |s| :: r[i] == if s[i] == from then to else s[i]
  {
    seq(|s|, i requires 0 <= i < |s| => if s[i] == from then to else s[i])
  }

  predicate StartsWith(s: string, prefix: string) {
    prefix <= s
  }

  predicate OccursAt(s: string, m: string, i: int) {
    0 <= i <= |s| - |m| && s[i..i + |m|] == m
  }

  /** `includes`. */
  predicate Includes(s: string, m: string) {
    exists i | 0 <= i <= |s| :: OccursAt(s, m, i)
  }

  ghost predicate Distinct<T>(s: seq<T>) {
    forall i, j | 0 <= i < j < |s| :: s[i] != s[j]
  }

  lemma DistinctCons<T>(x: T, s: seq<T>)
    ensures Distinct([x] + s) <==> x !in s && Distinct(s)
  {
    var t := [x] + s;
    assert forall i | 0 <= i < |s| :: t[i + 1] == s[i];
    if Distinct(t) {
      forall i | 0 <= i < |s| ensures s[i] != x {
        assert t[0] != t[i + 1];
      }
      forall i, j | 0 <= i < j < |s| ensures s[i] != s[j] {
        assert t[i + 1] != t[j + 1];
      }
    }
  }

  /** The keys of a `Map`, or the elements of a `Set`, in the order in which they were first inserted. */
  function FirstOccurrences(xs: seq<string>): (r: seq<string>)
    ensures Distinct(r)
    ensures forall x :: x in r <==> x in xs
  {
    if xs == [] then [] else
      var last := xs[|xs| - 1];
      var r := FirstOccurrences(xs[..|xs| - 1]);
      assert xs == xs[..|xs| - 1] + [last];
      if last in r then r else r + [last]
  }

  /** `join("\n")`. */
  function JoinLines(lines: seq<string>): string {
    if lines == [] then ""
    else if |lines| == 1 then lines[0]
    else lines[0] + "\n" + JoinLines(lines[1..])
  }

  function Digits(n: nat): (r: string)
    ensures r != [] && forall c | c in r :: '0' <= c <= '9'
  {
    (if n < 10 then [] else Digits(n / 10)) + ['0' + (n % 10) as char]
  }

  /** A number rendered into a template string. */
  function Decimal(n: int): (r: string)
    ensures forall c | c in r :: c == '-' || '0' <= c <= '9'
  {
    if n < 0 then "-" + Digits(-n) else Digits(n)
  }

  /** The number a run of decimal digits denotes. */
  function Value(s: string): int {
    if s == [] then 0 else 10 * Value(s[..|s| - 1]) + (s[|s| - 1] as int - '0' as int)
  }

  lemma {:induction false} DigitsValue(n: nat)
    ensures Value(Digits(n)) == n
  {
    var init := if n < 10 then [] else Digits(n / 10);
    if n >= 10 {
      DigitsValue(n / 10);
    }
    assert Digits(n)[..|Digits(n)| - 1] == init;
  }

  predicate IsDigits(s: string) {
    s != "" && forall c | c in s :: '0' <= c <= '9'
  }

  /** Reading back a decimal integer; `fallback` stands for blank text and for anything else. */
  function ParseInteger(text: string, fallback: int): int {
    if IsDigits(text) then Value(text)
    else if text != "" && text[0] == '-' && IsDigits(text[1..]) then -Value(text[1..])
    else fallback
  }

  lemma ParseDecimal(n: int, fallback: int)
    ensures ParseInteger(Decimal(n), fallback) == n
  {
    hide Digits, Value;
    var d := Digits(if n < 0 then -n else n);
    DigitsValue(if n < 0 then -n else n);
    if n < 0 {
      assert Decimal(n)[0] == '-' && Decimal(n)[1..] == d;
      assert '-' in Decimal(n);
    }
  }

  lemma DecimalInjective(m: int, n: int)
    requires Decimal(m) == Decimal(n)
    ensures m == n
  {
    hide Decimal, ParseInteger;
    ParseDecimal(m, 0);
    ParseDecimal(n, 0);
  }

  // ---------- Text without anything to trim, strip or replace ----------

  /** A name without white space around it, backslashes or a trailing slash. */
  predicate IsPlain(s: string) {
    s != "" && !IsSpace(s[0]) && !IsSpace(s[|s| - 1]) && '\\' !in s && s[|s| - 1] != '/'
  }

  lemma LeadingSpace(s: string)
    ensures Trim([' '] + s) == Trim(s)
  {
    hide TrimEnd;
    assert ([' '] + s)[1..] == s;
  }

  lemma NoBackslash(s: string)
    requires '\\' !in s
    ensures ReplaceAll(s, '\\', '/') == s
  {
  }

  lemma BackslashLast(s: string)
    requires '\\' !in s
    ensures ReplaceAll(s + ['\\'], '\\', '/') == s + ['/']
  {
  }

  lemma StripOne(s: string, c: char)
    requires s != "" && s[|s| - 1] != c
    ensures StripTrailing(s, c) == s && StripTrailing(s + [c], c) == s
  {
    assert (s + [c])[..|s|] == s;
  }
}
