/** Display names for projects: `harness-mem-ui/src/lib/project-label.ts`. */
module ProjectLabels {
  import opened JsText

  function NormalizeProjectValue(project: string): string {
    ReplaceAll(StripTrailing(Trim(project), '/'), '\\', '/')
  }

  /** `join("/")`. */
  function Join(pieces: seq<string>): string {
    if pieces == [] then ""
    else if |pieces| == 1 then pieces[0]
    else Join(pieces[..|pieces| - 1]) + "/" + pieces[|pieces| - 1]
  }

  /** `split("/")`: the pieces hold no slash, and joining them gives the text back. */
  function Split(s: string): (r: seq<string>)
    ensures |r| > 0 && Join(r) == s
    ensures forall i | 0 <= i < |r| :: '/' !in r[i]
  {
    if s == [] then [""] else
      var r := Split(s[..|s| - 1]);
      var c := s[|s| - 1];
      if c == '/' then
        assert (r + [""])[..|r|] == r;
        assert s == s[..|s| - 1] + "/" + "";
        r + [""]
      else
        var t := r[..|r| - 1] + [r[|r| - 1] + [c]];
        assert t[..|t| - 1] == r[..|r| - 1];
        assert Join(t) == Join(r) + [c];
        assert s == s[..|s| - 1] + [c];
        t
  }

  /** `filter(Boolean)` on strings. */
  function NonEmpty(pieces: seq<string>): (r: seq<string>)
    ensures forall i | 0 <= i < |r| :: r[i] != "" && r[i] in pieces
  {
    if pieces == [] then [] else
      var last := pieces[|pieces| - 1];
      var r := NonEmpty(pieces[..|pieces| - 1]);
      if last == "" then r else r + [last]
  }

  function SplitPathSegments(project: string): (r: seq<string>)
    ensures forall i | 0 <= i < |r| :: r[i] != "" && '/' !in r[i]
  {
    NonEmpty(Split(NormalizeProjectValue(project)))
  }

  predicate HasDriveLetter(s: string) {
    |s| >= 2 && ('A' <= s[0] <= 'Z' || 'a' <= s[0] <= 'z') && s[1] == ':'
  }

  predicate IsPathLikeProject(project: string) {
    var normalized := NormalizeProjectValue(project);
    normalized != "" && ('/' in normalized || HasDriveLetter(normalized))
  }

  function GetBaseProjectDisplayName(project: string): string {
    var normalized := NormalizeProjectValue(project);
    if normalized == "" then project
    else if !IsPathLikeProject(normalized) then normalized
    else
      var segments := SplitPathSegments(normalized);
      if segments == [] then normalized else segments[|segments| - 1]
  }

  function Max(a: int, b: int): int {
    if a < b then b else a
  }

  function GetPathTail(project: string, depth: int): string {
    var segments := SplitPathSegments(project);
    if segments == [] then NormalizeProjectValue(project)
    else Join(segments[Max(0, |segments| - Max(1, depth))..])
  }

  // ---------- What the map holds ----------

  function Bases(projects: seq<string>): seq<string> {
    seq(|projects|, i requires 0 <= i < |projects| => GetBaseProjectDisplayName(projects[i]))
  }

  /** How often a name occurs in a list. */
  ghost function Occurrences(names: seq<string>, name: string): nat {
    multiset(names)[name]
  }

  /** The label of the middle loop: the base name if no other entry has it, else two path segments. */
  ghost function FirstLabel(projects: seq<string>, project: string): string {
    var base := GetBaseProjectDisplayName(project);
    if Occurrences(Bases(projects), base) <= 1 then base
    else if !IsPathLikeProject(project) then project
    else GetPathTail(project, 2)
  }

  ghost function FirstLabels(projects: seq<string>): seq<string> {
    var keys := FirstOccurrences(projects);
    seq(|keys|, i requires 0 <= i < |keys| => FirstLabel(projects, keys[i]))
  }

  /** The label after the last loop, which rewrites every clashing label and does not recount. */
  ghost function Label(projects: seq<string>, project: string): string {
    var first := FirstLabel(projects, project);
    if Occurrences(FirstLabels(projects), first) > 1 then NormalizeProjectValue(project) else first
  }

  /** `m.set(k, (m.get(k) || 0) + 1)` over a list. */
  method Tally(names: seq<string>) returns (count: map<string, nat>)
    ensures forall name :: name in count <==> name in names
    ensures forall name | name in count :: count[name] == Occurrences(names, name)
  {
    count := map[];
    for i := 0 to |names|
      invariant forall name :: name in count <==> name in names[..i]
      invariant forall name | name in count :: count[name] == Occurrences(names[..i], name)
    {
      assert names[..i + 1] == names[..i] + [names[i]];
      count := count[names[i] := (if names[i] in count then count[names[i]] else 0) + 1];
    }
    assert names[..|names|] == names;
  }

  /** The first loop: base names, and how many projects have each. */
  method CountBaseNames(projects: seq<string>) returns (baseNames: map<string, string>, baseCount: map<string, nat>)
    ensures forall p :: p in baseNames <==> p in projects
    ensures forall p | p in baseNames :: baseNames[p] == GetBaseProjectDisplayName(p)
    ensures forall name :: name in baseCount <==> name in Bases(projects)
    ensures forall name | name in baseCount :: baseCount[name] == Occurrences(Bases(projects), name)
  {
    hide GetBaseProjectDisplayName, Occurrences;
    baseNames := map[];
    var bases: seq<string> := [];
    for i := 0 to |projects|
      invariant forall p :: p in baseNames <==> p in projects[..i]
      invariant forall p | p in baseNames :: baseNames[p] == GetBaseProjectDisplayName(p)
      invariant bases == Bases(projects)[..i]
    {
      var base := GetBaseProjectDisplayName(projects[i]);
      baseNames := baseNames[projects[i] := base];
      bases := bases + [base];
    }
    assert bases == Bases(projects) && projects[..|projects|] == projects;
    baseCount := Tally(bases);
  }

  /** An empty base name can only be an empty project's, so the `||` in the middle loop never fires. */
  lemma EmptyBaseName(p: string)
    ensures GetBaseProjectDisplayName(p) == "" ==> p == ""
  {
  }

  /** The second loop: first labels; `order` is the insertion order of the map's keys. */
  method AssignFirstLabels(projects: seq<string>) returns (displayNames: map<string, string>, order: seq<string>)
    ensures order == FirstOccurrences(projects)
    ensures forall p :: p in displayNames <==> p in projects
    ensures forall p | p in displayNames :: displayNames[p] == FirstLabel(projects, p)
  {
    hide GetBaseProjectDisplayName, GetPathTail, IsPathLikeProject, Occurrences;
    var baseNames, baseCount := CountBaseNames(projects);
    displayNames, order := map[], [];
    for i := 0 to |projects|
      invariant order == FirstOccurrences(projects[..i])
      invariant forall p :: p in displayNames <==> p in projects[..i]
      invariant forall p | p in displayNames :: displayNames[p] == FirstLabel(projects, p)
    {
      var project := projects[i];
      assert projects[..i + 1][..i] == projects[..i] && Bases(projects)[i] == GetBaseProjectDisplayName(project);
      var base := if baseNames[project] != "" then baseNames[project] else project;
      EmptyBaseName(project);
      if project !in displayNames { order := order + [project]; }
      if baseCount[base] <= 1 {
        displayNames := displayNames[project := base];
      } else if !IsPathLikeProject(project) {
        displayNames := displayNames[project := project];
      } else {
        displayNames := displayNames[project := GetPathTail(project, 2)];
      }
    }
    assert projects[..|projects|] == projects;
  }

  lemma ClashRule(projects: seq<string>, i: nat)
    requires i < |FirstOccurrences(projects)|
    ensures var p, first := FirstOccurrences(projects)[i], FirstLabels(projects)[i];
      Label(projects, p) == if Occurrences(FirstLabels(projects), first) > 1 then NormalizeProjectValue(p) else first
  {
  }

  /** The third loop: how many keys have each label. */
  method CountLabels(projects: seq<string>, displayNames: map<string, string>, order: seq<string>)
    returns (labelCount: map<string, nat>)
    requires order == FirstOccurrences(projects)
    requires forall p | p in projects :: p in displayNames && displayNames[p] == FirstLabel(projects, p)
    ensures forall name :: name in labelCount <==> name in FirstLabels(projects)
    ensures forall name | name in labelCount :: labelCount[name] == Occurrences(FirstLabels(projects), name)
  {
    hide FirstOccurrences, FirstLabel, Occurrences;
    var labels: seq<string> := [];
    for i := 0 to |order|
      invariant labels == FirstLabels(projects)[..i]
    {
      labels := labels + [displayNames[order[i]]];
    }
    assert labels == FirstLabels(projects);
    labelCount := Tally(labels);
  }

  method BuildProjectDisplayNameMap(projects: seq<string>) returns (displayNames: map<string, string>)
    ensures displayNames.Keys == set p | p in projects
    ensures forall p | p in projects :: displayNames[p] == Label(projects, p)
  {
    hide FirstOccurrences, FirstLabel, Label, Occurrences, NormalizeProjectValue;
    var order: seq<string>;
    displayNames, order := AssignFirstLabels(projects);
    var labelCount := CountLabels(projects, displayNames, order);

    for i := 0 to |order|
      invariant forall p :: p in displayNames <==> p in projects
      invariant forall k | 0 <= k < i :: displayNames[order[k]] == Label(projects, order[k])
      invariant forall k | i <= k < |order| :: displayNames[order[k]] == FirstLabels(projects)[k]
    {
      var project := order[i];
      ClashRule(projects, i);
      assert forall k | 0 <= k < |order| && k != i :: order[k] != project;
      if labelCount[displayNames[project]] > 1 {
        displayNames := displayNames[project := NormalizeProjectValue(project)];
      }
    }
  }

  // ---------- Counting ----------

  lemma {:induction false} OccursTwice(names: seq<string>, name: string)
    ensures Occurrences(names, name) > 0 <==> name in names
    ensures Occurrences(names, name) > 1 <==> exists i, j | 0 <= i < j < |names| :: names[i] == name && names[j] == name
  {
    if names == [] {
    } else {
      var n := |names| - 1;
      var init := names[..n];
      OccursTwice(init, name);
      assert names == init + [names[n]];
      if Occurrences(names, name) > 1 {
        if names[n] == name {
          var i :| 0 <= i < n && init[i] == name;
          assert names[i] == name && names[n] == name;
        } else {
          var i, j :| 0 <= i < j < n && init[i] == name && init[j] == name;
          assert names[i] == name && names[j] == name;
        }
      }
      if i, j :| 0 <= i < j < |names| && names[i] == name && names[j] == name {
        assert init[i] == name;
        if j < n { assert init[j] == name; }
      }
    }
  }

  lemma SharedBaseIsCounted(projects: seq<string>, p: string, q: string)
    requires p in projects && q in projects && p != q
    requires GetBaseProjectDisplayName(p) == GetBaseProjectDisplayName(q)
    ensures Occurrences(Bases(projects), GetBaseProjectDisplayName(p)) > 1
  {
    hide GetBaseProjectDisplayName, Occurrences;
    var i :| 0 <= i < |projects| && projects[i] == p;
    var j :| 0 <= j < |projects| && projects[j] == q;
    assert Bases(projects)[i] == Bases(projects)[j];
    OccursTwice(Bases(projects), GetBaseProjectDisplayName(p));
  }

  /** A label is counted twice exactly when some other project has it too. */
  lemma ClashMeansAnother(projects: seq<string>, p: string)
    requires p in projects
    ensures Occurrences(FirstLabels(projects), FirstLabel(projects, p)) > 1
       <==> exists q | q in projects :: q != p && FirstLabel(projects, q) == FirstLabel(projects, p)
  {
    hide FirstLabel;
    var keys, labels, l := FirstOccurrences(projects), FirstLabels(projects), FirstLabel(projects, p);
    OccursTwice(labels, l);
    var a :| 0 <= a < |keys| && keys[a] == p;
    assert labels[a] == l;
    if i, j :| 0 <= i < j < |labels| && labels[i] == l && labels[j] == l {
      var k := if keys[i] == p then j else i;
      assert keys[k] in projects && keys[k] != p && FirstLabel(projects, keys[k]) == labels[k];
    }
    if q :| q in projects && q != p && FirstLabel(projects, q) == l {
      var b :| 0 <= b < |keys| && keys[b] == q;
      assert labels[b] == l && a != b;
    }
  }

  // ---------- Path segments ----------

  predicate EndsInSlash(s: string) {
    s != "" && s[|s| - 1] == '/'
  }

  lemma {:induction false} SplitAppends(a: string, b: string)
    requires '/' !in b
    ensures Split(a + "/" + b) == Split(a) + [b]
  {
    var s := a + "/" + b;
    hide Join;
    if b == "" {
      assert s[..|s| - 1] == a;
    } else {
      var c, init := b[|b| - 1], b[..|b| - 1];
      SplitAppends(a, init);
      assert s[..|s| - 1] == a + "/" + init && s[|s| - 1] == c;
      var r := Split(a) + [init];
      assert Split(s) == r[..|r| - 1] + [r[|r| - 1] + [c]];
      assert r[..|r| - 1] == Split(a) && init + [c] == b;
    }
  }

  lemma {:induction false} SplitPlain(b: string)
    requires '/' !in b
    ensures Split(b) == [b]
  {
    hide Join;
    if b == "" {
    } else {
      var init, c := b[..|b| - 1], b[|b| - 1];
      SplitPlain(init);
      assert b == init + [c];
      assert Split(b) == [init][..0] + [[init][0] + [c]];
    }
  }

  lemma TailOfPlain(b: string)
    requires b != "" && '/' !in b
    ensures NonEmpty(Split(b)) == [b]
  {
    SplitPlain(b);
    assert NonEmpty([b][..0]) == [];
  }

  lemma SegmentsOfPair(a: string, b: string)
    requires a != "" && '/' !in a && b != "" && '/' !in b
    ensures NonEmpty(Split(a + "/" + b)) == [a, b]
  {
    SplitAppends(a, b);
    SplitPlain(a);
    assert [a, b][..1] == [a];
    TailOfPlain(a);
  }

  lemma LastSegmentOf(n: string)
    requires n != "" && !EndsInSlash(n)
    ensures NonEmpty(Split(n)) != []
  {
    var r := Split(n[..|n| - 1]);
    assert Split(n)[|r| - 1] != "";
  }

  // ---------- Projects whose normal form is stable ----------

  /** Trimmed, and normalising twice is normalising once: every fixed point of the normaliser is such. */
  ghost predicate Stable(p: string) {
    Trim(p) == p && NormalizeProjectValue(NormalizeProjectValue(p)) == NormalizeProjectValue(p)
  }

  lemma TrimShrinks(s: string)
    ensures |Trim(s)| <= |s| && (|Trim(s)| == |s| ==> Trim(s) == s)
  {
  }

  lemma StripsSlash(n: string)
    requires EndsInSlash(n)
    ensures NormalizeProjectValue(n) != n
  {
    var t := Trim(n);
    TrimShrinks(n);
    hide Trim;
    assert |StripTrailing(t, '/')| < |n|;
  }

  lemma FixedPointsAreStable(p: string)
    requires NormalizeProjectValue(p) == p
    ensures Stable(p)
  {
    TrimShrinks(p);
  }

  lemma StableNormalForm(p: string)
    requires Stable(p)
    ensures !EndsInSlash(NormalizeProjectValue(p))
    ensures NormalizeProjectValue(p) == "" ==> p == "" || EndsInSlash(p)
    ensures NormalizeProjectValue(p) != "" && '/' !in NormalizeProjectValue(p)
        ==> p == NormalizeProjectValue(p) || EndsInSlash(p)
  {
    var n := NormalizeProjectValue(p);
    if EndsInSlash(n) { StripsSlash(n); }
    hide Trim;
    var bare := StripTrailing(p, '/');
    assert n == ReplaceAll(bare, '\\', '/');
    if '/' !in n {
      assert n == bare;
    }
  }

  // ---------- Which project a label can belong to ----------

  /** The non-empty pieces of any text, whether a project, a normal form or a label. */
  function Segments(s: string): seq<string> {
    NonEmpty(Split(s))
  }

  lemma {:induction false} SlashesHaveNoSegments(s: string)
    requires forall i | 0 <= i < |s| :: s[i] == '/'
    ensures Segments(s) == []
  {
    if s == "" {
      assert NonEmpty([""]) == NonEmpty([""][..0]);
    } else {
      SlashesHaveNoSegments(s[..|s| - 1]);
      var r := Split(s[..|s| - 1]);
      assert (r + [""])[..|r|] == r;
    }
  }

  /** Trailing slashes add no segment. */
  lemma {:induction false} StrippingKeepsSegments(s: string)
    ensures Segments(StripTrailing(s, '/')) == Segments(s)
  {
    if s != "" && s[|s| - 1] == '/' {
      StrippingKeepsSegments(s[..|s| - 1]);
      var r := Split(s[..|s| - 1]);
      assert (r + [""])[..|r|] == r;
    }
  }

  lemma BaseIsLastSegment(p: string)
    requires Stable(p) && NormalizeProjectValue(p) != ""
    ensures SplitPathSegments(p) != []
    ensures GetBaseProjectDisplayName(p) == SplitPathSegments(p)[|SplitPathSegments(p)| - 1]
  {
    hide NormalizeProjectValue, Trim, Split, NonEmpty;
    var n := NormalizeProjectValue(p);
    StableNormalForm(p);
    LastSegmentOf(n);
    if '/' !in n { TailOfPlain(n); }
  }

  lemma TailHasLastTwoSegments(p: string)
    requires SplitPathSegments(p) != []
    ensures var segments, t := SplitPathSegments(p), GetPathTail(p, 2);
      Segments(t) == segments[Max(0, |segments| - 2)..] && t != "" && !EndsInSlash(t)
  {
    var segments := SplitPathSegments(p);
    hide SplitPathSegments;
    var k := |segments|;
    if k == 1 {
      assert segments[Max(0, k - 2)..] == [segments[0]];
      assert Join([segments[0]]) == segments[0] && Max(0, k - Max(1, 2)) == 0;
      TailOfPlain(segments[0]);
    } else {
      var a, b := segments[k - 2], segments[k - 1];
      assert segments[k - 2..] == [a, b] && [a, b][..1] == [a];
      assert Join([a, b]) == a + "/" + b && Max(0, k - Max(1, 2)) == k - 2;
      SegmentsOfPair(a, b);
    }
  }

  lemma NoSlashInForm(s: string)
    requires '/' !in ReplaceAll(s, '\\', '/')
    ensures ReplaceAll(s, '\\', '/') == s
  {
  }

  /** A bare name with its trailing slashes: what a project that is no path looks like. */
  lemma PlainProject(p: string)
    requires Stable(p) && !IsPathLikeProject(p)
    ensures Segments(p) == SplitPathSegments(p)
  {
    hide Trim, StripTrailing, Split, NonEmpty;
    var n, bare := NormalizeProjectValue(p), StripTrailing(p, '/');
    assert n == ReplaceAll(bare, '\\', '/');
    NoSlashInForm(bare);
    StrippingKeepsSegments(p);
  }

  predicate EndsWith(s: string, segment: string) {
    Segments(s) != [] && Segments(s)[|Segments(s)| - 1] == segment
  }

  /** The texts a project's label is chosen from all end in its base name. */
  lemma LabelCandidates(p: string)
    requires Stable(p) && NormalizeProjectValue(p) != ""
    ensures var base := GetBaseProjectDisplayName(p);
      && EndsWith(base, base) && !EndsInSlash(base)
      && EndsWith(NormalizeProjectValue(p), base)
      && (IsPathLikeProject(p) ==> EndsWith(GetPathTail(p, 2), base) && !EndsInSlash(GetPathTail(p, 2)))
      && (!IsPathLikeProject(p) ==> EndsWith(p, base))
  {
    hide GetBaseProjectDisplayName, GetPathTail, IsPathLikeProject, NormalizeProjectValue, Split, NonEmpty;
    var base := GetBaseProjectDisplayName(p);
    BaseIsLastSegment(p);
    TailHasLastTwoSegments(p);
    if !IsPathLikeProject(p) { PlainProject(p); }
    assert Segments(NormalizeProjectValue(p)) == SplitPathSegments(p);
    TailOfPlain(base);
  }

  /** Whatever label a project gets, the label's last segment is the project's base name. */
  lemma LabelShowsBase(projects: seq<string>, p: string)
    requires Stable(p) && NormalizeProjectValue(p) != ""
    ensures EndsWith(FirstLabel(projects, p), GetBaseProjectDisplayName(p))
    ensures EndsWith(Label(projects, p), GetBaseProjectDisplayName(p))
    ensures FirstLabel(projects, p) == p || !EndsInSlash(FirstLabel(projects, p))
  {
    hide GetBaseProjectDisplayName, GetPathTail, IsPathLikeProject, NormalizeProjectValue, EndsWith, Occurrences;
    LabelCandidates(p);
  }

  /** A slash-only project keeps itself as first label, and such a text has no segment. */
  lemma SlashOnlyProject(projects: seq<string>, p: string)
    requires Stable(p) && NormalizeProjectValue(p) == ""
    ensures FirstLabel(projects, p) == p && Segments(p) == []
  {
    hide Trim, Split, NonEmpty;
    assert |StripTrailing(p, '/')| == |NormalizeProjectValue(p)|;
    SlashesHaveNoSegments(p);
    assert GetBaseProjectDisplayName(p) == p && !IsPathLikeProject(p);
    hide GetBaseProjectDisplayName, IsPathLikeProject, NormalizeProjectValue, Segments, Occurrences;
  }

  ghost predicate Clashes(projects: seq<string>, p: string) {
    Occurrences(FirstLabels(projects), FirstLabel(projects, p)) > 1
  }

  /** A raw name that is empty or ends in a slash is nobody else's first label. */
  lemma RawSlashLabelIsUnique(projects: seq<string>, p: string)
    requires forall q | q in projects :: Stable(q)
    requires p in projects && FirstLabel(projects, p) == p && (Segments(p) == [] || EndsInSlash(p))
    ensures !Clashes(projects, p)
  {
    ClashMeansAnother(projects, p);
    hide FirstLabel, Occurrences;
    forall q | q in projects && q != p ensures FirstLabel(projects, q) != p {
      if NormalizeProjectValue(q) == "" {
        SlashOnlyProject(projects, q);
      } else {
        LabelShowsBase(projects, q);
      }
    }
  }

  /** Slash-only projects keep their name; of the others, equal labels come from equal base names. */
  lemma EqualLabelsShareBase(projects: seq<string>, p: string, q: string)
    requires forall x | x in projects :: Stable(x)
    requires p in projects && q in projects && p != q && Label(projects, p) == Label(projects, q)
    ensures NormalizeProjectValue(p) != "" && NormalizeProjectValue(q) != ""
    ensures GetBaseProjectDisplayName(p) == GetBaseProjectDisplayName(q)
  {
    hide GetBaseProjectDisplayName, NormalizeProjectValue, FirstLabel, Occurrences, Segments;
    forall x | x in {p, q}
      ensures NormalizeProjectValue(x) == "" ==> Label(projects, x) == x && Segments(x) == []
      ensures NormalizeProjectValue(x) != "" ==> EndsWith(Label(projects, x), GetBaseProjectDisplayName(x))
    {
      if NormalizeProjectValue(x) == "" {
        SlashOnlyProject(projects, x);
        RawSlashLabelIsUnique(projects, x);
      } else {
        LabelShowsBase(projects, x);
      }
    }
  }

  /** A project that shares its base name is first labelled by itself or by two path segments. */
  lemma FirstLabelOfShared(projects: seq<string>, p: string, q: string)
    requires p in projects && q in projects && p != q
    requires GetBaseProjectDisplayName(p) == GetBaseProjectDisplayName(q)
    ensures FirstLabel(projects, p) == if IsPathLikeProject(p) then GetPathTail(p, 2) else p
  {
    SharedBaseIsCounted(projects, p, q);
  }

  /** A clashing project that is no path is its own normal form. */
  lemma ClashingPlainName(projects: seq<string>, p: string, q: string)
    requires forall x | x in projects :: Stable(x)
    requires p in projects && q in projects && p != q
    requires GetBaseProjectDisplayName(p) == GetBaseProjectDisplayName(q)
    requires !IsPathLikeProject(p) && NormalizeProjectValue(p) != "" && Clashes(projects, p)
    ensures p == NormalizeProjectValue(p)
  {
    FirstLabelOfShared(projects, p, q);
    StableNormalForm(p);
    if EndsInSlash(p) { RawSlashLabelIsUnique(projects, p); }
  }

  lemma LastTwoOfLastTwo(s: seq<string>, t: seq<string>)
    requires s != [] && t == s[Max(0, |s| - 2)..]
    ensures t != [] && t[Max(0, |t| - 2)..] == t
  {
  }

  /** If one project's normal form is another's two-segment tail, their two-segment tails agree. */
  lemma SameTail(p: string, q: string)
    requires Stable(q) && NormalizeProjectValue(q) != "" && NormalizeProjectValue(p) == GetPathTail(q, 2)
    ensures GetPathTail(p, 2) == GetPathTail(q, 2)
  {
    hide Split, NonEmpty, NormalizeProjectValue, Trim, Join;
    BaseIsLastSegment(q);
    TailHasLastTwoSegments(q);
    assert SplitPathSegments(p) == Segments(GetPathTail(q, 2));
    hide SplitPathSegments, Segments;
    LastTwoOfLastTwo(SplitPathSegments(q), SplitPathSegments(p));
  }

  /** The rewritten label of one project is never the untouched label of another. */
  lemma RewriteMissesOthers(projects: seq<string>, p: string, q: string)
    requires forall x | x in projects :: Stable(x)
    requires p in projects && q in projects && p != q
    requires GetBaseProjectDisplayName(p) == GetBaseProjectDisplayName(q)
    requires NormalizeProjectValue(p) != "" && NormalizeProjectValue(q) != ""
    requires Clashes(projects, p) && !Clashes(projects, q)
    ensures NormalizeProjectValue(p) != FirstLabel(projects, q)
  {
    ClashMeansAnother(projects, q);
    FirstLabelOfShared(projects, p, q);
    FirstLabelOfShared(projects, q, p);
    hide FirstLabel, Occurrences;
    if !IsPathLikeProject(p) {
      ClashingPlainName(projects, p, q);
    } else if IsPathLikeProject(q) && NormalizeProjectValue(p) == GetPathTail(q, 2) {
      SameTail(p, q);
    }
  }

  // ---------- Which label a project gets ----------

  ghost predicate SharesLast(p: string, q: string) {
    var s, t := SplitPathSegments(p), SplitPathSegments(q);
    s != [] && t != [] && s[|s| - 1] == t[|t| - 1]
  }

  ghost function LastTwo(s: seq<string>): seq<string> {
    if |s| < 2 then s else s[|s| - 2..]
  }

  ghost predicate SharesLastTwo(p: string, q: string) {
    var s, t := SplitPathSegments(p), SplitPathSegments(q);
    s != [] && t != [] && LastTwo(s) == LastTwo(t)
  }

  lemma EmptyFormHasNoSegments(q: string)
    requires Stable(q) && NormalizeProjectValue(q) == ""
    ensures SplitPathSegments(q) == [] && GetBaseProjectDisplayName(q) == q && Segments(q) == []
  {
    SlashOnlyProject([q], q);
    SlashesHaveNoSegments("");
  }

  lemma SegmentIsNoSlashes(segment: string)
    requires segment != "" && '/' !in segment
    ensures Segments(segment) == [segment]
  {
    TailOfPlain(segment);
  }

  lemma SharedBase(p: string, q: string)
    requires Stable(p) && Stable(q) && NormalizeProjectValue(p) != ""
    ensures GetBaseProjectDisplayName(p) == GetBaseProjectDisplayName(q) <==> SharesLast(p, q)
  {
    hide NormalizeProjectValue, GetBaseProjectDisplayName, SplitPathSegments, Stable, Segments;
    BaseIsLastSegment(p);
    if NormalizeProjectValue(q) != "" {
      BaseIsLastSegment(q);
    } else {
      EmptyFormHasNoSegments(q);
      SegmentIsNoSlashes(GetBaseProjectDisplayName(p));
    }
  }

  lemma UnsharedBaseIsCounted(projects: seq<string>, p: string)
    requires p in projects && multiset(projects)[p] == 1
    requires forall q | q in projects && q != p :: GetBaseProjectDisplayName(q) != GetBaseProjectDisplayName(p)
    ensures FirstLabel(projects, p) == GetBaseProjectDisplayName(p)
  {
    hide GetBaseProjectDisplayName, GetPathTail, IsPathLikeProject;
    var bases, base := Bases(projects), GetBaseProjectDisplayName(p);
    OccursTwice(bases, base);
    if i, j :| 0 <= i < j < |bases| && bases[i] == base && bases[j] == base {
      assert projects[i] == p && projects[j] == p;
      OccursTwice(projects, p);
    }
  }

  /** A label that ends like another project's is that of a project with its last segment. */
  lemma OthersEndOtherwise(projects: seq<string>, p: string, q: string, text: string)
    requires Stable(p) && Stable(q) && NormalizeProjectValue(p) != ""
    requires EndsWith(text, GetBaseProjectDisplayName(p)) && FirstLabel(projects, q) == text
    ensures SharesLast(p, q) && NormalizeProjectValue(q) != ""
  {
    hide NormalizeProjectValue, GetBaseProjectDisplayName, FirstLabel, Stable, SharesLast, Segments;
    SharedBase(p, q);
    if NormalizeProjectValue(q) == "" {
      SlashOnlyProject(projects, q);
    } else {
      LabelShowsBase(projects, q);
    }
  }

  /** Nobody else has its last segment: that is the label. */
  lemma UnsharedLabel(projects: seq<string>, p: string)
    requires forall x | x in projects :: Stable(x)
    requires p in projects && multiset(projects)[p] == 1 && NormalizeProjectValue(p) != ""
    requires forall q | q in projects && q != p :: !SharesLast(p, q)
    ensures var s := SplitPathSegments(p); s != [] && Label(projects, p) == s[|s| - 1]
  {
    ClashMeansAnother(projects, p);
    hide NormalizeProjectValue, GetBaseProjectDisplayName, SplitPathSegments, FirstLabel, Occurrences, Stable,
      SharesLast, Segments, EndsWith;
    forall q | q in projects && q != p ensures GetBaseProjectDisplayName(q) != GetBaseProjectDisplayName(p) {
      SharedBase(p, q);
    }
    UnsharedBaseIsCounted(projects, p);
    BaseIsLastSegment(p);
    LabelShowsBase(projects, p);
    forall q | q in projects && q != p ensures FirstLabel(projects, q) != FirstLabel(projects, p) {
      if FirstLabel(projects, q) == FirstLabel(projects, p) {
        OthersEndOtherwise(projects, p, q, FirstLabel(projects, p));
      }
    }
  }

  lemma LongTail(p: string)
    requires |SplitPathSegments(p)| > 1
    ensures var s := SplitPathSegments(p);
      GetPathTail(p, 2) == s[|s| - 2] + "/" + s[|s| - 1] && '/' in NormalizeProjectValue(p)
  {
    hide NonEmpty, Split;
    var s, n := SplitPathSegments(p), NormalizeProjectValue(p);
    if '/' !in n {
      if n == "" { SlashesHaveNoSegments(n); } else { TailOfPlain(n); }
    }
    hide NormalizeProjectValue, SplitPathSegments;
    var a, b := s[|s| - 2], s[|s| - 1];
    assert s[|s| - 2..] == [a, b] && [a, b][..1] == [a];
    assert Max(0, |s| - Max(1, 2)) == |s| - 2;
    assert Join([a, b]) == a + "/" + b;
  }

  lemma PathWithForm(p: string)
    requires '/' in NormalizeProjectValue(p)
    ensures IsPathLikeProject(p) && NormalizeProjectValue(p) != ""
  {
    hide NormalizeProjectValue;
  }

  /** A stable project that is no path and has no slash behind it has no slash at all. */
  lemma PlainHasNoSlash(q: string)
    requires Stable(q) && !IsPathLikeProject(q) && NormalizeProjectValue(q) != "" && !EndsInSlash(q)
    ensures '/' !in q
  {
    StableNormalForm(q);
    hide NormalizeProjectValue, Stable;
  }

  lemma TailIsLastTwo(p: string)
    requires SplitPathSegments(p) != []
    ensures LastTwo(SplitPathSegments(p)) == Segments(GetPathTail(p, 2))
    ensures GetPathTail(p, 2) == Join(LastTwo(SplitPathSegments(p)))
  {
    TailHasLastTwoSegments(p);
    hide SplitPathSegments, Segments, Join;
  }

  lemma SlashInside(a: string, b: string)
    ensures '/' in a + "/" + b
  {
    assert (a + "/" + b)[|a|] == '/';
  }

  /** Another project with this two-segment label has the same last two segments. */
  lemma SameLongLabel(projects: seq<string>, p: string, q: string)
    requires Stable(p) && Stable(q) && |SplitPathSegments(p)| > 1 && p in projects && q in projects && p != q
    requires FirstLabel(projects, q) == GetPathTail(p, 2)
    ensures IsPathLikeProject(q) && SharesLastTwo(p, q)
  {
    hide NormalizeProjectValue, GetBaseProjectDisplayName, SplitPathSegments, FirstLabel, Stable, SharesLast, Segments,
      EndsWith, IsPathLikeProject, GetPathTail, LastTwo, Join;
    LongTail(p);
    PathWithForm(p);
    TailIsLastTwo(p);
    TailHasLastTwoSegments(p);
    LabelCandidates(p);
    OthersEndOtherwise(projects, p, q, GetPathTail(p, 2));
    SharedBase(p, q);
    FirstLabelOfShared(projects, q, p);
    SlashInside(SplitPathSegments(p)[|SplitPathSegments(p)| - 2], SplitPathSegments(p)[|SplitPathSegments(p)| - 1]);
    if IsPathLikeProject(q) {
      BaseIsLastSegment(q);
      TailIsLastTwo(q);
    } else {
      PlainHasNoSlash(q);
    }
  }

  lemma UncontestedLabel(projects: seq<string>, p: string)
    requires p in projects && forall q | q in projects && q != p :: FirstLabel(projects, q) != FirstLabel(projects, p)
    ensures Label(projects, p) == FirstLabel(projects, p)
  {
    ClashMeansAnother(projects, p);
    hide FirstLabel, Occurrences;
  }

  /** Some other project has its last segment, but no other path its last two: those two are the label. */
  lemma TwoSegmentLabel(projects: seq<string>, p: string, other: string)
    requires forall x | x in projects :: Stable(x)
    requires p in projects && other in projects && other != p && SharesLast(p, other) && |SplitPathSegments(p)| > 1
    requires forall q | q in projects && q != p && IsPathLikeProject(q) :: !SharesLastTwo(p, q)
    ensures var s := SplitPathSegments(p); Label(projects, p) == s[|s| - 2] + "/" + s[|s| - 1]
  {
    hide NormalizeProjectValue, GetBaseProjectDisplayName, SplitPathSegments, FirstLabel, Label, Stable, SharesLast,
      IsPathLikeProject, Occurrences, SharesLastTwo, GetPathTail;
    LongTail(p);
    PathWithForm(p);
    SharedBase(p, other);
    FirstLabelOfShared(projects, p, other);
    forall q | q in projects && q != p ensures FirstLabel(projects, q) != FirstLabel(projects, p) {
      if FirstLabel(projects, q) == FirstLabel(projects, p) {
        SameLongLabel(projects, p, q);
      }
    }
    UncontestedLabel(projects, p);
  }

  lemma ContestedLabel(projects: seq<string>, p: string, other: string)
    requires p in projects && other in projects && other != p && FirstLabel(projects, other) == FirstLabel(projects, p)
    ensures Label(projects, p) == NormalizeProjectValue(p)
  {
    ClashMeansAnother(projects, p);
    hide FirstLabel, Occurrences, NormalizeProjectValue;
  }

  lemma LastOfLastTwo(s: seq<string>, t: seq<string>)
    requires s != [] && t != [] && LastTwo(s) == LastTwo(t)
    ensures s[|s| - 1] == t[|t| - 1]
  {
    assert LastTwo(s)[|LastTwo(s)| - 1] == s[|s| - 1] && LastTwo(t)[|LastTwo(t)| - 1] == t[|t| - 1];
  }

  lemma SharesBoth(p: string, q: string)
    requires SharesLastTwo(p, q)
    ensures SharesLast(p, q) && GetPathTail(p, 2) == GetPathTail(q, 2)
  {
    hide SplitPathSegments, Join, LastTwo, GetPathTail, Segments;
    LastOfLastTwo(SplitPathSegments(p), SplitPathSegments(q));
    TailIsLastTwo(p);
    TailIsLastTwo(q);
  }

  lemma PathHasForm(p: string)
    requires IsPathLikeProject(p)
    ensures NormalizeProjectValue(p) != ""
  {
    hide NormalizeProjectValue;
  }

  /** Another path has the same last two segments: the label is the whole path, normalised. */
  lemma FullPathLabel(projects: seq<string>, p: string, other: string)
    requires forall x | x in projects :: Stable(x)
    requires p in projects && other in projects && other != p
    requires IsPathLikeProject(p) && IsPathLikeProject(other) && SharesLastTwo(p, other)
    ensures Label(projects, p) == NormalizeProjectValue(p)
  {
    hide NormalizeProjectValue, GetBaseProjectDisplayName, FirstLabel, Label, Stable, SharesLast, IsPathLikeProject,
      SharesLastTwo, GetPathTail;
    PathHasForm(p);
    SharesBoth(p, other);
    SharedBase(p, other);
    FirstLabelOfShared(projects, p, other);
    FirstLabelOfShared(projects, other, p);
    ContestedLabel(projects, p, other);
  }

  // ---------- When labels are unique ----------

  ghost predicate LabelsUnique(projects: seq<string>) {
    forall p, q | p in projects && q in projects && p != q :: Label(projects, p) != Label(projects, q)
  }

  /** No two different paths of the list have one normal form. */
  ghost predicate PathsDiffer(projects: seq<string>) {
    forall p, q | p in projects && q in projects && p != q && IsPathLikeProject(p) && IsPathLikeProject(q) ::
      NormalizeProjectValue(p) != NormalizeProjectValue(q)
  }

  /** What the last loop writes meets neither another label it writes nor one it leaves alone. */
  ghost predicate RewritesAreFree(projects: seq<string>) {
    forall p, q | p in projects && q in projects && p != q && Clashes(projects, p) ::
      NormalizeProjectValue(p) != if Clashes(projects, q) then NormalizeProjectValue(q) else FirstLabel(projects, q)
  }

  /** For every list: labels are unique exactly when no rewritten label meets another project's. */
  lemma LabelsAreUniqueExactly(projects: seq<string>)
    ensures LabelsUnique(projects) <==> RewritesAreFree(projects)
  {
    hide FirstLabel, Occurrences, NormalizeProjectValue;
    if RewritesAreFree(projects) {
      forall p, q | p in projects && q in projects && p != q ensures Label(projects, p) != Label(projects, q) {
        ClashMeansAnother(projects, p);
        if Clashes(projects, p) {
        } else if Clashes(projects, q) {
          assert NormalizeProjectValue(q) != FirstLabel(projects, p);
        }
      }
    }
    if LabelsUnique(projects) {
      forall p, q | p in projects && q in projects && p != q && Clashes(projects, p)
        ensures NormalizeProjectValue(p) != Label(projects, q)
      {
        assert Label(projects, p) != Label(projects, q);
      }
    }
  }

  lemma RewriteIsFree(projects: seq<string>, p: string, q: string)
    requires forall x | x in projects :: Stable(x)
    requires PathsDiffer(projects) && p in projects && q in projects && p != q && Clashes(projects, p)
    ensures NormalizeProjectValue(p) != Label(projects, q)
  {
    hide GetBaseProjectDisplayName, FirstLabel, Occurrences;
    if NormalizeProjectValue(p) == Label(projects, q) {
      EqualLabelsShareBase(projects, p, q);
      if !Clashes(projects, q) {
        RewriteMissesOthers(projects, p, q);
      } else if !IsPathLikeProject(p) {
        ClashingPlainName(projects, p, q);
        ClashingPlainName(projects, q, p);
      }
    }
  }

  lemma SameForm(p: string, q: string)
    requires NormalizeProjectValue(p) == NormalizeProjectValue(q) != ""
    ensures GetBaseProjectDisplayName(p) == GetBaseProjectDisplayName(q)
    ensures GetPathTail(p, 2) == GetPathTail(q, 2)
  {
    hide NormalizeProjectValue, IsPathLikeProject, Split, NonEmpty;
  }

  /** Paths with one normal form do clash, and are rewritten to that very form. */
  lemma SameFormSameLabel(projects: seq<string>, p: string, q: string)
    requires p in projects && q in projects && p != q && IsPathLikeProject(p) && IsPathLikeProject(q)
    requires NormalizeProjectValue(p) == NormalizeProjectValue(q)
    ensures Label(projects, p) == Label(projects, q)
  {
    hide GetBaseProjectDisplayName, GetPathTail, NormalizeProjectValue, FirstLabel, Occurrences;
    SameForm(p, q);
    FirstLabelOfShared(projects, p, q);
    FirstLabelOfShared(projects, q, p);
    ClashMeansAnother(projects, p);
    ClashMeansAnother(projects, q);
  }

  lemma DifferentPathsAreFree(projects: seq<string>)
    requires forall p | p in projects :: Stable(p)
    requires PathsDiffer(projects)
    ensures RewritesAreFree(projects)
  {
    hide Stable, PathsDiffer, NormalizeProjectValue, FirstLabel, Occurrences, FirstLabels;
    forall p, q | p in projects && q in projects && p != q && Clashes(projects, p)
      ensures NormalizeProjectValue(p) != Label(projects, q)
    {
      RewriteIsFree(projects, p, q);
    }
  }

  lemma UniqueLabelsNeedDifferentPaths(projects: seq<string>)
    requires LabelsUnique(projects)
    ensures PathsDiffer(projects)
  {
    hide Label, IsPathLikeProject, NormalizeProjectValue;
    forall p, q | p in projects && q in projects && p != q && IsPathLikeProject(p) && IsPathLikeProject(q)
      ensures NormalizeProjectValue(p) != NormalizeProjectValue(q)
    {
      if NormalizeProjectValue(p) == NormalizeProjectValue(q) { SameFormSameLabel(projects, p, q); }
    }
  }

  /**
   * The last loop never counts the labels it writes, and yet for trimmed projects with a stable
   * normal form the map is injective exactly when the paths among them differ once normalised.
   */
  lemma LabelsAreUnique(projects: seq<string>)
    requires forall p | p in projects :: Stable(p)
    ensures LabelsUnique(projects) <==> PathsDiffer(projects)
  {
    hide RewritesAreFree, LabelsUnique, PathsDiffer, Stable;
    LabelsAreUniqueExactly(projects);
    if PathsDiffer(projects) { DifferentPathsAreFree(projects); }
    if LabelsUnique(projects) { UniqueLabelsNeedDifferentPaths(projects); }
  }

  /** In particular on names the normaliser leaves alone. */
  lemma NormalNamesGetUniqueLabels(projects: seq<string>)
    requires forall p | p in projects :: NormalizeProjectValue(p) == p
    ensures LabelsUnique(projects)
  {
    forall p | p in projects ensures Stable(p) { FixedPointsAreStable(p); }
    LabelsAreUnique(projects);
  }

  /** The normal forms of a plain name, with a slash, a backslash or a space added. */
  lemma PlainForms(s: string)
    requires IsPlain(s)
    ensures Trim(s) == s && Trim(s + ['/']) == s + ['/'] && Trim(s + ['\\']) == s + ['\\']
    ensures NormalizeProjectValue(s) == s == NormalizeProjectValue(s + ['/']) == NormalizeProjectValue([' '] + s)
    ensures NormalizeProjectValue(s + ['\\']) == s + ['/']
  {
    hide Trim, ReplaceAll, StripTrailing;
    NothingToTrim(s);
    NothingToTrim(s + ['/']);
    NothingToTrim(s + ['\\']);
    LeadingSpace(s);
    NoBackslash(s);
    BackslashLast(s);
    StripOne(s, '/');
    StripOne(s + ['\\'], '/');
  }

  lemma PlainTexts()
    ensures IsPlain("a") && IsPlain("/a") && IsPlain("/y/ a")
  {
  }

  lemma UntrimmedNormalForms()
    ensures NormalizeProjectValue(" a") == "a" == NormalizeProjectValue("a")
    ensures NormalizeProjectValue("/a") == "/a" && NormalizeProjectValue("/y/ a") == "/y/ a"
  {
    hide NormalizeProjectValue, Trim, IsPlain;
    PlainTexts();
    PlainForms("a");
    PlainForms("/a");
    PlainForms("/y/ a");
    assert [' '] + "a" == " a";
  }

  lemma AppendSegment(a: string, b: string)
    requires b != "" && '/' !in b
    ensures NonEmpty(Split(a + "/" + b)) == NonEmpty(Split(a)) + [b]
  {
    SplitAppends(a, b);
    hide Split;
    var r := Split(a) + [b];
    assert r[..|r| - 1] == Split(a);
  }

  lemma UntrimmedSegments()
    ensures SplitPathSegments("/a") == ["a"] && SplitPathSegments("/y/ a") == ["y", " a"]
  {
    hide NormalizeProjectValue, Split, NonEmpty;
    SlashesHaveNoSegments("");
    UntrimmedNormalForms();
    AppendSegment("", "a");
    assert "" + "/" + "a" == "/a" && [] + ["a"] == ["a"];
    AppendSegment("", "y");
    assert "" + "/" + "y" == "/y" && [] + ["y"] == ["y"];
    AppendSegment("/y", " a");
    assert "/y" + "/" + " a" == "/y/ a" && ["y"] + [" a"] == ["y", " a"];
  }

  lemma UntrimmedFirstLabels()
    ensures var projects := [" a", "/a", "/y/ a"];
      FirstLabel(projects, " a") == " a" == FirstLabel(projects, "/y/ a") && FirstLabel(projects, "/a") == "a"
  {
    hide NormalizeProjectValue, SplitPathSegments, Split, NonEmpty, Occurrences;
    var projects := [" a", "/a", "/y/ a"];
    UntrimmedNormalForms();
    UntrimmedSegments();
    var names := Bases(projects);
    assert names[0] == "a" && names[1] == "a" && names[2] == " a";
    OccursTwice(names, "a");
    OccursTwice(names, " a");
    assert GetPathTail("/a", 2) == "a";
  }

  /** Trimming is needed: here the rewritten name of the first project is the label of the second. */
  lemma UntrimmedNamesCollide()
    ensures var projects := [" a", "/a", "/y/ a"];
      PathsDiffer(projects) && Label(projects, " a") == "a" == Label(projects, "/a")
  {
    hide NormalizeProjectValue, GetBaseProjectDisplayName, GetPathTail, FirstLabel, Occurrences;
    var projects := [" a", "/a", "/y/ a"];
    UntrimmedNormalForms();
    UntrimmedFirstLabels();
    ClashMeansAnother(projects, " a");
    ClashMeansAnother(projects, "/a");
  }

  lemma UnstableNormalForms()
    ensures Trim("x\\") == "x\\" && Trim("x/") == "x/" && Trim("x") == "x"
    ensures NormalizeProjectValue("x\\") == "x/" && NormalizeProjectValue("x/") == "x" == NormalizeProjectValue("x")
  {
    hide Trim, NormalizeProjectValue;
    PlainForms("x");
    assert "x" + ['\\'] == "x\\" && "x" + ['/'] == "x/";
  }

  lemma UnstableFirstLabels()
    ensures var projects := ["x\\", "x/", "x"];
      FirstLabel(projects, "x\\") == "x/" == FirstLabel(projects, "x/") && FirstLabel(projects, "x") == "x"
  {
    hide Trim, NormalizeProjectValue, SplitPathSegments, Occurrences, GetPathTail;
    var projects := ["x\\", "x/", "x"];
    UnstableNormalForms();
    var names := Bases(projects);
    assert names[0] == "x/" && names[1] == "x" && names[2] == "x";
    OccursTwice(names, "x");
    OccursTwice(names, "x/");
  }

  lemma OnePathOnly()
    ensures PathsDiffer(["x\\", "x/", "x"])
  {
    hide NormalizeProjectValue, Trim;
    UnstableNormalForms();
    assert !IsPathLikeProject("x/") && !IsPathLikeProject("x");
  }

  /** So is a stable normal form: here the normal form of the first project still ends in a slash. */
  lemma UnstableNamesCollide()
    ensures var projects := ["x\\", "x/", "x"];
      && (forall p | p in projects :: Trim(p) == p)
      && PathsDiffer(projects) && Label(projects, "x/") == "x" == Label(projects, "x")
  {
    hide Trim, NormalizeProjectValue, GetBaseProjectDisplayName, GetPathTail, FirstLabel, Occurrences, PathsDiffer;
    var projects := ["x\\", "x/", "x"];
    UnstableNormalForms();
    UnstableFirstLabels();
    OnePathOnly();
    ClashMeansAnother(projects, "x/");
    ClashMeansAnother(projects, "x");
  }
}
