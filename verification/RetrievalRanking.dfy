/** Scoring and ranking one query: `scripts/s108-retrieval-ablation.ts`, lines 652-705. */
module RetrievalRanking {
  import opened RetrievalScores
  import opened RetrievalVectors
  import opened RetrievalGraph

  datatype Toggles = Toggles(lexical: bool, vector: bool, codeToken: bool, queryExpansion: bool,
                             recency: bool, entity: bool, graph: bool)

  /** What the tokenisers make of a query. */
  datatype Query = Query(simpleTokens: seq<string>, codeTokens: seq<string>,
                         expandedSimpleTokens: seq<string>, expandedCodeTokens: seq<string>,
                         entities: seq<string>)

  datatype Indexes = Indexes(simpleIdf: map<string, real>, codeIdf: map<string, real>,
                             entityIndex: EntityIndex, corpusById: map<string, CorpusEntry>)

  /** `upTo(a, b)` stands for `a.localeCompare(b) <= 0`. */
  datatype Setting = Setting(math: MathLibrary, upTo: (string, string) -> bool, toggles: Toggles, query: Query) {
    function Mode(): TokenMode {
      if toggles.codeToken then CodeMode else SimpleMode
    }

    function QueryTokens(): seq<string> {
      if toggles.codeToken
      then if toggles.queryExpansion then query.expandedCodeTokens else query.codeTokens
      else if toggles.queryExpansion then query.expandedSimpleTokens else query.simpleTokens
    }

    ghost predicate TotalOrder() {
      && (forall a, b :: upTo(a, b) || upTo(b, a))
      && (forall a, b | upTo(a, b) && upTo(b, a) :: a == b)
      && (forall a, b, c | upTo(a, b) && upTo(b, c) :: upTo(a, c))
    }
  }

  // ---------- Sorting ----------

  predicate Newer(x: Candidate, y: Candidate) {
    x.timestampMs.Some? && y.timestampMs.Some? && x.timestampMs.value > y.timestampMs.value
  }

  /** `x` may stand before `y`: by score, then the newer if both are dated, then by id. */
  predicate InOrder(upTo: (string, string) -> bool, x: Candidate, y: Candidate) {
    x.score > y.score
    || (x.score == y.score && (Newer(x, y) || (!Newer(y, x) && upTo(x.id, y.id))))
  }

  ghost predicate Dated(s: seq<Candidate>) {
    forall x | x in s :: x.timestampMs.Some?
  }

  function Insert(upTo: (string, string) -> bool, s: seq<Candidate>, x: Candidate): (r: seq<Candidate>)
    ensures multiset(r) == multiset(s) + multiset{x}
  {
    var n := |s| - 1;
    if s == [] || InOrder(upTo, s[n], x) then s + [x] else
      assert s == s[..n] + [s[n]];
      Insert(upTo, s[..n], x) + [s[n]]
  }

  /** A stable sort, as `sort` is. */
  function Sorted(upTo: (string, string) -> bool, s: seq<Candidate>): (r: seq<Candidate>)
    ensures multiset(r) == multiset(s)
    ensures |r| == |s|
  {
    if s == [] then [] else
      var n := |s| - 1;
      assert s == s[..n] + [s[n]];
      var r := Insert(upTo, Sorted(upTo, s[..n]), s[n]);
      assert |multiset(r)| == |multiset(s)|;
      r
  }

  method SortInPlace(a: array<Candidate>, upTo: (string, string) -> bool)
    modifies a
    ensures a[..] == Sorted(upTo, old(a[..]))
  {
    var s := Sorted(upTo, a[..]);
    forall i | 0 <= i < a.Length {
      a[i] := s[i];
    }
  }

  lemma SortedMembers(upTo: (string, string) -> bool, s: seq<Candidate>)
    ensures forall x :: x in Sorted(upTo, s) <==> x in s
  {
    forall x ensures x in Sorted(upTo, s) <==> x in s {
      assert x in multiset(Sorted(upTo, s)) <==> x in multiset(s);
    }
  }

  ghost predicate Ordered(upTo: (string, string) -> bool, s: seq<Candidate>) {
    forall i, j | 0 <= i < j < |s| :: InOrder(upTo, s[i], s[j])
  }

  ghost predicate OneCandidatePerId(s: seq<Candidate>) {
    forall x, y | x in s && y in s && x.id == y.id :: x == y
  }

  lemma InOrderIsTotal(c: Setting, x: Candidate, y: Candidate)
    requires c.TotalOrder()
    ensures InOrder(c.upTo, x, y) || InOrder(c.upTo, y, x)
    ensures InOrder(c.upTo, x, y) && InOrder(c.upTo, y, x) ==> x.id == y.id
    ensures InOrder(c.upTo, x, x)
  {
  }

  lemma InOrderIsTransitive(c: Setting, x: Candidate, y: Candidate, z: Candidate)
    requires c.TotalOrder() && InOrder(c.upTo, x, y) && InOrder(c.upTo, y, z) && Dated([x, y, z])
    ensures InOrder(c.upTo, x, z)
  {
    assert x in [x, y, z] && y in [x, y, z] && z in [x, y, z];
  }

  lemma {:induction false} InsertKeepsOrder(c: Setting, s: seq<Candidate>, x: Candidate)
    requires c.TotalOrder() && Ordered(c.upTo, s) && Dated(s) && x.timestampMs.Some?
    ensures Ordered(c.upTo, Insert(c.upTo, s, x))
  {
    var r := Insert(c.upTo, s, x);
    var n := |s| - 1;
    hide InOrder, Setting.TotalOrder;
    if s == [] {
    } else if InOrder(c.upTo, s[n], x) {
      forall i | 0 <= i <= n ensures InOrder(c.upTo, s[i], x) {
        if i < n { InOrderIsTransitive(c, s[i], s[n], x); }
      }
    } else {
      InsertKeepsOrder(c, s[..n], x);
      InOrderIsTotal(c, s[n], x);
      var init := Insert(c.upTo, s[..n], x);
      assert r == init + [s[n]];
      forall i | 0 <= i < |init| ensures InOrder(c.upTo, init[i], s[n]) {
        assert init[i] in multiset(init);
        if init[i] != x { assert init[i] in s[..n]; }
      }
    }
  }

  lemma {:induction false} SortedIsOrdered(c: Setting, s: seq<Candidate>)
    requires c.TotalOrder() && Dated(s)
    ensures Ordered(c.upTo, Sorted(c.upTo, s))
  {
    if s == [] {
    } else {
      var n := |s| - 1;
      SortedIsOrdered(c, s[..n]);
      SortedMembers(c.upTo, s[..n]);
      assert s[n] in s;
      InsertKeepsOrder(c, Sorted(c.upTo, s[..n]), s[n]);
    }
  }

  lemma SameHead(c: Setting, s: seq<Candidate>, t: seq<Candidate>)
    requires c.TotalOrder() && Ordered(c.upTo, s) && Ordered(c.upTo, t)
    requires multiset(s) == multiset(t) && OneCandidatePerId(s) && s != []
    ensures t != [] && s[0] == t[0]
  {
    hide InOrder, Setting.TotalOrder;
    assert s[0] in multiset(t);
    assert t[0] in multiset(s);
    var i :| 0 <= i < |t| && t[i] == s[0];
    var j :| 0 <= j < |s| && s[j] == t[0];
    InOrderIsTotal(c, s[0], s[0]);
    InOrderIsTotal(c, s[0], t[0]);
    assert InOrder(c.upTo, s[0], t[0]) && InOrder(c.upTo, t[0], s[0]);
  }

  lemma RemoveAt<T>(s: seq<T>, j: nat)
    requires j < |s|
    ensures multiset(s[..j] + s[j + 1..]) == multiset(s) - multiset{s[j]}
  {
    assert s == s[..j] + [s[j]] + s[j + 1..];
    assert multiset(s) == multiset(s[..j]) + multiset{s[j]} + multiset(s[j + 1..]);
  }

  lemma TailHasOnePerId(s: seq<Candidate>)
    requires OneCandidatePerId(s) && s != []
    ensures OneCandidatePerId(s[1..])
  {
    forall x | x in s[1..] ensures x in s {
      var i :| 0 <= i < |s| - 1 && s[1..][i] == x;
      assert s[i + 1] == x;
    }
  }

  lemma TailIsOrdered(c: Setting, s: seq<Candidate>)
    requires Ordered(c.upTo, s) && s != []
    ensures Ordered(c.upTo, s[1..])
  {
    hide InOrder;
    forall i, j | 0 <= i < j < |s| - 1 ensures InOrder(c.upTo, s[1..][i], s[1..][j]) {
      assert s[1..][i] == s[i + 1] && s[1..][j] == s[j + 1];
    }
  }

  lemma OrderedTail(c: Setting, s: seq<Candidate>)
    requires Ordered(c.upTo, s) && OneCandidatePerId(s) && s != []
    ensures Ordered(c.upTo, s[1..]) && OneCandidatePerId(s[1..])
    ensures s == [s[0]] + s[1..] && multiset(s[1..]) == multiset(s) - multiset{s[0]}
  {
    hide InOrder, OneCandidatePerId, Ordered;
    TailIsOrdered(c, s);
    TailHasOnePerId(s);
    RemoveAt(s, 0);
    assert s[..0] + s[1..] == s[1..];
  }

  lemma SameIds(s: seq<Candidate>, t: seq<Candidate>)
    requires multiset(s) == multiset(t) && OneCandidatePerId(s)
    ensures OneCandidatePerId(t)
  {
    forall x | x in t ensures x in s { assert x in multiset(t); }
  }

  /** Two ordered arrangements of the same candidates are one arrangement. */
  lemma {:induction false} OrderedIsUnique(c: Setting, s: seq<Candidate>, t: seq<Candidate>)
    requires c.TotalOrder() && Ordered(c.upTo, s) && Ordered(c.upTo, t)
    requires multiset(s) == multiset(t) && OneCandidatePerId(s)
    ensures s == t
  {
    hide Ordered, OneCandidatePerId, Setting.TotalOrder;
    assert |multiset(s)| == |s| && |multiset(t)| == |t|;
    if s == [] {
    } else {
      SameIds(s, t);
      SameHead(c, s, t);
      OrderedTail(c, s);
      OrderedTail(c, t);
      OrderedIsUnique(c, s[1..], t[1..]);
    }
  }

  lemma SortForgetsOrder(c: Setting, s: seq<Candidate>, t: seq<Candidate>)
    requires c.TotalOrder() && multiset(s) == multiset(t) && OneCandidatePerId(s) && Dated(s)
    ensures Sorted(c.upTo, s) == Sorted(c.upTo, t)
  {
    forall x | x in t ensures x.timestampMs.Some? { assert x in multiset(s); }
    SortedIsOrdered(c, s);
    SortedIsOrdered(c, t);
    var r := Sorted(c.upTo, s);
    forall x | x in r ensures x in s { assert x in multiset(r); }
    OrderedIsUnique(c, r, Sorted(c.upTo, t));
  }

  // ---------- Scoring ----------

  ghost function SignalsOf(c: Setting, ix: Indexes, corpus: seq<CorpusEntry>, entry: CorpusEntry): Signals
    requires corpus != []
  {
    var t, idf := c.toggles, if c.toggles.codeToken then ix.codeIdf else ix.simpleIdf;
    Signals(
      if t.lexical then Overlap(c.math, c.QueryTokens(), Tokens(entry, c.Mode()), idf) else 0.0,
      if t.vector then CosineOf(c.math, Vectorized(c.QueryTokens()), Vectorized(entry.codeTokens)) else 0.0,
      if t.recency then Recency(c.math, entry, corpus) else 0.0,
      if t.entity then EntityScore(c.query.entities, entry.entities) else 0.0,
      0.0)
  }

  function BaseScore(t: Toggles, s: Signals): real {
    (if t.vector then 0.32 else 0.76) * s.lexical
    + (if t.vector then 0.34 * s.vector else 0.0)
    + (if t.recency then 0.08 * s.recency else 0.0)
    + (if t.entity then 0.18 * s.entity else 0.0)
  }

  ghost function Scored(c: Setting, ix: Indexes, corpus: seq<CorpusEntry>, entry: CorpusEntry): Candidate
    requires corpus != []
  {
    var s := SignalsOf(c, ix, corpus, entry);
    Candidate(entry.id, BaseScore(c.toggles, s), s, entry.timestampMs)
  }

  /** The candidates for some of the entries, scored as entries of the whole corpus. */
  ghost function Prelim(c: Setting, ix: Indexes, corpus: seq<CorpusEntry>, entries: seq<CorpusEntry>): (r: seq<Candidate>)
    requires entries != [] ==> corpus != []
    ensures |r| == |entries|
    ensures forall i | 0 <= i < |entries| :: r[i] == Scored(c, ix, corpus, entries[i])
  {
    if entries == [] then [] else
      var n := |entries| - 1;
      Prelim(c, ix, corpus, entries[..n]) + [Scored(c, ix, corpus, entries[n])]
  }

  function Boosted(x: Candidate, graph: real): Candidate {
    x.(score := x.score + 0.08 * graph, signals := x.signals.(graph := graph))
  }

  ghost function GraphScore(ix: Indexes, base: seq<Candidate>, id: string): real {
    ScanScore(Seeds(base), ix.corpusById, ix.entityIndex, id)
  }

  ghost function Rescored(ix: Indexes, base: seq<Candidate>): (r: seq<Candidate>)
    ensures |r| == |base|
    ensures forall i | 0 <= i < |base| :: r[i] == Boosted(base[i], GraphScore(ix, base, base[i].id))
  {
    seq(|base|, i requires 0 <= i < |base| => Boosted(base[i], GraphScore(ix, base, base[i].id)))
  }

  ghost function Ranked(c: Setting, ix: Indexes, corpus: seq<CorpusEntry>): seq<Candidate> {
    var base := Sorted(c.upTo, Prelim(c, ix, corpus, corpus));
    if c.toggles.graph then Sorted(c.upTo, Rescored(ix, base)) else base
  }

  /** The callback of the `map` over the corpus. */
  method ScoreEntry(c: Setting, ix: Indexes, corpus: seq<CorpusEntry>, entry: CorpusEntry, queryVector: Vector)
    returns (candidate: Candidate)
    requires c.math.Sound() && corpus != [] && queryVector == Vectorized(c.QueryTokens())
    ensures candidate == Scored(c, ix, corpus, entry)
  {
    hide MathLibrary.Sound, Overlap, CosineOf, Vectorized, Recency, EntityScore, Setting.QueryTokens, Setting.Mode, Tokens, Vector.Valid;
    var idf := if c.toggles.codeToken then ix.codeIdf else ix.simpleIdf;
    var lexical, vector := 0.0, 0.0;
    if c.toggles.lexical {
      lexical := OverlapScore(c.math, c.QueryTokens(), Tokens(entry, c.Mode()), idf);
    }
    if c.toggles.vector {
      var docVector := Vectorize(entry.codeTokens);
      VectorMeaning(c.QueryTokens());
      VectorMeaning(entry.codeTokens);
      vector := Cosine(c.math, queryVector, docVector);
    }
    var recency := if c.toggles.recency then Recency(c.math, entry, corpus) else 0.0;
    var entity := if c.toggles.entity then EntityScore(c.query.entities, entry.entities) else 0.0;
    var signals := Signals(lexical, vector, recency, entity, 0.0);
    var score := (if c.toggles.vector then 0.32 else 0.76) * lexical
      + (if c.toggles.vector then 0.34 * vector else 0.0)
      + (if c.toggles.recency then 0.08 * recency else 0.0)
      + (if c.toggles.entity then 0.18 * entity else 0.0);
    candidate := Candidate(entry.id, score, signals, entry.timestampMs);
  }

  /** The `map` over the corpus. */
  method ScoreEntries(c: Setting, corpus: seq<CorpusEntry>, ix: Indexes) returns (prelim: array<Candidate>)
    requires c.math.Sound()
    ensures fresh(prelim) && prelim[..] == Prelim(c, ix, corpus, corpus)
  {
    hide MathLibrary.Sound, Scored, Prelim, Vectorized, Setting.QueryTokens;
    var queryVector := Vectorize(c.QueryTokens());
    var scored: seq<Candidate> := [];
    for i := 0 to |corpus|
      invariant |scored| == i
      invariant forall k | 0 <= k < i :: scored[k] == Prelim(c, ix, corpus, corpus)[k]
    {
      var candidate := ScoreEntry(c, ix, corpus, corpus[i], queryVector);
      scored := scored + [candidate];
    }
    prelim := new Candidate[|scored|](i requires 0 <= i < |scored| => scored[i]);
    assert prelim[..] == scored == Prelim(c, ix, corpus, corpus);
  }

  method RankCase(c: Setting, corpus: seq<CorpusEntry>, ix: Indexes) returns (prelim: array<Candidate>)
    requires c.math.Sound()
    ensures fresh(prelim) && prelim[..] == Ranked(c, ix, corpus)
  {
    hide MathLibrary.Sound, Sorted, Prelim, Rescored, ScanScore, Seeds, Boosted, GetOr;
    prelim := ScoreEntries(c, corpus, ix);
    if c.toggles.graph {
      SortInPlace(prelim, c.upTo);
      ghost var base := prelim[..];
      var graph := GraphScores(prelim[..], ix.corpusById, ix.entityIndex);
      for i := 0 to prelim.Length
        invariant forall k | 0 <= k < i :: prelim[k] == Rescored(ix, base)[k]
        invariant forall k | i <= k < prelim.Length :: prelim[k] == base[k]
      {
        prelim[i] := Boosted(prelim[i], GetOr(graph, prelim[i].id, 0.0));
      }
      assert prelim[..] == Rescored(ix, base);
    }
    SortInPlace(prelim, c.upTo);
  }

  // ---------- The indexes of a corpus ----------

  ghost predicate IndexesFor(math: MathLibrary, corpus: seq<CorpusEntry>, ix: Indexes) {
    && IsIdf(math, corpus, SimpleMode, ix.simpleIdf)
    && IsIdf(math, corpus, CodeMode, ix.codeIdf)
    && IsIndex(ix.entityIndex, corpus)
    && ix.corpusById == CorpusById(corpus)
  }

  method BuildIndexes(math: MathLibrary, corpus: seq<CorpusEntry>) returns (ix: Indexes)
    ensures IndexesFor(math, corpus, ix)
  {
    var simpleIdf := BuildIdf(math, corpus, SimpleMode);
    var codeIdf := BuildIdf(math, corpus, CodeMode);
    var entityIndex := BuildEntityIndex(corpus);
    ix := Indexes(simpleIdf, codeIdf, entityIndex, CorpusById(corpus));
  }

  /** The same entries, in whatever order. */
  ghost predicate Shuffled(s: seq<CorpusEntry>, t: seq<CorpusEntry>) {
    multiset(s) == multiset(t)
  }

  ghost function Without(s: seq<CorpusEntry>, j: nat): seq<CorpusEntry>
    requires j < |s|
  {
    s[..j] + s[j + 1..]
  }

  /** A shuffle of `s` holds the last entry of `s` somewhere, and without it is a shuffle of the rest. */
  lemma FindLast(s: seq<CorpusEntry>, t: seq<CorpusEntry>) returns (j: nat)
    requires Shuffled(s, t) && s != []
    ensures j < |t| && t[j] == s[|s| - 1] && Shuffled(s[..|s| - 1], Without(t, j))
  {
    var n := |s| - 1;
    assert s[n] in multiset(t);
    j :| 0 <= j < |t| && t[j] == s[n];
    RemoveAt(t, j);
    RemoveAt(s, n);
    assert s[..n] + s[n + 1..] == s[..n];
  }

  lemma WithoutSteps(s: seq<CorpusEntry>, j: nat)
    requires j < |s| - 1
    ensures var n, rest := |s| - 1, Without(s, j);
      rest != [] && rest[..|rest| - 1] == Without(s[..n], j) && rest[|rest| - 1] == s[n] && s[..n][j] == s[j]
  {
    var n := |s| - 1;
    assert s[..n][..j] == s[..j];
    assert s[j + 1..] == s[..n][j + 1..] + [s[n]];
  }

  lemma SameMembers(s: seq<CorpusEntry>, t: seq<CorpusEntry>)
    requires Shuffled(s, t)
    ensures |s| == |t| && forall entry :: entry in s <==> entry in t
  {
    assert |multiset(s)| == |s| && |multiset(t)| == |t|;
    forall entry ensures entry in s <==> entry in t {
      assert entry in multiset(s) <==> entry in multiset(t);
    }
  }

  lemma {:induction false} FrequencyWithout(s: seq<CorpusEntry>, j: nat, mode: TokenMode, token: string)
    requires j < |s|
    ensures DocumentFrequency(s, mode, token)
         == DocumentFrequency(Without(s, j), mode, token) + if token in Tokens(s[j], mode) then 1 else 0
  {
    var n := |s| - 1;
    if j == n {
      assert Without(s, j) == s[..n];
    } else {
      hide Tokens, Without;
      WithoutSteps(s, j);
      FrequencyWithout(s[..n], j, mode, token);
    }
  }

  lemma {:induction false} FrequencyOfShuffled(s: seq<CorpusEntry>, t: seq<CorpusEntry>, mode: TokenMode, token: string)
    requires Shuffled(s, t)
    ensures DocumentFrequency(s, mode, token) == DocumentFrequency(t, mode, token)
  {
    SameMembers(s, t);
    if s == [] {
    } else {
      var j := FindLast(s, t);
      FrequencyOfShuffled(s[..|s| - 1], Without(t, j), mode, token);
      FrequencyWithout(t, j, mode, token);
    }
  }

  lemma SameIdf(math: MathLibrary, s: seq<CorpusEntry>, t: seq<CorpusEntry>, mode: TokenMode,
                idf1: map<string, real>, idf2: map<string, real>)
    requires Shuffled(s, t) && IsIdf(math, s, mode, idf1) && IsIdf(math, t, mode, idf2)
    ensures idf1 == idf2
  {
    SameMembers(s, t);
    hide Shuffled, DocumentFrequency, InverseFrequency;
    forall token ensures token in idf1 <==> token in idf2 {
      assert KnownToken(s, mode, token) <==> KnownToken(t, mode, token);
    }
    forall token | token in idf1 ensures idf1[token] == idf2[token] {
      FrequencyOfShuffled(s, t, mode, token);
    }
  }

  lemma SameIndex(s: seq<CorpusEntry>, t: seq<CorpusEntry>, index1: EntityIndex, index2: EntityIndex)
    requires Shuffled(s, t) && IsIndex(index1, s) && IsIndex(index2, t)
    ensures index1 == index2
  {
    SameMembers(s, t);
    forall entity ensures GetOr(index1, entity, {}) == GetOr(index2, entity, {}) {
      forall id ensures id in GetOr(index1, entity, {}) <==> id in GetOr(index2, entity, {}) {
        assert Names(s, id, entity) <==> Names(t, id, entity);
      }
    }
    hide Names, Shuffled;
    forall entity ensures entity in index1 <==> entity in index2 {
      assert GetOr(index1, entity, {}) == GetOr(index2, entity, {});
    }
    forall entity | entity in index1 ensures index1[entity] == index2[entity] {
      assert GetOr(index1, entity, {}) == GetOr(index2, entity, {});
    }
  }

  lemma SameCorpusById(s: seq<CorpusEntry>, t: seq<CorpusEntry>)
    requires Shuffled(s, t) && IdsIdentify(s)
    ensures IdsIdentify(t) && CorpusById(s) == CorpusById(t)
  {
    SameMembers(s, t);
    hide CorpusById, Shuffled;
  }

  lemma SameIndexes(math: MathLibrary, s: seq<CorpusEntry>, t: seq<CorpusEntry>, ix1: Indexes, ix2: Indexes)
    requires Shuffled(s, t) && IdsIdentify(s) && IndexesFor(math, s, ix1) && IndexesFor(math, t, ix2)
    ensures ix1 == ix2
  {
    hide Shuffled, IsIdf, IsIndex, IdsIdentify;
    SameIdf(math, s, t, SimpleMode, ix1.simpleIdf, ix2.simpleIdf);
    SameIdf(math, s, t, CodeMode, ix1.codeIdf, ix2.codeIdf);
    SameIndex(s, t, ix1.entityIndex, ix2.entityIndex);
    SameCorpusById(s, t);
  }

  // ---------- The order of the corpus does not matter ----------

  /** Of the corpus a score only uses the newest time stamp. */
  lemma SameRecency(math: MathLibrary, s: seq<CorpusEntry>, t: seq<CorpusEntry>, entry: CorpusEntry)
    requires Shuffled(s, t) && s != []
    ensures t != [] && Recency(math, entry, s) == Recency(math, entry, t)
  {
    hide Shuffled, Latest;
    SameMembers(s, t);
    assert AllDated(s) <==> AllDated(t);
    assert AllDated(s) ==> Latest(s) == Latest(t);
  }

  lemma SameScores(c: Setting, ix: Indexes, s: seq<CorpusEntry>, t: seq<CorpusEntry>, entry: CorpusEntry)
    requires Shuffled(s, t) && s != []
    ensures t != [] && Scored(c, ix, s, entry) == Scored(c, ix, t, entry)
  {
    hide Shuffled, Recency, Overlap, CosineOf, Vectorized, EntityScore, BaseScore, Tokens, Setting.QueryTokens, Setting.Mode;
    SameRecency(c.math, s, t, entry);
  }

  lemma PrelimStep(c: Setting, ix: Indexes, corpus: seq<CorpusEntry>, s: seq<CorpusEntry>)
    requires corpus != [] && s != []
    ensures var n := |s| - 1;
      multiset(Prelim(c, ix, corpus, s)) == multiset(Prelim(c, ix, corpus, s[..n])) + multiset{Scored(c, ix, corpus, s[n])}
  {
    hide Scored;
  }

  lemma WithoutLast(s: seq<CorpusEntry>)
    requires s != []
    ensures Without(s, |s| - 1) == s[..|s| - 1]
  {
  }

  lemma {:induction false} PrelimWithout(c: Setting, ix: Indexes, corpus: seq<CorpusEntry>, s: seq<CorpusEntry>, j: nat)
    requires corpus != [] && j < |s|
    ensures multiset(Prelim(c, ix, corpus, s))
         == multiset(Prelim(c, ix, corpus, Without(s, j))) + multiset{Scored(c, ix, corpus, s[j])}
  {
    hide Scored, Prelim, Without;
    var n := |s| - 1;
    PrelimStep(c, ix, corpus, s);
    if j == n {
      WithoutLast(s);
    } else {
      WithoutSteps(s, j);
      PrelimWithout(c, ix, corpus, s[..n], j);
      PrelimStep(c, ix, corpus, Without(s, j));
    }
  }

  lemma NoPrelim(c: Setting, ix: Indexes, corpus: seq<CorpusEntry>)
    ensures Prelim(c, ix, corpus, []) == []
  {
  }

  lemma {:induction false} PrelimOfShuffled(c: Setting, ix: Indexes, corpus1: seq<CorpusEntry>, corpus2: seq<CorpusEntry>,
                                           s: seq<CorpusEntry>, t: seq<CorpusEntry>)
    requires Shuffled(corpus1, corpus2) && Shuffled(s, t) && corpus1 != [] && corpus2 != []
    ensures multiset(Prelim(c, ix, corpus1, s)) == multiset(Prelim(c, ix, corpus2, t))
  {
    hide Scored, Shuffled, Prelim;
    SameMembers(s, t);
    if s == [] {
      assert t == [];
      NoPrelim(c, ix, corpus1);
      NoPrelim(c, ix, corpus2);
    } else {
      var n := |s| - 1;
      var j := FindLast(s, t);
      PrelimStep(c, ix, corpus1, s);
      PrelimOfShuffled(c, ix, corpus1, corpus2, s[..n], Without(t, j));
      PrelimWithout(c, ix, corpus2, t, j);
      SameScores(c, ix, corpus1, corpus2, s[n]);
    }
  }

  lemma PrelimIds(c: Setting, ix: Indexes, corpus: seq<CorpusEntry>)
    requires IdsIdentify(corpus)
    ensures OneCandidatePerId(Prelim(c, ix, corpus, corpus))
  {
    hide Prelim, SignalsOf, BaseScore;
    var p := Prelim(c, ix, corpus, corpus);
    forall x, y | x in p && y in p && x.id == y.id ensures x == y {
      var i :| 0 <= i < |p| && p[i] == x;
      var j :| 0 <= j < |p| && p[j] == y;
      assert corpus[i] in corpus && corpus[j] in corpus;
    }
  }

  lemma PrelimDates(c: Setting, ix: Indexes, corpus: seq<CorpusEntry>)
    requires AllDated(corpus)
    ensures Dated(Prelim(c, ix, corpus, corpus))
  {
    hide Prelim, SignalsOf, BaseScore;
    var p := Prelim(c, ix, corpus, corpus);
    forall x | x in p ensures x.timestampMs.Some? {
      var i :| 0 <= i < |p| && p[i] == x;
      assert corpus[i] in corpus;
    }
  }

  /** Shuffling the corpus, indexes and all, leaves the whole ranking as it is. */
  lemma CorpusOrderIsIrrelevant(c: Setting, s: seq<CorpusEntry>, t: seq<CorpusEntry>, ix1: Indexes, ix2: Indexes)
    requires c.TotalOrder() && Shuffled(s, t) && IdsIdentify(s) && AllDated(s)
    requires IndexesFor(c.math, s, ix1) && IndexesFor(c.math, t, ix2)
    ensures Ranked(c, ix1, s) == Ranked(c, ix2, t)
  {
    hide Prelim, Sorted, Rescored, Setting.TotalOrder, Shuffled, IndexesFor, OneCandidatePerId, IdsIdentify, AllDated, Dated;
    SameMembers(s, t);
    SameIndexes(c.math, s, t, ix1, ix2);
    if s == [] {
    } else {
      PrelimOfShuffled(c, ix1, s, t, s, t);
      PrelimIds(c, ix1, s);
      PrelimDates(c, ix1, s);
      SortForgetsOrder(c, Prelim(c, ix1, s, s), Prelim(c, ix2, t, t));
    }
  }

  // ---------- How large a score can be ----------

  function BaseBound(t: Toggles): real {
    if t.vector then 0.92 else 1.02
  }

  function ScoreBound(t: Toggles): real {
    if t.vector then 0.9568 else 1.0608
  }

  lemma LexicalRange(c: Setting, ix: Indexes, corpus: seq<CorpusEntry>, entry: CorpusEntry)
    requires c.math.Sound() && IndexesFor(c.math, corpus, ix)
    ensures var idf := if c.toggles.codeToken then ix.codeIdf else ix.simpleIdf;
      0.0 <= Overlap(c.math, c.QueryTokens(), Tokens(entry, c.Mode()), idf) <= 1.0
  {
    hide Overlap, MathLibrary.Sound, Tokens, Setting.QueryTokens, IsIdf, IsIndex, CorpusById;
    var idf := if c.toggles.codeToken then ix.codeIdf else ix.simpleIdf;
    IdfWeights(c.math, corpus, c.Mode(), idf);
    OverlapMeaning(c.math, c.QueryTokens(), Tokens(entry, c.Mode()), idf);
  }

  lemma VectorRange(c: Setting, entry: CorpusEntry)
    requires c.math.Sound()
    ensures 0.0 <= CosineOf(c.math, Vectorized(c.QueryTokens()), Vectorized(entry.codeTokens)) <= 1.0
  {
    hide CosineOf, Vectorized, MathLibrary.Sound, Setting.QueryTokens, Vector.Valid, Vector.Get;
    VectorMeaning(c.QueryTokens());
    VectorMeaning(entry.codeTokens);
    CosineRange(c.math, Vectorized(c.QueryTokens()), Vectorized(entry.codeTokens));
  }

  ghost predicate InRange(s: Signals) {
    0.0 <= s.lexical <= 1.0 && 0.0 <= s.vector <= 1.0 && 0.0 <= s.recency <= 1.0 && 0.0 <= s.entity <= 1.0
  }

  lemma SignalRanges(c: Setting, ix: Indexes, corpus: seq<CorpusEntry>, entry: CorpusEntry)
    requires c.math.Sound() && IndexesFor(c.math, corpus, ix) && entry in corpus
    ensures InRange(SignalsOf(c, ix, corpus, entry))
  {
    hide Overlap, CosineOf, Vectorized, Recency, EntityScore, IndexesFor, MathLibrary.Sound, Tokens, Setting.QueryTokens, Setting.Mode;
    LexicalRange(c, ix, corpus, entry);
    VectorRange(c, entry);
    RecencyRange(c.math, entry, corpus);
  }

  lemma BaseScoreRange(t: Toggles, s: Signals)
    requires InRange(s)
    ensures 0.0 <= BaseScore(t, s) <= BaseBound(t)
  {
  }

  ghost predicate Below(s: seq<Candidate>, bound: real) {
    forall x | x in s :: 0.0 <= x.score <= bound
  }

  lemma PrelimRange(c: Setting, ix: Indexes, corpus: seq<CorpusEntry>)
    requires c.math.Sound() && IndexesFor(c.math, corpus, ix)
    ensures Below(Prelim(c, ix, corpus, corpus), BaseBound(c.toggles))
  {
    hide Prelim, SignalsOf, BaseScore, BaseBound, InRange, IndexesFor, MathLibrary.Sound;
    var p := Prelim(c, ix, corpus, corpus);
    forall x | x in p ensures 0.0 <= x.score <= BaseBound(c.toggles) {
      var i :| 0 <= i < |p| && p[i] == x;
      assert corpus[i] in corpus;
      SignalRanges(c, ix, corpus, corpus[i]);
      BaseScoreRange(c.toggles, SignalsOf(c, ix, corpus, corpus[i]));
    }
  }

  lemma SeedsAreBase(base: seq<Candidate>)
    ensures forall x | x in Seeds(base) :: x in base
  {
  }

  lemma RescoredRange(t: Toggles, ix: Indexes, base: seq<Candidate>)
    requires Below(base, BaseBound(t))
    ensures Below(Rescored(ix, base), ScoreBound(t))
  {
    hide Rescored, ScanScore, Seeds;
    var r := Rescored(ix, base);
    SeedsAreBase(base);
    forall x | x in r ensures 0.0 <= x.score <= ScoreBound(t) {
      var i :| 0 <= i < |r| && r[i] == x;
      assert base[i] in base;
      ScanBound(Seeds(base), ix.corpusById, ix.entityIndex, base[i].id, BaseBound(t));
    }
  }

  lemma SortedBelow(upTo: (string, string) -> bool, s: seq<Candidate>, bound: real)
    ensures Below(Sorted(upTo, s), bound) <==> Below(s, bound)
  {
    hide Sorted;
    SortedMembers(upTo, s);
  }

  /** After both stages every score lies between 0 and 0.9568, or 1.0608 for the variants without vectors. */
  lemma ScoresAreBounded(c: Setting, ix: Indexes, corpus: seq<CorpusEntry>)
    requires c.math.Sound() && IndexesFor(c.math, corpus, ix)
    ensures forall x | x in Ranked(c, ix, corpus) :: 0.0 <= x.score <= ScoreBound(c.toggles)
  {
    hide Prelim, IndexesFor, MathLibrary.Sound, Sorted, Rescored;
    var p := Prelim(c, ix, corpus, corpus);
    var base := Sorted(c.upTo, p);
    PrelimRange(c, ix, corpus);
    SortedBelow(c.upTo, p, BaseBound(c.toggles));
    if c.toggles.graph {
      RescoredRange(c.toggles, ix, base);
      SortedBelow(c.upTo, Rescored(ix, base), ScoreBound(c.toggles));
    }
  }

  // ---------- What a ranking is ----------

  /**
   * A candidate is an entry with the signals of the variant, their weighted sum, and half the best base score
   * among the seeds that share an entity with it.
   */
  ghost predicate Explains(c: Setting, ix: Indexes, corpus: seq<CorpusEntry>, seeds: seq<Candidate>,
                           entry: CorpusEntry, x: Candidate)
    requires corpus != []
  {
    var t, q := c.toggles, c.query;
    var code := if t.queryExpansion then q.expandedCodeTokens else q.codeTokens;
    var simple := if t.queryExpansion then q.expandedSimpleTokens else q.simpleTokens;
    var s := x.signals;
    && x.id == entry.id && x.timestampMs == entry.timestampMs
    && s.lexical == (if !t.lexical then 0.0
                     else if t.codeToken then Overlap(c.math, code, entry.codeTokens, ix.codeIdf)
                     else Overlap(c.math, simple, entry.simpleTokens, ix.simpleIdf))
    && s.vector == (if !t.vector then 0.0
                    else CosineOf(c.math, Vectorized(if t.codeToken then code else simple), Vectorized(entry.codeTokens)))
    && s.recency == (if t.recency then Recency(c.math, entry, corpus) else 0.0)
    && s.entity == (if t.entity then EntityScore(q.entities, entry.entities) else 0.0)
    && (if t.graph then IsBestHalf(corpus, seeds, entry.id, s.graph) else s.graph == 0.0)
    && (if t.vector
        then x.score == 0.32 * s.lexical + 0.34 * s.vector + 0.08 * s.recency + 0.18 * s.entity + 0.08 * s.graph
        else x.score == 0.76 * s.lexical + 0.08 * s.recency + 0.18 * s.entity + 0.08 * s.graph)
  }

  lemma BaseExplained(c: Setting, ix: Indexes, corpus: seq<CorpusEntry>, seeds: seq<Candidate>, entry: CorpusEntry)
    requires corpus != [] && !c.toggles.graph
    ensures Explains(c, ix, corpus, seeds, entry, Scored(c, ix, corpus, entry))
  {
    hide IsBestHalf, Overlap, CosineOf, Vectorized, Recency, EntityScore;
  }

  lemma BoostExplained(c: Setting, ix: Indexes, corpus: seq<CorpusEntry>, base: seq<Candidate>, entry: CorpusEntry)
    requires corpus != [] && IdsIdentify(corpus) && IndexesFor(c.math, corpus, ix) && c.toggles.graph
    ensures Explains(c, ix, corpus, Seeds(base), entry,
                     Boosted(Scored(c, ix, corpus, entry), GraphScore(ix, base, entry.id)))
  {
    hide Seeds, IsBestHalf, IsIdf, IsIndex, IdsIdentify, Overlap, CosineOf, Vectorized, Recency, EntityScore, ScanScore;
    IndexedScoreIsBestHalf(corpus, ix.entityIndex, Seeds(base), entry.id);
  }

  /** What one entry becomes, whether or not the graph is on. */
  ghost function Final(c: Setting, ix: Indexes, corpus: seq<CorpusEntry>, base: seq<Candidate>, x: Candidate): Candidate {
    if c.toggles.graph then Boosted(x, GraphScore(ix, base, x.id)) else x
  }

  lemma FinalExplained(c: Setting, ix: Indexes, corpus: seq<CorpusEntry>, base: seq<Candidate>, entry: CorpusEntry)
    requires corpus != [] && IdsIdentify(corpus) && IndexesFor(c.math, corpus, ix)
    ensures Explains(c, ix, corpus, Seeds(base), entry, Final(c, ix, corpus, base, Scored(c, ix, corpus, entry)))
  {
    hide Explains, Boosted, GraphScore, IdsIdentify, IndexesFor, Seeds, SignalsOf, BaseScore;
    if c.toggles.graph {
      BoostExplained(c, ix, corpus, base, entry);
    } else {
      BaseExplained(c, ix, corpus, Seeds(base), entry);
    }
  }

  /** The list of the last sort: the base candidates in their order, each made final. */
  ghost function Unsorted(c: Setting, ix: Indexes, corpus: seq<CorpusEntry>, base: seq<Candidate>): (r: seq<Candidate>)
    ensures |r| == |base|
    ensures forall k | 0 <= k < |base| :: r[k] == Final(c, ix, corpus, base, base[k])
  {
    if c.toggles.graph then Rescored(ix, base) else base
  }

  lemma RankedMembers(c: Setting, ix: Indexes, corpus: seq<CorpusEntry>, x: Candidate)
    ensures var base := Sorted(c.upTo, Prelim(c, ix, corpus, corpus));
      x in Ranked(c, ix, corpus) <==> x in Unsorted(c, ix, corpus, base)
  {
    hide Sorted, Prelim, Rescored;
    SortedMembers(c.upTo, Rescored(ix, Sorted(c.upTo, Prelim(c, ix, corpus, corpus))));
  }

  lemma RankedExplained(c: Setting, ix: Indexes, corpus: seq<CorpusEntry>, x: Candidate)
    requires corpus != [] && IdsIdentify(corpus) && IndexesFor(c.math, corpus, ix) && x in Ranked(c, ix, corpus)
    ensures var seeds := Seeds(Sorted(c.upTo, Prelim(c, ix, corpus, corpus)));
      exists entry | entry in corpus :: Explains(c, ix, corpus, seeds, entry, x)
  {
    hide Prelim, Sorted, Ranked, Unsorted, IdsIdentify, IndexesFor, Explains, Seeds, Final, Scored;
    var p := Prelim(c, ix, corpus, corpus);
    var base := Sorted(c.upTo, p);
    RankedMembers(c, ix, corpus, x);
    SortedMembers(c.upTo, p);
    var k :| 0 <= k < |base| && Unsorted(c, ix, corpus, base)[k] == x;
    assert base[k] in base;
    var i :| 0 <= i < |p| && p[i] == base[k];
    assert corpus[i] in corpus;
    FinalExplained(c, ix, corpus, base, corpus[i]);
  }

  lemma EntryIsRanked(c: Setting, ix: Indexes, corpus: seq<CorpusEntry>, entry: CorpusEntry)
    requires corpus != [] && IdsIdentify(corpus) && IndexesFor(c.math, corpus, ix) && entry in corpus
    ensures var seeds := Seeds(Sorted(c.upTo, Prelim(c, ix, corpus, corpus)));
      exists x | x in Ranked(c, ix, corpus) :: Explains(c, ix, corpus, seeds, entry, x)
  {
    hide Prelim, Sorted, Ranked, Unsorted, IdsIdentify, IndexesFor, Explains, Seeds, Final, Scored;
    var p := Prelim(c, ix, corpus, corpus);
    var base := Sorted(c.upTo, p);
    SortedMembers(c.upTo, p);
    var i :| 0 <= i < |corpus| && corpus[i] == entry;
    assert p[i] in base;
    var k :| 0 <= k < |base| && base[k] == p[i];
    var x := Unsorted(c, ix, corpus, base)[k];
    RankedMembers(c, ix, corpus, x);
    FinalExplained(c, ix, corpus, base, entry);
  }

  /** The ranking holds one candidate for each entry: the one its signals explain. */
  lemma RankingMeaning(c: Setting, ix: Indexes, corpus: seq<CorpusEntry>)
    requires corpus != [] && IdsIdentify(corpus) && IndexesFor(c.math, corpus, ix)
    ensures var ranked := Ranked(c, ix, corpus);
      var seeds := Seeds(Sorted(c.upTo, Prelim(c, ix, corpus, corpus)));
      && |ranked| == |corpus|
      && (forall x | x in ranked :: exists entry | entry in corpus :: Explains(c, ix, corpus, seeds, entry, x))
      && (forall entry | entry in corpus :: exists x | x in ranked :: Explains(c, ix, corpus, seeds, entry, x))
  {
    hide Prelim, Sorted, Rescored, IdsIdentify, IndexesFor, Explains, Seeds;
    var seeds := Seeds(Sorted(c.upTo, Prelim(c, ix, corpus, corpus)));
    forall x | x in Ranked(c, ix, corpus) ensures exists entry | entry in corpus :: Explains(c, ix, corpus, seeds, entry, x) {
      RankedExplained(c, ix, corpus, x);
    }
    forall entry | entry in corpus
      ensures exists x | x in Ranked(c, ix, corpus) :: Explains(c, ix, corpus, seeds, entry, x)
    {
      EntryIsRanked(c, ix, corpus, entry);
    }
  }

  // ---------- Best first ----------

  lemma BothSortsOrder(c: Setting, ix: Indexes, corpus: seq<CorpusEntry>)
    requires c.TotalOrder() && AllDated(corpus)
    ensures var base := Sorted(c.upTo, Prelim(c, ix, corpus, corpus));
      && Ordered(c.upTo, base) && Ordered(c.upTo, Sorted(c.upTo, Rescored(ix, base)))
      && Dated(base) && Dated(Sorted(c.upTo, Rescored(ix, base)))
  {
    hide Prelim, Sorted, Ordered, Setting.TotalOrder, Rescored, AllDated;
    var p := Prelim(c, ix, corpus, corpus);
    var base := Sorted(c.upTo, p);
    PrelimDates(c, ix, corpus);
    SortedIsOrdered(c, p);
    SortedMembers(c.upTo, p);
    forall x | x in Rescored(ix, base) ensures x.timestampMs.Some? {
      var i :| 0 <= i < |base| && Rescored(ix, base)[i] == x;
      assert base[i] in base;
    }
    SortedIsOrdered(c, Rescored(ix, base));
    SortedMembers(c.upTo, Rescored(ix, base));
  }

  ghost predicate Falling(s: seq<Candidate>) {
    forall i, j | 0 <= i < j < |s| :: s[i].score >= s[j].score
  }

  lemma {:induction false} InsertFalls(upTo: (string, string) -> bool, s: seq<Candidate>, x: Candidate)
    requires Falling(s)
    ensures Falling(Insert(upTo, s, x))
  {
    var r := Insert(upTo, s, x);
    var n := |s| - 1;
    if s == [] || InOrder(upTo, s[n], x) {
      assert r == s + [x];
    } else {
      InsertFalls(upTo, s[..n], x);
      var init := Insert(upTo, s[..n], x);
      assert r == init + [s[n]];
      forall i | 0 <= i < |init| ensures init[i].score >= s[n].score {
        assert init[i] in multiset(init);
        if init[i] != x { assert init[i] in s[..n]; }
      }
    }
  }

  lemma {:induction false} SortedFalls(upTo: (string, string) -> bool, s: seq<Candidate>)
    ensures Falling(Sorted(upTo, s))
  {
    if s == [] {
    } else {
      var n := |s| - 1;
      SortedFalls(upTo, s[..n]);
      InsertFalls(upTo, Sorted(upTo, s[..n]), s[n]);
    }
  }

  /** For every corpus, dated or not, and every variant, no candidate stands before a better one. */
  lemma BestFirst(c: Setting, ix: Indexes, corpus: seq<CorpusEntry>)
    ensures var ranked := Ranked(c, ix, corpus);
      forall i, j | 0 <= i < j < |ranked| :: ranked[i].score >= ranked[j].score
  {
    hide Sorted, Prelim, Rescored;
    var base := Sorted(c.upTo, Prelim(c, ix, corpus, corpus));
    SortedFalls(c.upTo, Prelim(c, ix, corpus, corpus));
    SortedFalls(c.upTo, Rescored(ix, base));
  }

  /** If all time stamps are finite, the newer of two equal scores is first, and of two equally new the smaller id. */
  lemma TiesAreBroken(c: Setting, ix: Indexes, corpus: seq<CorpusEntry>)
    requires c.TotalOrder() && forall entry | entry in corpus :: entry.timestampMs.Some?
    ensures var ranked := Ranked(c, ix, corpus);
      forall i, j | 0 <= i < j < |ranked| && ranked[i].score == ranked[j].score ::
        && ranked[i].timestampMs.Some? && ranked[j].timestampMs.Some?
        && ranked[i].timestampMs.value >= ranked[j].timestampMs.value
        && (ranked[i].timestampMs == ranked[j].timestampMs ==> c.upTo(ranked[i].id, ranked[j].id))
  {
    hide Sorted, Prelim, Rescored, Setting.TotalOrder;
    BothSortsOrder(c, ix, corpus);
    forall x | x in Ranked(c, ix, corpus) ensures x.timestampMs.Some? {}
  }

  lemma SeedsLead(base: seq<Candidate>) returns (others: seq<Candidate>)
    requires Falling(base)
    ensures |Seeds(base)| == (if |base| < 5 then |base| else 5)
    ensures base == Seeds(base) + others
    ensures forall x, y | x in Seeds(base) && y in others :: x.score >= y.score
  {
    var n := |Seeds(base)|;
    others := base[n..];
    forall x, y | x in Seeds(base) && y in others ensures x.score >= y.score {
      var i :| 0 <= i < n && base[i] == x;
      var j :| n <= j < |base| && base[j] == y;
    }
  }

  /** The seeds are the five best base candidates, or all if there are fewer. */
  lemma SeedsAreBest(c: Setting, ix: Indexes, corpus: seq<CorpusEntry>)
    ensures var p := Prelim(c, ix, corpus, corpus);
      var seeds := Seeds(Sorted(c.upTo, p));
      && |seeds| == (if |corpus| < 5 then |corpus| else 5)
      && exists others: seq<Candidate> ::
        && multiset(seeds) + multiset(others) == multiset(p)
        && forall x, y | x in seeds && y in others :: x.score >= y.score
  {
    hide Sorted, Prelim, Seeds, Falling;
    var p := Prelim(c, ix, corpus, corpus);
    SortedFalls(c.upTo, p);
    var others := SeedsLead(Sorted(c.upTo, p));
    assert multiset(Seeds(Sorted(c.upTo, p))) + multiset(others) == multiset(p);
  }
}
