/** The signals of one corpus entry: `scripts/s108-retrieval-ablation.ts`, lines 540-615. */
module RetrievalScores {
  import opened JsText
  import opened RealArithmetic

  /** `Math.log`, `Math.exp` and `Math.sqrt`, over the reals. */
  datatype MathLibrary = MathLibrary(log: real -> real, exp: real -> real, sqrt: real -> real) {
    ghost predicate Sound() {
      && log(1.0) == 0.0
      && (forall x, y | 1.0 <= x < y :: log(x) < log(y))
      && (forall x | x <= 0.0 :: 0.0 < exp(x) <= 1.0)
      && (forall x | 0.0 <= x :: 0.0 <= sqrt(x) && sqrt(x) * sqrt(x) == x)
    }
  }

  datatype TokenMode = SimpleMode | CodeMode

  // `timestampMs` is `None` where parsing the date gave `NaN`.
  datatype CorpusEntry = CorpusEntry(id: string, simpleTokens: seq<string>, codeTokens: seq<string>,
                                     entities: seq<string>, timestampMs: Option<int>)

  function Tokens(entry: CorpusEntry, mode: TokenMode): seq<string> {
    if mode == CodeMode then entry.codeTokens else entry.simpleTokens
  }

  function GetOr<T>(m: map<string, T>, key: string, fallback: T): T {
    if key in m then m[key] else fallback
  }

  function MaxReal(a: real, b: real): real {
    if a < b then b else a
  }

  // ---------- Inverse document frequency ----------

  /** In how many entries a token occurs. */
  function DocumentFrequency(corpus: seq<CorpusEntry>, mode: TokenMode, token: string): nat {
    if corpus == [] then 0 else
      var n := |corpus| - 1;
      DocumentFrequency(corpus[..n], mode, token) + if token in Tokens(corpus[n], mode) then 1 else 0
  }

  function InverseFrequency(math: MathLibrary, size: nat, count: nat): real {
    math.log(1.0 + (if size == 0 then 1 else size) as real / (1 + count) as real)
  }

  ghost predicate KnownToken(corpus: seq<CorpusEntry>, mode: TokenMode, token: string) {
    exists entry | entry in corpus :: token in Tokens(entry, mode)
  }

  ghost predicate IsIdf(math: MathLibrary, corpus: seq<CorpusEntry>, mode: TokenMode, idf: map<string, real>) {
    && (forall token :: token in idf <==> KnownToken(corpus, mode, token))
    && (forall token | token in idf ::
          idf[token] == InverseFrequency(math, |corpus|, DocumentFrequency(corpus, mode, token)))
  }

  lemma {:induction false} FrequencyOfKnown(corpus: seq<CorpusEntry>, mode: TokenMode, token: string)
    ensures DocumentFrequency(corpus, mode, token) > 0 <==> KnownToken(corpus, mode, token)
    ensures DocumentFrequency(corpus, mode, token) <= |corpus|
  {
    if corpus == [] {
    } else {
      var n := |corpus| - 1;
      FrequencyOfKnown(corpus[..n], mode, token);
      assert forall entry :: entry in corpus <==> entry in corpus[..n] || entry == corpus[n];
    }
  }

  method CountDocuments(corpus: seq<CorpusEntry>, mode: TokenMode) returns (df: map<string, nat>)
    ensures forall token :: token in df <==> KnownToken(corpus, mode, token)
    ensures forall token | token in df :: df[token] == DocumentFrequency(corpus, mode, token)
  {
    hide FirstOccurrences, Tokens, KnownToken;
    df := map[];
    for i := 0 to |corpus|
      invariant forall token :: GetOr(df, token, 0) == DocumentFrequency(corpus[..i], mode, token)
      invariant forall token | token in df :: df[token] > 0
    {
      var tokens := FirstOccurrences(Tokens(corpus[i], mode));
      for j := 0 to |tokens|
        invariant forall token ::
          (GetOr(df, token, 0) == DocumentFrequency(corpus[..i], mode, token) + if token in tokens[..j] then 1 else 0)
        invariant forall token | token in df :: df[token] > 0
      {
        assert tokens[..j + 1] == tokens[..j] + [tokens[j]] && tokens[j] !in tokens[..j];
        df := df[tokens[j] := GetOr(df, tokens[j], 0) + 1];
      }
      assert tokens[..|tokens|] == tokens && corpus[..i + 1][..i] == corpus[..i];
    }
    assert corpus[..|corpus|] == corpus;
    forall token ensures token in df <==> KnownToken(corpus, mode, token) {
      FrequencyOfKnown(corpus, mode, token);
      assert GetOr(df, token, 0) == DocumentFrequency(corpus, mode, token);
    }
    forall token | token in df ensures df[token] == DocumentFrequency(corpus, mode, token) {
      assert GetOr(df, token, 0) == df[token];
    }
  }

  method BuildIdf(math: MathLibrary, corpus: seq<CorpusEntry>, mode: TokenMode) returns (idf: map<string, real>)
    ensures IsIdf(math, corpus, mode, idf)
  {
    hide DocumentFrequency, KnownToken;
    var df := CountDocuments(corpus, mode);
    var total := if |corpus| == 0 then 1 else |corpus|;
    idf := map[];
    var rest := df.Keys;
    while rest != {}
      invariant rest <= df.Keys && idf.Keys == df.Keys - rest
      invariant forall token | token in idf :: idf[token] == InverseFrequency(math, |corpus|, df[token])
      decreases |rest|
    {
      var token :| token in rest;
      rest := rest - {token};
      idf := idf[token := math.log(1.0 + total as real / (1 + df[token]) as real)];
    }
    assert forall token :: token in idf <==> token in df;
  }

  lemma FrequencyFalls(math: MathLibrary, size: nat, a: nat, b: nat)
    requires math.Sound()
    ensures InverseFrequency(math, size, a) > 0.0
    ensures b < a ==> InverseFrequency(math, size, a) < InverseFrequency(math, size, b)
  {
    var total := (if size == 0 then 1 else size) as real;
    Quotient(total, (1 + a) as real);
    Quotient(total, (1 + b) as real);
    if b < a { QuotientFalls(total, (1 + a) as real, (1 + b) as real); }
  }

  /** A known token always weighs something, and the rarer of two tokens weighs more. */
  lemma IdfWeights(math: MathLibrary, corpus: seq<CorpusEntry>, mode: TokenMode, idf: map<string, real>)
    requires math.Sound() && IsIdf(math, corpus, mode, idf)
    ensures forall token | token in idf :: idf[token] > 0.0
    ensures forall s, t | s in idf && t in idf ::
      idf[s] < idf[t] <==> DocumentFrequency(corpus, mode, t) < DocumentFrequency(corpus, mode, s)
  {
    forall s, t | s in idf && t in idf
      ensures idf[s] > 0.0
      ensures idf[s] < idf[t] <==> DocumentFrequency(corpus, mode, t) < DocumentFrequency(corpus, mode, s)
    {
      var a, b := DocumentFrequency(corpus, mode, s), DocumentFrequency(corpus, mode, t);
      FrequencyFalls(math, |corpus|, a, b);
      FrequencyFalls(math, |corpus|, b, a);
    }
  }

  ghost function EntriesWith(corpus: seq<CorpusEntry>, mode: TokenMode, token: string): set<int> {
    set i | 0 <= i < |corpus| && token in Tokens(corpus[i], mode)
  }

  lemma EntriesWithStep(corpus: seq<CorpusEntry>, mode: TokenMode, token: string)
    requires corpus != []
    ensures var n := |corpus| - 1;
      |EntriesWith(corpus, mode, token)|
      == |EntriesWith(corpus[..n], mode, token)| + if token in Tokens(corpus[n], mode) then 1 else 0
  {
    hide Tokens;
    var n := |corpus| - 1;
    assert EntriesWith(corpus, mode, token)
        == EntriesWith(corpus[..n], mode, token) + if token in Tokens(corpus[n], mode) then {n} else {};
  }

  lemma {:induction false} FrequencyIsNumber(corpus: seq<CorpusEntry>, mode: TokenMode, token: string)
    ensures DocumentFrequency(corpus, mode, token) == |EntriesWith(corpus, mode, token)|
  {
    hide Tokens;
    if corpus == [] {
      assert EntriesWith(corpus, mode, token) == {};
    } else {
      hide EntriesWith;
      FrequencyIsNumber(corpus[..|corpus| - 1], mode, token);
      EntriesWithStep(corpus, mode, token);
    }
  }

  lemma IdfOfToken(math: MathLibrary, corpus: seq<CorpusEntry>, mode: TokenMode, idf: map<string, real>, token: string)
    requires IsIdf(math, corpus, mode, idf) && token in idf
    ensures var df := |EntriesWith(corpus, mode, token)|;
      df > 0 && idf[token] == math.log(1.0 + |corpus| as real / (1 + df) as real)
  {
    FrequencyIsNumber(corpus, mode, token);
    FrequencyOfKnown(corpus, mode, token);
    hide DocumentFrequency, KnownToken, Tokens;
  }

  /** The weight in full: the logarithm of one plus the corpus size over one plus the number of entries with the token. */
  lemma IdfFormula(math: MathLibrary, corpus: seq<CorpusEntry>, simpleIdf: map<string, real>, codeIdf: map<string, real>,
                   token: string)
    requires IsIdf(math, corpus, SimpleMode, simpleIdf) && IsIdf(math, corpus, CodeMode, codeIdf)
    ensures token in simpleIdf
      ==> var df := |set i | 0 <= i < |corpus| && token in corpus[i].simpleTokens|;
          df > 0 && simpleIdf[token] == math.log(1.0 + |corpus| as real / (1 + df) as real)
    ensures token in codeIdf
      ==> var df := |set i | 0 <= i < |corpus| && token in corpus[i].codeTokens|;
          df > 0 && codeIdf[token] == math.log(1.0 + |corpus| as real / (1 + df) as real)
  {
    hide IsIdf;
    if token in simpleIdf {
      IdfOfToken(math, corpus, SimpleMode, simpleIdf, token);
      assert EntriesWith(corpus, SimpleMode, token)
          == set i | 0 <= i < |corpus| && token in corpus[i].simpleTokens;
    }
    if token in codeIdf {
      IdfOfToken(math, corpus, CodeMode, codeIdf, token);
      assert EntriesWith(corpus, CodeMode, token)
          == set i | 0 <= i < |corpus| && token in corpus[i].codeTokens;
    }
  }

  // ---------- Lexical overlap ----------

  /** How often a token occurs in a document. */
  ghost function Count(docTokens: seq<string>, token: string): nat {
    multiset(docTokens)[token]
  }

  ghost function TotalWeight(query: seq<string>, idf: map<string, real>): real {
    if query == [] then 0.0 else
      var n := |query| - 1;
      TotalWeight(query[..n], idf) + GetOr(idf, query[n], 1.0)
  }

  ghost function TokenHit(math: MathLibrary, token: string, doc: seq<string>, idf: map<string, real>): real {
    if Count(doc, token) == 0 then 0.0
    else Times(GetOr(idf, token, 1.0), 1.0 + math.log(Count(doc, token) as real))
  }

  ghost function HitWeight(math: MathLibrary, query: seq<string>, doc: seq<string>, idf: map<string, real>): real {
    if query == [] then 0.0 else
      var n := |query| - 1;
      HitWeight(math, query[..n], doc, idf) + TokenHit(math, query[n], doc, idf)
  }

  ghost function Overlap(math: MathLibrary, query: seq<string>, doc: seq<string>, idf: map<string, real>): real {
    var denominator := TotalWeight(query, idf);
    if query == [] || doc == [] || denominator == 0.0 then 0.0 else
      var ratio := HitWeight(math, query, doc, idf) / denominator;
      if ratio < 1.0 then ratio else 1.0
  }

  method OverlapScore(math: MathLibrary, query: seq<string>, doc: seq<string>, idf: map<string, real>)
    returns (result: real)
    ensures result == Overlap(math, query, doc, idf)
  {
    if |query| == 0 || |doc| == 0 { return 0.0; }
    var docCounts: map<string, nat> := map[];
    for i := 0 to |doc|
      invariant forall token :: GetOr(docCounts, token, 0) == Count(doc[..i], token)
    {
      ghost var before := docCounts;
      docCounts := docCounts[doc[i] := GetOr(docCounts, doc[i], 0) + 1];
      assert doc[..i + 1] == doc[..i] + [doc[i]];
      forall token ensures GetOr(docCounts, token, 0) == Count(doc[..i + 1], token) {
        assert GetOr(before, token, 0) == Count(doc[..i], token);
      }
    }
    assert doc[..|doc|] == doc;
    var score, denominator := 0.0, 0.0;
    for i := 0 to |query|
      invariant denominator == TotalWeight(query[..i], idf)
      invariant score == HitWeight(math, query[..i], doc, idf)
    {
      assert query[..i + 1][..i] == query[..i] && query[..i + 1][i] == query[i];
      var token := query[i];
      assert GetOr(docCounts, token, 0) == Count(doc, token);
      var weight := GetOr(idf, token, 1.0);
      denominator := denominator + weight;
      var count := GetOr(docCounts, token, 0);
      if count > 0 {
        score := score + weight * (1.0 + math.log(count as real));
      }
    }
    assert query[..|query|] == query;
    result := if denominator == 0.0 then 0.0
      else if score / denominator < 1.0 then score / denominator else 1.0;
  }

  /** Tokens contribute one by one, each occurrence in the query counting. */
  lemma {:induction false} WeightsAdd(math: MathLibrary, p: seq<string>, q: seq<string>, doc: seq<string>,
                                      idf: map<string, real>)
    ensures TotalWeight(p + q, idf) == TotalWeight(p, idf) + TotalWeight(q, idf)
    ensures HitWeight(math, p + q, doc, idf) == HitWeight(math, p, doc, idf) + HitWeight(math, q, doc, idf)
  {
    hide TokenHit, GetOr;
    if q == [] {
      assert p + q == p;
    } else {
      var n := |q| - 1;
      WeightsAdd(math, p, q[..n], doc, idf);
      assert (p + q)[..|p| + n] == p + q[..n];
    }
  }

  /**
   * What one token contributes: its weight, 1 if it has none, to the denominator, and that times one plus the
   * logarithm of its number of occurrences to the numerator; the overlap is their ratio, capped at 1.
   */
  lemma OverlapFormula(math: MathLibrary, query: seq<string>, doc: seq<string>, idf: map<string, real>, token: string)
    ensures var weight := if token in idf then idf[token] else 1.0;
      && TotalWeight([token], idf) == weight
      && (token !in doc ==> HitWeight(math, [token], doc, idf) == 0.0)
      && (token in doc
          ==> HitWeight(math, [token], doc, idf) == weight * (1.0 + math.log(multiset(doc)[token] as real)))
    ensures var total, hit := TotalWeight(query, idf), HitWeight(math, query, doc, idf);
      query != [] && doc != [] && total > 0.0
      ==> Overlap(math, query, doc, idf) == if hit < total then hit / total else 1.0
  {
    assert [token] == [] + [token];
    var total, hit := TotalWeight(query, idf), HitWeight(math, query, doc, idf);
    if total > 0.0 { CappedRatio(hit, total); }
  }

  ghost predicate PositiveWeights(idf: map<string, real>) {
    forall token | token in idf :: idf[token] > 0.0
  }

  lemma TokenHitBounds(math: MathLibrary, token: string, doc: seq<string>, idf: map<string, real>)
    requires math.Sound() && PositiveWeights(idf)
    ensures GetOr(idf, token, 1.0) > 0.0
    ensures token !in doc ==> TokenHit(math, token, doc, idf) == 0.0
    ensures token in doc ==> TokenHit(math, token, doc, idf) >= GetOr(idf, token, 1.0)
  {
    var weight, count := GetOr(idf, token, 1.0), Count(doc, token);
    if count > 0 {
      assert math.log(count as real) >= 0.0;
      TimesMonotone(1.0, 1.0 + math.log(count as real), weight);
      TimesSigns(weight, 1.0 + math.log(count as real));
    }
  }

  lemma SameTokens(query: seq<string>, doc: seq<string>)
    requires query != []
    ensures var n := |query| - 1;
      && ((forall token | token in query :: token !in doc)
          <==> query[n] !in doc && forall token | token in query[..n] :: token !in doc)
      && ((forall token | token in query :: token in doc)
          <==> query[n] in doc && forall token | token in query[..n] :: token in doc)
  {
    var n := |query| - 1;
    assert query == query[..n] + [query[n]];
    assert forall token :: token in query <==> token in query[..n] || token == query[n];
  }

  lemma {:induction false} HitBounds(math: MathLibrary, query: seq<string>, doc: seq<string>, idf: map<string, real>)
    requires math.Sound() && PositiveWeights(idf)
    ensures query != [] ==> TotalWeight(query, idf) > 0.0
    ensures HitWeight(math, query, doc, idf) >= 0.0
    ensures HitWeight(math, query, doc, idf) == 0.0 <==> forall token | token in query :: token !in doc
    ensures (forall token | token in query :: token in doc)
      ==> HitWeight(math, query, doc, idf) >= TotalWeight(query, idf)
  {
    if query == [] {
    } else {
      var n := |query| - 1;
      HitBounds(math, query[..n], doc, idf);
      TokenHitBounds(math, query[n], doc, idf);
      SameTokens(query, doc);
    }
  }

  /** Overlap is 0 exactly when no query token occurs in the document, and 1 if all of them do. */
  lemma OverlapMeaning(math: MathLibrary, query: seq<string>, doc: seq<string>, idf: map<string, real>)
    requires math.Sound() && PositiveWeights(idf)
    ensures 0.0 <= Overlap(math, query, doc, idf) <= 1.0
    ensures Overlap(math, query, doc, idf) == 0.0 <==> forall token | token in query :: token !in doc
    ensures query != [] && (forall token | token in query :: token in doc) ==> Overlap(math, query, doc, idf) == 1.0
  {
    HitBounds(math, query, doc, idf);
    if query != [] && doc != [] {
      var hit, total := HitWeight(math, query, doc, idf), TotalWeight(query, idf);
      Quotient(hit, total);
    } else if query != [] {
      assert query[0] in query;
    }
  }

  // ---------- Recency and entities ----------

  predicate AllDated(corpus: seq<CorpusEntry>) {
    forall entry | entry in corpus :: entry.timestampMs.Some?
  }

  /** `Math.max` over the corpus; it is `NaN`, and so not finite, unless every entry is dated. */
  function Latest(corpus: seq<CorpusEntry>): (r: int)
    requires corpus != [] && AllDated(corpus)
    ensures forall entry | entry in corpus :: entry.timestampMs.value <= r
    ensures exists entry | entry in corpus :: entry.timestampMs.value == r
  {
    var n := |corpus| - 1;
    assert corpus[n] in corpus;
    var last := corpus[n].timestampMs.value;
    if n == 0 then last else
      assert corpus == corpus[..n] + [corpus[n]];
      var r := Latest(corpus[..n]);
      if r < last then last else r
  }

  /** `Math.exp(-ageDays / 30)`, or 0 if the entry's time stamp or the latest one is not finite. */
  function Recency(math: MathLibrary, entry: CorpusEntry, corpus: seq<CorpusEntry>): real
    requires corpus != []
  {
    if entry.timestampMs.None? || !AllDated(corpus) then 0.0 else
      var age := (Latest(corpus) - entry.timestampMs.value) as real / (24 * 60 * 60 * 1000) as real;
      math.exp((0.0 - if age < 0.0 then 0.0 else age) / 30.0)
  }

  /** Recency is positive exactly if all time stamps are finite. */
  lemma RecencyRange(math: MathLibrary, entry: CorpusEntry, corpus: seq<CorpusEntry>)
    requires math.Sound() && entry in corpus
    ensures 0.0 <= Recency(math, entry, corpus) <= 1.0
    ensures Recency(math, entry, corpus) > 0.0 <==> AllDated(corpus)
  {
    hide Latest;
    if AllDated(corpus) {
      var age := (Latest(corpus) - entry.timestampMs.value) as real / (24 * 60 * 60 * 1000) as real;
      var x := (0.0 - if age < 0.0 then 0.0 else age) / 30.0;
      assert x <= 0.0;
      assert Recency(math, entry, corpus) == math.exp(x);
    }
  }

  /** With finite time stamps: the exponential of minus a thirtieth of the age in days, behind the newest entry. */
  lemma RecencyFormula(math: MathLibrary, entry: CorpusEntry, corpus: seq<CorpusEntry>, newest: CorpusEntry)
    requires entry in corpus && newest in corpus && forall e | e in corpus :: e.timestampMs.Some?
    requires forall e | e in corpus :: e.timestampMs.value <= newest.timestampMs.value
    ensures var ageMs := newest.timestampMs.value - entry.timestampMs.value;
      Recency(math, entry, corpus) == math.exp(-(ageMs as real / 86400000.0) / 30.0)
  {
    hide Latest;
    assert Latest(corpus) == newest.timestampMs.value;
  }

  /** `filter` to the entities of a document. */
  function Hits(queryEntities: seq<string>, docEntities: seq<string>): (r: nat)
    ensures r <= |queryEntities|
    ensures r == 0 <==> forall e | e in queryEntities :: e !in docEntities
    ensures r == |queryEntities| <==> forall e | e in queryEntities :: e in docEntities
  {
    if queryEntities == [] then 0 else
      var n := |queryEntities| - 1;
      assert queryEntities == queryEntities[..n] + [queryEntities[n]];
      Hits(queryEntities[..n], docEntities) + if queryEntities[n] in docEntities then 1 else 0
  }

  /** The share of the query's entities that the document has: 0 if it has none, 1 if it has them all. */
  function EntityScore(queryEntities: seq<string>, docEntities: seq<string>): (r: real)
    ensures 0.0 <= r <= 1.0
    ensures r == 0.0 <==> forall e | e in queryEntities :: e !in docEntities
    ensures r == 1.0 <==> queryEntities != [] && forall e | e in queryEntities :: e in docEntities
  {
    if queryEntities == [] || docEntities == [] then
      assert queryEntities != [] ==> queryEntities[0] in queryEntities;
      0.0
    else
      Quotient(Hits(queryEntities, docEntities) as real, |queryEntities| as real);
      Hits(queryEntities, docEntities) as real / |queryEntities| as real
  }

  ghost function HitPositions(queryEntities: seq<string>, docEntities: seq<string>): set<int> {
    set i | 0 <= i < |queryEntities| && queryEntities[i] in docEntities
  }

  lemma HitPositionsStep(queryEntities: seq<string>, docEntities: seq<string>)
    requires queryEntities != []
    ensures var n := |queryEntities| - 1;
      |HitPositions(queryEntities, docEntities)|
      == |HitPositions(queryEntities[..n], docEntities)| + if queryEntities[n] in docEntities then 1 else 0
  {
    var n := |queryEntities| - 1;
    assert HitPositions(queryEntities, docEntities)
        == HitPositions(queryEntities[..n], docEntities) + if queryEntities[n] in docEntities then {n} else {};
  }

  lemma {:induction false} HitsAreNumber(queryEntities: seq<string>, docEntities: seq<string>)
    ensures Hits(queryEntities, docEntities) == |HitPositions(queryEntities, docEntities)|
  {
    if queryEntities == [] {
      assert HitPositions(queryEntities, docEntities) == {};
    } else {
      hide HitPositions;
      HitsAreNumber(queryEntities[..|queryEntities| - 1], docEntities);
      HitPositionsStep(queryEntities, docEntities);
    }
  }

  /** The share in full: the query positions whose entity the document has, over all query positions. */
  lemma EntityFormula(queryEntities: seq<string>, docEntities: seq<string>)
    requires queryEntities != []
    ensures EntityScore(queryEntities, docEntities)
         == |set i | 0 <= i < |queryEntities| && queryEntities[i] in docEntities| as real / |queryEntities| as real
  {
    HitsAreNumber(queryEntities, docEntities);
    if docEntities == [] {
      assert HitPositions(queryEntities, docEntities) == {};
    }
  }
}
