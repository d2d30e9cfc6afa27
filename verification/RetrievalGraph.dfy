/** Entity index and graph propagation: `scripts/s108-retrieval-ablation.ts`, lines 617-650. */
module RetrievalGraph {
  import opened JsText
  import opened RetrievalScores

  datatype Signals = Signals(lexical: real, vector: real, recency: real, entity: real, graph: real)

  datatype Candidate = Candidate(id: string, score: real, signals: Signals, timestampMs: Option<int>)

  type EntityIndex = map<string, set<string>>

  // ---------- The inverted index ----------

  ghost predicate Names(corpus: seq<CorpusEntry>, id: string, entity: string) {
    exists entry | entry in corpus :: entry.id == id && entity in entry.entities
  }

  /** An id is listed under an entity exactly when an entry of that id names the entity. */
  ghost predicate IsIndex(index: EntityIndex, corpus: seq<CorpusEntry>) {
    && (forall entity, id :: id in GetOr(index, entity, {}) <==> Names(corpus, id, entity))
    && (forall entity | entity in index :: index[entity] != {})
  }

  lemma NamesMore(corpus: seq<CorpusEntry>, i: nat, id: string, entity: string)
    requires i < |corpus|
    ensures Names(corpus[..i + 1], id, entity)
       <==> Names(corpus[..i], id, entity) || (id == corpus[i].id && entity in corpus[i].entities)
  {
    assert corpus[..i + 1] == corpus[..i] + [corpus[i]];
    assert forall entry :: entry in corpus[..i + 1] <==> entry in corpus[..i] || entry == corpus[i];
  }

  method BuildEntityIndex(corpus: seq<CorpusEntry>) returns (index: EntityIndex)
    ensures IsIndex(index, corpus)
  {
    index := map[];
    for i := 0 to |corpus|
      invariant IsIndex(index, corpus[..i])
    {
      var entry := corpus[i];
      for j := 0 to |entry.entities|
        invariant forall entity, id ::
          (id in GetOr(index, entity, {})
           <==> Names(corpus[..i], id, entity) || (id == entry.id && entity in entry.entities[..j]))
        invariant forall entity | entity in index :: index[entity] != {}
      {
        assert entry.entities[..j + 1] == entry.entities[..j] + [entry.entities[j]];
        var ids := GetOr(index, entry.entities[j], {});
        index := index[entry.entities[j] := ids + {entry.id}];
      }
      assert entry.entities[..|entry.entities|] == entry.entities;
      forall entity, id
        ensures Names(corpus[..i + 1], id, entity)
           <==> Names(corpus[..i], id, entity) || (id == entry.id && entity in entry.entities)
      {
        NamesMore(corpus, i, id, entity);
      }
    }
    assert corpus[..|corpus|] == corpus;
  }

  /** `new Map` over the pairs of id and entry: the last entry of an id stays. */
  function CorpusById(corpus: seq<CorpusEntry>): (m: map<string, CorpusEntry>)
    ensures forall id | id in m :: m[id] in corpus && m[id].id == id
    ensures forall entry | entry in corpus :: entry.id in m
  {
    if corpus == [] then map[] else
      var n := |corpus| - 1;
      assert corpus == corpus[..n] + [corpus[n]];
      CorpusById(corpus[..n])[corpus[n].id := corpus[n]]
  }

  lemma CorpusByIdStep(corpus: seq<CorpusEntry>)
    requires corpus != []
    ensures var n := |corpus| - 1; CorpusById(corpus) == CorpusById(corpus[..n])[corpus[n].id := corpus[n]]
  {
  }

  lemma OverwrittenOrNot(m: map<string, CorpusEntry>, entry: CorpusEntry, id: string)
    ensures id in m[entry.id := entry] <==> id in m || id == entry.id
    ensures id in m && id != entry.id ==> m[entry.id := entry][id] == m[id]
  {
  }

  /** If several entries have one id, the map holds the last of them. */
  lemma {:induction false} LastEntryStays(start: seq<CorpusEntry>, entry: CorpusEntry, later: seq<CorpusEntry>)
    requires forall j | 0 <= j < |later| :: later[j].id != entry.id
    ensures var m := CorpusById(start + [entry] + later); entry.id in m && m[entry.id] == entry
  {
    hide CorpusById;
    var corpus, n := start + [entry] + later, |later| - 1;
    CorpusByIdStep(corpus);
    if later == [] {
      assert corpus[..|corpus| - 1] == start && corpus[|corpus| - 1] == entry;
    } else {
      assert corpus[..|corpus| - 1] == start + [entry] + later[..n] && corpus[|corpus| - 1] == later[n];
      LastEntryStays(start, entry, later[..n]);
      OverwrittenOrNot(CorpusById(start + [entry] + later[..n]), later[n], entry.id);
    }
  }

  // ---------- Propagation from the seeds ----------

  const SEEDS := 5

  ghost function Seeds(base: seq<Candidate>): seq<Candidate> {
    if |base| <= SEEDS then base else base[..SEEDS]
  }

  /** The index lists `id` under one of these entities. */
  ghost predicate Listed(index: EntityIndex, entities: seq<string>, id: string) {
    exists entity | entity in entities :: id in GetOr(index, entity, {})
  }

  /** A seed passes score on to `id`: another entry, found under an entity of the seed's own. */
  ghost predicate Reaches(seed: Candidate, byId: map<string, CorpusEntry>, index: EntityIndex, id: string) {
    id != seed.id && seed.id in byId && Listed(index, byId[seed.id].entities, id)
  }

  ghost function Raised(existing: real, on: bool, score: real): real {
    if on then MaxReal(existing, score * 0.5) else existing
  }

  /** The plain scan over all seeds. */
  ghost function ScanScore(seeds: seq<Candidate>, byId: map<string, CorpusEntry>, index: EntityIndex, id: string): real {
    if seeds == [] then 0.0 else
      var n := |seeds| - 1;
      Raised(ScanScore(seeds[..n], byId, index, id), Reaches(seeds[n], byId, index, id), seeds[n].score)
  }

  /** The two inner loops: one seed raises every entry that shares an entity with it. */
  method PassOn(start: map<string, real>, seed: Candidate, entities: seq<string>, index: EntityIndex)
    returns (scores: map<string, real>)
    ensures forall id ::
      (GetOr(scores, id, 0.0) ==
       Raised(GetOr(start, id, 0.0), id != seed.id && Listed(index, entities, id), seed.score))
  {
    scores := start;
    for j := 0 to |entities|
      invariant forall id ::
        (GetOr(scores, id, 0.0) ==
         Raised(GetOr(start, id, 0.0), id != seed.id && Listed(index, entities[..j], id), seed.score))
    {
      var entity := entities[j];
      assert entities[..j + 1] == entities[..j] + [entity];
      if entity in index {
        var rest := index[entity];
        while rest != {}
          invariant rest <= index[entity]
          invariant forall id ::
            (GetOr(scores, id, 0.0) ==
             Raised(GetOr(start, id, 0.0),
                    id != seed.id && (Listed(index, entities[..j], id) || id in index[entity] - rest), seed.score))
          decreases |rest|
        {
          var id :| id in rest;
          rest := rest - {id};
          if id != seed.id {
            var existing := GetOr(scores, id, 0.0);
            scores := scores[id := MaxReal(existing, seed.score * 0.5)];
          }
        }
      }
      forall id ensures Listed(index, entities[..j + 1], id)
                   <==> Listed(index, entities[..j], id) || id in GetOr(index, entity, {})
      {
        assert forall e :: e in entities[..j + 1] <==> e in entities[..j] || e == entity;
      }
    }
    assert entities[..|entities|] == entities;
  }

  method GraphScores(base: seq<Candidate>, byId: map<string, CorpusEntry>, index: EntityIndex)
    returns (scores: map<string, real>)
    ensures forall id :: GetOr(scores, id, 0.0) == ScanScore(Seeds(base), byId, index, id)
  {
    scores := map[];
    var seeds := if |base| <= SEEDS then base else base[..SEEDS];
    for i := 0 to |seeds|
      invariant forall id :: GetOr(scores, id, 0.0) == ScanScore(seeds[..i], byId, index, id)
    {
      assert seeds[..i + 1][..i] == seeds[..i];
      if seeds[i].id in byId {
        scores := PassOn(scores, seeds[i], byId[seeds[i].id].entities, index);
      }
    }
    assert seeds[..|seeds|] == seeds;
  }

  // ---------- What a graph score is ----------

  /** No two different entries have one id; so it is, in particular, when the ids are distinct. */
  ghost predicate IdsIdentify(corpus: seq<CorpusEntry>) {
    forall a, b | a in corpus && b in corpus && a.id == b.id :: a == b
  }

  /** Two different entries of the corpus name a common entity. */
  ghost predicate ShareEntity(corpus: seq<CorpusEntry>, a: string, b: string) {
    a != b && exists entity :: Names(corpus, a, entity) && Names(corpus, b, entity)
  }

  lemma EntryOfId(corpus: seq<CorpusEntry>, entry: CorpusEntry)
    requires IdsIdentify(corpus) && entry in corpus
    ensures CorpusById(corpus)[entry.id] == entry
  {
    assert CorpusById(corpus)[entry.id] in corpus;
  }

  /** Through the two indexes a seed reaches exactly the entries that share an entity with it. */
  lemma ReachesIsSharing(corpus: seq<CorpusEntry>, index: EntityIndex, seed: Candidate, id: string)
    requires IdsIdentify(corpus) && IsIndex(index, corpus)
    ensures Reaches(seed, CorpusById(corpus), index, id) <==> ShareEntity(corpus, seed.id, id)
  {
    var byId := CorpusById(corpus);
    if Reaches(seed, byId, index, id) {
      var entity :| entity in byId[seed.id].entities && id in GetOr(index, entity, {});
      assert Names(corpus, seed.id, entity) && Names(corpus, id, entity);
    }
    if ShareEntity(corpus, seed.id, id) {
      var entity :| Names(corpus, seed.id, entity) && Names(corpus, id, entity);
      var entry :| entry in corpus && entry.id == seed.id && entity in entry.entities;
      EntryOfId(corpus, entry);
      assert id in GetOr(index, entity, {});
    }
  }

  /** The larger of 0 and half the best score among the seeds that share an entity with `id`. */
  ghost predicate IsBestHalf(corpus: seq<CorpusEntry>, seeds: seq<Candidate>, id: string, graph: real) {
    && graph >= 0.0
    && (forall seed | seed in seeds && ShareEntity(corpus, seed.id, id) :: seed.score * 0.5 <= graph)
    && (graph == 0.0 || exists seed | seed in seeds :: ShareEntity(corpus, seed.id, id) && seed.score * 0.5 == graph)
  }

  lemma {:induction false} IndexedScoreIsBestHalf(corpus: seq<CorpusEntry>, index: EntityIndex, seeds: seq<Candidate>, id: string)
    requires IdsIdentify(corpus) && IsIndex(index, corpus)
    ensures IsBestHalf(corpus, seeds, id, ScanScore(seeds, CorpusById(corpus), index, id))
  {
    hide IsIndex, ShareEntity, Reaches, IdsIdentify, CorpusById;
    if seeds == [] {
    } else {
      var n := |seeds| - 1;
      IndexedScoreIsBestHalf(corpus, index, seeds[..n], id);
      ReachesIsSharing(corpus, index, seeds[n], id);
      assert seeds == seeds[..n] + [seeds[n]] && seeds[n] in seeds;
      assert forall seed :: seed in seeds <==> seed in seeds[..n] || seed == seeds[n];
    }
  }

  /** That describes one number. */
  lemma BestHalfIsUnique(corpus: seq<CorpusEntry>, seeds: seq<Candidate>, id: string, g: real, h: real)
    requires IsBestHalf(corpus, seeds, id, g) && IsBestHalf(corpus, seeds, id, h)
    ensures g == h
  {
  }

  lemma {:induction false} ScanBound(seeds: seq<Candidate>, byId: map<string, CorpusEntry>, index: EntityIndex, id: string, bound: real)
    requires bound >= 0.0 && forall seed | seed in seeds :: seed.score <= bound
    ensures 0.0 <= ScanScore(seeds, byId, index, id) <= bound * 0.5
  {
    if seeds == [] {
    } else {
      var n := |seeds| - 1;
      ScanBound(seeds[..n], byId, index, id, bound);
      assert seeds[n] in seeds;
    }
  }
}
