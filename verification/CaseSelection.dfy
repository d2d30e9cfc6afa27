/** Fair sampling of benchmark cases (scripts/bench-cold-warm-locomo.ts): one case per category in turn. */
module CaseSelection {
  import opened JsText

  datatype Qa = Qa(category: string, questionId: string, question: string, answer: string)

  datatype Sample = Sample(sampleId: string, conversation: string, qa: seq<Qa>)

  // A selected case: its sample with that one question.
  datatype Case = Case(sampleId: string, conversation: string, qa: Qa)

  const CATEGORY_ORDER := ["cat-1", "cat-2", "cat-3", "cat-4", "cat-5", "profile", "timeline", "hybrid"]

  // ---------------------------------------------------------------- cases and categories

  function CasesOf(s: Sample): (r: seq<Case>)
    ensures |r| == |s.qa| && forall i | 0 <= i < |r| :: r[i] == Case(s.sampleId, s.conversation, s.qa[i])
  {
    seq(|s.qa|, i requires 0 <= i < |s.qa| => Case(s.sampleId, s.conversation, s.qa[i]))
  }

  function AllCases(samples: seq<Sample>): seq<Case>
    decreases |samples|
  {
    if samples == [] then [] else AllCases(samples[..|samples| - 1]) + CasesOf(samples[|samples| - 1])
  }

  /** The queue of a category, in order. */
  function OfCategory(cases: seq<Case>, category: string): seq<Case>
    decreases |cases|
  {
    if cases == [] then []
    else OfCategory(cases[..|cases| - 1], category) +
         (if cases[|cases| - 1].qa.category == category then [cases[|cases| - 1]] else [])
  }

  /** The distinct categories in order of first occurrence: the key order of the bucket map. */
  function Keys(cases: seq<Case>): seq<string>
    decreases |cases|
  {
    if cases == [] then []
    else
      var ks, c := Keys(cases[..|cases| - 1]), cases[|cases| - 1].qa.category;
      if c in ks then ks else ks + [c]
  }

  /** Code point order, the order `sort()` uses. */
  predicate LexLess(a: string, b: string) {
    b != [] && (a == [] || a[0] < b[0] || (a[0] == b[0] && LexLess(a[1..], b[1..])))
  }

  function Insert(x: string, xs: seq<string>): seq<string> {
    if xs == [] || !LexLess(xs[0], x) then [x] + xs else [xs[0]] + Insert(x, xs[1..])
  }

  function Sort(xs: seq<string>): seq<string> {
    if xs == [] then [] else Insert(xs[0], Sort(xs[1..]))
  }

  function Keep(xs: seq<string>, within: seq<string>, present: bool): seq<string> {
    if xs == [] then []
    else (if (xs[0] in within) == present then [xs[0]] else []) + Keep(xs[1..], within, present)
  }

  function OrderedCategories(keys: seq<string>): seq<string> {
    Keep(CATEGORY_ORDER, keys, true) + Sort(Keep(keys, CATEGORY_ORDER, false))
  }

  // ---------------------------------------------------------------- the order of a full selection

  /** Round `r` up to the category at index `j`: the `r`-th case of each queue that still has one. */
  function Round(queues: seq<seq<Case>>, r: nat, j: nat): seq<Case>
    requires j <= |queues|
    decreases j
  {
    if j == 0 then [] else Round(queues, r, j - 1) + (if r < |queues[j - 1]| then [queues[j - 1][r]] else [])
  }

  function Rounds(queues: seq<seq<Case>>, r: nat): seq<Case>
    decreases r
  {
    if r == 0 then [] else Rounds(queues, r - 1) + Round(queues, r - 1, |queues|)
  }

  function Longest(queues: seq<seq<Case>>): (n: nat)
    ensures forall q | q in queues :: |q| <= n
  {
    if queues == [] then 0
    else
      var rest := Longest(queues[1..]);
      if |queues[0]| > rest then |queues[0]| else rest
  }

  function QueuesOf(cases: seq<Case>, categories: seq<string>): (r: seq<seq<Case>>)
    ensures |r| == |categories| && forall i | 0 <= i < |r| :: r[i] == OfCategory(cases, categories[i])
  {
    seq(|categories|, i requires 0 <= i < |categories| => OfCategory(cases, categories[i]))
  }

  function FullOrder(queues: seq<seq<Case>>): seq<Case> {
    Rounds(queues, Longest(queues))
  }

  function Take(s: seq<Case>, limit: int): (r: seq<Case>)
    ensures r <= s && |r| == if limit <= 0 then 0 else if limit < |s| then limit else |s|
  {
    if limit <= 0 then [] else if limit < |s| then s[..limit] else s
  }

  function Queues(samples: seq<Sample>): seq<seq<Case>> {
    var cases := AllCases(samples);
    QueuesOf(cases, OrderedCategories(Keys(cases)))
  }

  function Selection(samples: seq<Sample>, limit: int): seq<Case> {
    Take(FullOrder(Queues(samples)), limit)
  }

  // ---------------------------------------------------------------- the method

  // The map of buckets after the cases in `cases`, with its keys in insertion order.
  ghost predicate Bucketed(buckets: map<string, seq<Case>>, keys: seq<string>, cases: seq<Case>) {
    && keys == Keys(cases)
    && (forall c :: c in buckets <==> c in keys)
    && (forall c :: (if c in buckets then buckets[c] else []) == OfCategory(cases, c))
  }

  lemma OfCategorySnoc(cases: seq<Case>, x: Case, c: string)
    ensures OfCategory(cases + [x], c) == OfCategory(cases, c) + (if x.qa.category == c then [x] else [])
  {
    assert (cases + [x])[..|cases|] == cases;
  }

  lemma PushBucket(buckets: map<string, seq<Case>>, keys: seq<string>, cases: seq<Case>, x: Case)
    requires Bucketed(buckets, keys, cases)
    ensures var c := x.qa.category;
            var queue := if c in buckets then buckets[c] else [];
            Bucketed(buckets[c := queue + [x]], if c in buckets then keys else keys + [c], cases + [x])
  {
    hide OfCategory;
    assert (cases + [x])[..|cases|] == cases;
    forall c {
      OfCategorySnoc(cases, x, c);
    }
  }

  lemma OfCategoryNone(c: string)
    ensures OfCategory([], c) == []
  {
  }

  lemma EmptyBuckets()
    ensures Bucketed(map[], [], [])
  {
    assert Keys([]) == [];
    forall c {
      OfCategoryNone(c);
    }
  }

  method BuildBuckets(samples: seq<Sample>) returns (buckets: map<string, seq<Case>>, keys: seq<string>)
    ensures Bucketed(buckets, keys, AllCases(samples))
  {
    hide Bucketed;
    buckets, keys := map[], [];
    ghost var done: seq<Case> := [];
    EmptyBuckets();
    for s := 0 to |samples|
      invariant done == AllCases(samples[..s])
      invariant Bucketed(buckets, keys, done)
    {
      var sample := samples[s];
      ghost var before := done;
      for q := 0 to |sample.qa|
        invariant done == before + CasesOf(sample)[..q]
        invariant Bucketed(buckets, keys, done)
      {
        var x := Case(sample.sampleId, sample.conversation, sample.qa[q]);
        var c := x.qa.category;
        PushBucket(buckets, keys, done, x);
        var queue := if c in buckets then buckets[c] else [];
        keys := if c in buckets then keys else keys + [c];
        buckets := buckets[c := queue + [x]];
        done := done + [x];
      }
      assert samples[..s + 1][..s] == samples[..s];
    }
    assert samples[..|samples|] == samples;
  }

  function Rest(q: seq<Case>, n: nat): seq<Case> {
    if n <= |q| then q[n..] else []
  }

  /** Where the loop stands: `r` full rounds and `j` categories of the next one. */
  ghost predicate Standing(buckets: map<string, seq<Case>>, categories: seq<string>, queues: seq<seq<Case>>, r: nat, j: nat) {
    && |queues| == |categories| && j <= |categories|
    && (forall i | 0 <= i < |categories| :: categories[i] in buckets)
    && (forall i | 0 <= i < |categories| ::
          buckets[categories[i]] == Rest(queues[i], if i < j then r + 1 else r))
  }

  lemma RestStep(q: seq<Case>, r: nat)
    ensures Rest(q, r) == [] <==> |q| <= r
    ensures r < |q| ==> Rest(q, r) != [] && Rest(q, r)[0] == q[r] && Rest(q, r)[1..] == Rest(q, r + 1)
    ensures |q| <= r ==> Rest(q, r + 1) == []
  {
    if r < |q| {
      assert q[r..][1..] == q[r + 1..];
    } else if r == |q| {
      assert q[r..] == [];
    }
  }

  lemma {:induction false} KeysDistinct(cases: seq<Case>)
    ensures Distinct(Keys(cases))
    ensures forall c :: c in Keys(cases) <==> OfCategory(cases, c) != []
    ensures forall x | x in cases :: x.qa.category in Keys(cases)
    decreases |cases|
  {
    if cases == [] {
    } else {
      var init := cases[..|cases| - 1];
      KeysDistinct(init);
      assert cases == init + [cases[|cases| - 1]];
    }
  }

  lemma {:induction false} KeepDistinct(xs: seq<string>, within: seq<string>, present: bool)
    requires Distinct(xs)
    ensures Distinct(Keep(xs, within, present))
    ensures forall v :: v in Keep(xs, within, present) <==> v in xs && ((v in within) == present)
  {
    if xs == [] {
    } else {
      assert xs == [xs[0]] + xs[1..];
      DistinctCons(xs[0], xs[1..]);
      KeepDistinct(xs[1..], within, present);
      DistinctCons(xs[0], Keep(xs[1..], within, present));
    }
  }

  lemma {:induction false} InsertKeeps(x: string, xs: seq<string>)
    requires x !in xs && Distinct(xs)
    ensures Distinct(Insert(x, xs))
    ensures forall v :: v in Insert(x, xs) <==> v == x || v in xs
  {
    hide LexLess;
    if xs != [] && LexLess(xs[0], x) {
      assert xs == [xs[0]] + xs[1..];
      DistinctCons(xs[0], xs[1..]);
      InsertKeeps(x, xs[1..]);
      DistinctCons(xs[0], Insert(x, xs[1..]));
    } else {
      DistinctCons(x, xs);
    }
  }

  lemma {:induction false} SortKeeps(xs: seq<string>)
    requires Distinct(xs)
    ensures Distinct(Sort(xs)) && forall v :: v in Sort(xs) <==> v in xs
  {
    if xs == [] {
    } else {
      assert xs == [xs[0]] + xs[1..];
      DistinctCons(xs[0], xs[1..]);
      SortKeeps(xs[1..]);
      InsertKeeps(xs[0], Sort(xs[1..]));
    }
  }

  lemma DistinctConcat(xs: seq<string>, ys: seq<string>)
    requires Distinct(xs) && Distinct(ys) && forall v | v in xs :: v !in ys
    ensures Distinct(xs + ys)
  {
    forall i, j | 0 <= i < j < |xs + ys| ensures (xs + ys)[i] != (xs + ys)[j] {
      if i < |xs| <= j {
        assert xs[i] in xs && ys[j - |xs|] in ys;
      }
    }
  }

  lemma KnownDistinct()
    ensures Distinct(CATEGORY_ORDER)
  {
    var o := CATEGORY_ORDER;
    assert o[0][4] == '1' && o[1][4] == '2' && o[2][4] == '3' && o[3][4] == '4' && o[4][4] == '5';
    assert o[0][0] == 'c' && o[1][0] == 'c' && o[2][0] == 'c' && o[3][0] == 'c' && o[4][0] == 'c';
    assert o[5][0] == 'p' && o[6][0] == 't' && o[7][0] == 'h';
  }

  /** The categories visited are the bucket keys, each once. */
  lemma OrderedIsPermutation(keys: seq<string>)
    requires Distinct(keys)
    ensures Distinct(OrderedCategories(keys)) && forall c :: c in OrderedCategories(keys) <==> c in keys
  {
    hide Keep, Sort;
    KnownDistinct();
    KeepDistinct(CATEGORY_ORDER, keys, true);
    KeepDistinct(keys, CATEGORY_ORDER, false);
    SortKeeps(Keep(keys, CATEGORY_ORDER, false));
    DistinctConcat(Keep(CATEGORY_ORDER, keys, true), Sort(Keep(keys, CATEGORY_ORDER, false)));
  }

  lemma StartStanding(samples: seq<Sample>, buckets: map<string, seq<Case>>, keys: seq<string>)
    requires Bucketed(buckets, keys, AllCases(samples))
    ensures Standing(buckets, OrderedCategories(keys), Queues(samples), 0, 0)
    ensures Distinct(OrderedCategories(keys))
  {
    hide OfCategory;
    KeysDistinct(AllCases(samples));
    OrderedIsPermutation(keys);
    var categories, queues := OrderedCategories(keys), Queues(samples);
    forall i | 0 <= i < |categories|
      ensures categories[i] in buckets && buckets[categories[i]] == Rest(queues[i], 0)
    {
      assert categories[i] in keys;
      assert queues[i] == OfCategory(AllCases(samples), categories[i]);
      assert Rest(queues[i], 0) == queues[i];
    }
  }

  lemma ShiftStanding(buckets: map<string, seq<Case>>, categories: seq<string>, queues: seq<seq<Case>>, r: nat, j: nat)
    requires Standing(buckets, categories, queues, r, j) && j < |categories| && Distinct(categories)
    ensures categories[j] in buckets && buckets[categories[j]] == Rest(queues[j], r)
    ensures r < |queues[j]| ==> Standing(buckets[categories[j] := Rest(queues[j], r)[1..]], categories, queues, r, j + 1)
    ensures |queues[j]| <= r ==> Standing(buckets, categories, queues, r, j + 1)
  {
    RestStep(queues[j], r);
  }

  lemma StartOfOrder(buckets: map<string, seq<Case>>, categories: seq<string>, queues: seq<seq<Case>>)
    requires Standing(buckets, categories, queues, 0, 0)
    ensures |queues| == |categories| && Rounds(queues, 0) == []
  {
  }

  lemma RoundOfNone(queues: seq<seq<Case>>, r: nat)
    ensures Round(queues, r, 0) == []
  {
  }

  lemma RoundStep(queues: seq<seq<Case>>, r: nat, j: nat)
    requires j < |queues|
    ensures Round(queues, r, j + 1) == Round(queues, r, j) + (if r < |queues[j]| then [queues[j][r]] else [])
  {
  }

  lemma NextRound(buckets: map<string, seq<Case>>, categories: seq<string>, queues: seq<seq<Case>>, r: nat)
    requires Standing(buckets, categories, queues, r, |categories|)
    ensures Standing(buckets, categories, queues, r + 1, 0)
  {
  }

  lemma RoundsUnfold(queues: seq<seq<Case>>, r: nat)
    ensures Rounds(queues, r + 1) == Rounds(queues, r) + Round(queues, r, |queues|)
  {
  }

  lemma {:induction false} RoundsGrow(queues: seq<seq<Case>>, r: nat, s: nat)
    requires r <= s
    ensures Rounds(queues, r) <= Rounds(queues, s)
    decreases s
  {
    if r < s {
      RoundsGrow(queues, r, s - 1);
    }
  }

  lemma {:induction false} RoundGrows(queues: seq<seq<Case>>, r: nat, j: nat, k: nat)
    requires j <= k <= |queues|
    ensures Round(queues, r, j) <= Round(queues, r, k)
    decreases k
  {
    if j < k {
      RoundGrows(queues, r, j, k - 1);
    }
  }

  lemma {:induction false} RoundEmpty(queues: seq<seq<Case>>, r: nat, j: nat)
    requires j <= |queues| && forall i | 0 <= i < j :: |queues[i]| <= r
    ensures Round(queues, r, j) == []
    decreases j
  {
    if j == 0 {
    } else {
      RoundEmpty(queues, r, j - 1);
    }
  }

  lemma {:induction false} BeyondLongest(queues: seq<seq<Case>>, r: nat)
    requires Longest(queues) <= r
    ensures Rounds(queues, r) == FullOrder(queues)
    decreases r
  {
    hide Longest, Round;
    if Longest(queues) < r {
      BeyondLongest(queues, r - 1);
      forall i | 0 <= i < |queues| ensures |queues[i]| <= r - 1 {
        assert queues[i] in queues;
      }
      RoundEmpty(queues, r - 1, |queues|);
    }
  }

  lemma FullIsRounds(queues: seq<seq<Case>>)
    ensures FullOrder(queues) == Rounds(queues, Longest(queues))
    ensures FullOrder(queues) == Rounds(queues, Longest(queues)) + Round(queues, Longest(queues), 0)
  {
    assert Rounds(queues, Longest(queues)) + [] == Rounds(queues, Longest(queues));
  }

  lemma PositionIsPrefix(queues: seq<seq<Case>>, r: nat, j: nat)
    requires j <= |queues|
    ensures Rounds(queues, r) + Round(queues, r, j) <= FullOrder(queues)
  {
    hide Round, Rounds, FullOrder;
    RoundGrows(queues, r, j, |queues|);
    RoundsUnfold(queues, r);
    if r + 1 <= Longest(queues) {
      RoundsGrow(queues, r + 1, Longest(queues));
      FullIsRounds(queues);
    } else {
      BeyondLongest(queues, r + 1);
    }
  }

  lemma {:induction false} RoundEmptyMeans(queues: seq<seq<Case>>, r: nat, j: nat)
    requires j <= |queues| && Round(queues, r, j) == []
    ensures forall i | 0 <= i < j :: |queues[i]| <= r
    decreases j
  {
    if j == 0 {
    } else {
      RoundEmptyMeans(queues, r, j - 1);
    }
  }

  lemma {:induction false} LongestAtMost(queues: seq<seq<Case>>, r: nat)
    requires forall i | 0 <= i < |queues| :: |queues[i]| <= r
    ensures Longest(queues) <= r
  {
    if queues == [] {
    } else {
      LongestAtMost(queues[1..], r);
    }
  }

  lemma ExhaustedIsFull(queues: seq<seq<Case>>, r: nat)
    requires Round(queues, r, |queues|) == []
    ensures Rounds(queues, r) == FullOrder(queues) && Rounds(queues, r + 1) == FullOrder(queues)
  {
    RoundEmptyMeans(queues, r, |queues|);
    LongestAtMost(queues, r);
    BeyondLongest(queues, r);
    BeyondLongest(queues, r + 1);
  }

  method SelectSingleQaCases(samples: seq<Sample>, limit: int) returns (selected: seq<Case>)
    ensures selected == Selection(samples, limit)
  {
    hide Bucketed, Standing, Round, Rounds, FullOrder, OrderedCategories, Rest, Queues;
    var buckets, keys := BuildBuckets(samples);
    var categories := OrderedCategories(keys);
    ghost var queues, r := Queues(samples), 0;
    StartStanding(samples, buckets, keys);
    StartOfOrder(buckets, categories, queues);
    selected := [];
    while |selected| < limit
      invariant selected <= FullOrder(queues) && (|selected| <= limit || selected == [])
      invariant |queues| == |categories| && Distinct(categories)
      invariant |selected| < limit ==> selected == Rounds(queues, r) && Standing(buckets, categories, queues, r, 0)
      decreases limit - |selected|
    {
      var progressed := false;
      var j := 0;
      RoundOfNone(queues, r);
      while j < |categories|
        invariant j <= |categories| && |selected| < limit
        invariant selected == Rounds(queues, r) + Round(queues, r, j)
        invariant Standing(buckets, categories, queues, r, j)
        invariant progressed <==> Round(queues, r, j) != []
      {
        var category := categories[j];
        ShiftStanding(buckets, categories, queues, r, j);
        RestStep(queues[j], r);
        RoundStep(queues, r, j);
        var queue := if category in buckets then buckets[category] else [];
        j := j + 1;
        if |queue| == 0 { continue; }
        selected := selected + [queue[0]];
        buckets := buckets[category := queue[1..]];
        progressed := true;
        if |selected| >= limit { break; }
      }
      PositionIsPrefix(queues, r, j);
      if !progressed {
        ExhaustedIsFull(queues, r);
        break;
      }
      if |selected| < limit {
        RoundsUnfold(queues, r);
        NextRound(buckets, categories, queues, r);
      }
      r := r + 1;
    }
  }

  // ---------------------------------------------------------------- prefixes of the full order

  // Every prefix of a position is a position.
  lemma {:induction false} FindPosition(queues: seq<seq<Case>>, n: nat, r: nat, j: nat) returns (r': nat, j': nat)
    requires j <= |queues| && n <= |Rounds(queues, r) + Round(queues, r, j)|
    ensures j' <= |queues| && Rounds(queues, r') + Round(queues, r', j') == (Rounds(queues, r) + Round(queues, r, j))[..n]
    decreases r, j
  {
    var all := Rounds(queues, r) + Round(queues, r, j);
    if n == |all| {
      r', j' := r, j;
    } else if j > 0 {
      var less := Rounds(queues, r) + Round(queues, r, j - 1);
      assert less <= all && |all| <= |less| + 1;
      r', j' := FindPosition(queues, n, r, j - 1);
      assert less[..n] == all[..n];
    } else {
      assert all == Rounds(queues, r - 1) + Round(queues, r - 1, |queues|);
      r', j' := FindPosition(queues, n, r - 1, |queues|);
    }
  }

  // ---------------------------------------------------------------- categories

  lemma {:induction false} LexLessIsTransitive(a: string, b: string, c: string)
    requires !LexLess(b, a) && !LexLess(c, b)
    ensures !LexLess(c, a)
    decreases |a|
  {
    if a != [] && b != [] && c != [] && a[0] == b[0] == c[0] {
      LexLessIsTransitive(a[1..], b[1..], c[1..]);
    }
  }

  lemma {:induction false} LexLessIsAsymmetric(a: string, b: string)
    requires LexLess(a, b)
    ensures !LexLess(b, a)
    decreases |a|
  {
    if a != [] && a[0] == b[0] { LexLessIsAsymmetric(a[1..], b[1..]); }
  }

  ghost predicate Ascending(xs: seq<string>) {
    forall i, j | 0 <= i < j < |xs| :: !LexLess(xs[j], xs[i])
  }

  lemma {:induction false} InsertAscending(x: string, xs: seq<string>)
    requires Ascending(xs)
    ensures Ascending(Insert(x, xs))
    ensures forall v | v in Insert(x, xs) :: v == x || v in xs
  {
    hide LexLess;
    if xs == [] {
    } else if !LexLess(xs[0], x) {
      forall j | 0 <= j < |xs| ensures !LexLess(xs[j], x) {
        if j > 0 { LexLessIsTransitive(x, xs[0], xs[j]); }
      }
    } else {
      var rest := Insert(x, xs[1..]);
      InsertAscending(x, xs[1..]);
      LexLessIsAsymmetric(xs[0], x);
      forall j | 0 <= j < |rest| ensures !LexLess(rest[j], xs[0]) {
        assert rest[j] in rest;
        if rest[j] != x { assert rest[j] in xs[1..]; }
      }
    }
  }

  /** The categories outside the fixed list come in ascending order. */
  lemma {:induction false} SortAscending(xs: seq<string>)
    ensures Ascending(Sort(xs))
  {
    if xs == [] {
    } else {
      SortAscending(xs[1..]);
      InsertAscending(xs[0], Sort(xs[1..]));
    }
  }

  // ---------------------------------------------------------------- what a selection holds of each category

  /** Queue `i` holds only cases of category `i`. */
  ghost predicate Sorted(queues: seq<seq<Case>>, categories: seq<string>) {
    && |queues| == |categories| && Distinct(categories)
    && forall i, x | 0 <= i < |queues| && x in queues[i] :: x.qa.category == categories[i]
  }

  function Min(a: nat, b: nat): nat {
    if a < b then a else b
  }

  lemma {:induction false} OfCategoryConcat(xs: seq<Case>, ys: seq<Case>, c: string)
    ensures OfCategory(xs + ys, c) == OfCategory(xs, c) + OfCategory(ys, c)
    decreases |ys|
  {
    if ys == [] {
      assert xs + ys == xs;
    } else {
      assert (xs + ys)[..|xs + ys| - 1] == xs + ys[..|ys| - 1];
      OfCategoryConcat(xs, ys[..|ys| - 1], c);
    }
  }

  lemma OfCategoryOne(x: Case, c: string)
    ensures OfCategory([x], c) == if x.qa.category == c then [x] else []
  {
    assert [x][..0] == [];
  }

  lemma {:induction false} RoundOfCategory(queues: seq<seq<Case>>, categories: seq<string>, r: nat, j: nat, i: nat)
    requires Sorted(queues, categories) && j <= |queues| && i < |queues|
    ensures OfCategory(Round(queues, r, j), categories[i]) == if i < j && r < |queues[i]| then [queues[i][r]] else []
    decreases j
  {
    hide OfCategory;
    if j == 0 {
      OfCategoryNone(categories[i]);
    } else {
      RoundOfCategory(queues, categories, r, j - 1, i);
      if r < |queues[j - 1]| {
        var x := queues[j - 1][r];
        assert x in queues[j - 1];
        OfCategoryConcat(Round(queues, r, j - 1), [x], categories[i]);
        OfCategoryOne(x, categories[i]);
      } else {
        assert Round(queues, r, j - 1) + [] == Round(queues, r, j - 1);
      }
    }
  }

  lemma PrefixStep(q: seq<Case>, r: nat)
    ensures q[..Min(r + 1, |q|)] == q[..Min(r, |q|)] + (if r < |q| then [q[r]] else [])
  {
  }

  lemma SortedNames(queues: seq<seq<Case>>, categories: seq<string>)
    requires Sorted(queues, categories)
    ensures |queues| == |categories|
  {
  }

  lemma {:induction false} RoundsOfCategory(queues: seq<seq<Case>>, categories: seq<string>, r: nat, i: nat)
    requires Sorted(queues, categories) && i < |queues|
    ensures OfCategory(Rounds(queues, r), categories[i]) == queues[i][..Min(r, |queues[i]|)]
    decreases r
  {
    hide OfCategory, Sorted, Round;
    SortedNames(queues, categories);
    if r == 0 {
      OfCategoryNone(categories[i]);
    } else {
      RoundsOfCategory(queues, categories, r - 1, i);
      RoundOfCategory(queues, categories, r - 1, |queues|, i);
      OfCategoryConcat(Rounds(queues, r - 1), Round(queues, r - 1, |queues|), categories[i]);
      PrefixStep(queues[i], r - 1);
    }
  }

  lemma {:induction false} OfCategoryPure(cases: seq<Case>, c: string)
    ensures forall x | x in OfCategory(cases, c) :: x.qa.category == c
    decreases |cases|
  {
    if cases == [] {
    } else {
      OfCategoryPure(cases[..|cases| - 1], c);
    }
  }

  lemma QueuesSorted(cases: seq<Case>, categories: seq<string>)
    requires Distinct(categories)
    ensures Sorted(QueuesOf(cases, categories), categories)
  {
    forall i, x | 0 <= i < |categories| && x in OfCategory(cases, categories[i]) ensures x.qa.category == categories[i] {
      OfCategoryPure(cases, categories[i]);
    }
  }

  // ---------------------------------------------------------------- theorems

  /** The cases taken of a category are a prefix of its queue. */
  function Taken(samples: seq<Sample>, limit: int, c: string): nat {
    |OfCategory(Selection(samples, limit), c)|
  }

  lemma SelectionPosition(samples: seq<Sample>, limit: int) returns (r: nat, j: nat)
    ensures j <= |Queues(samples)|
    ensures Selection(samples, limit) == Rounds(Queues(samples), r) + Round(Queues(samples), r, j)
  {
    hide FullOrder, Queues, Round, Rounds;
    var queues := Queues(samples);
    FullIsRounds(queues);
    r, j := FindPosition(queues, |Selection(samples, limit)|, Longest(queues), 0);
  }

  lemma {:induction false} Elsewhere(queues: seq<seq<Case>>, categories: seq<string>, r: nat, j: nat, c: string)
    requires Sorted(queues, categories) && j <= |queues| && c !in categories
    ensures OfCategory(Round(queues, r, j), c) == [] && OfCategory(Rounds(queues, r), c) == []
    decreases r, j
  {
    hide OfCategory;
    OfCategoryNone(c);
    if j > 0 {
      Elsewhere(queues, categories, r, j - 1, c);
      if r < |queues[j - 1]| {
        var x := queues[j - 1][r];
        assert x in queues[j - 1] && categories[j - 1] in categories;
        assert Round(queues, r, j) == Round(queues, r, j - 1) + [x];
        OfCategoryConcat(Round(queues, r, j - 1), [x], c);
        OfCategoryOne(x, c);
      } else {
        assert Round(queues, r, j) == Round(queues, r, j - 1);
      }
    } else if r > 0 {
      Elsewhere(queues, categories, r - 1, |queues|, c);
      OfCategoryConcat(Rounds(queues, r - 1), Round(queues, r - 1, |queues|), c);
    }
  }

  lemma TakenAt(queues: seq<seq<Case>>, categories: seq<string>, r: nat, j: nat, c: string)
    requires Sorted(queues, categories) && j <= |queues|
    ensures forall i | 0 <= i < |categories| && categories[i] == c ::
              OfCategory(Rounds(queues, r) + Round(queues, r, j), c) ==
              queues[i][..Min(if i < j then r + 1 else r, |queues[i]|)]
    ensures c !in categories ==> OfCategory(Rounds(queues, r) + Round(queues, r, j), c) == []
  {
    hide OfCategory, Round, Rounds;
    OfCategoryConcat(Rounds(queues, r), Round(queues, r, j), c);
    forall i | 0 <= i < |categories| && categories[i] == c
      ensures OfCategory(Rounds(queues, r) + Round(queues, r, j), c) == queues[i][..Min(if i < j then r + 1 else r, |queues[i]|)]
    {
      RoundsOfCategory(queues, categories, r, i);
      RoundOfCategory(queues, categories, r, j, i);
    }
    if c !in categories {
      Elsewhere(queues, categories, r, j, c);
    }
  }

  // At round `r` and category `j`, a queue gave its first `r` or `r + 1` cases, or all it had.
  lemma TakenOf(samples: seq<Sample>, limit: int, r: nat, j: nat, c: string)
    requires j <= |Queues(samples)|
    requires Selection(samples, limit) == Rounds(Queues(samples), r) + Round(Queues(samples), r, j)
    ensures var queue := OfCategory(AllCases(samples), c);
            && OfCategory(Selection(samples, limit), c) <= queue
            && Min(r, |queue|) <= Taken(samples, limit, c) <= Min(r + 1, |queue|)
  {
    hide OfCategory, OrderedCategories, FullOrder, Keys, Round, Rounds, AllCases, Selection, Sorted;
    var cases := AllCases(samples);
    var categories, queues := OrderedCategories(Keys(cases)), Queues(samples);
    KeysDistinct(cases);
    OrderedIsPermutation(Keys(cases));
    QueuesSorted(cases, categories);
    TakenAt(queues, categories, r, j, c);
    if c in categories {
      var i :| 0 <= i < |categories| && categories[i] == c;
      assert queues[i] == OfCategory(cases, c);
    } else {
      assert OfCategory(cases, c) == [];
    }
  }

  /**
   Of every category the selection takes a prefix of the queue; two categories differ by two or more cases
   only if the smaller one is exhausted.
   */
  lemma Fairness(samples: seq<Sample>, limit: int, c: string, d: string)
    ensures var cases := AllCases(samples);
            && OfCategory(Selection(samples, limit), c) <= OfCategory(cases, c)
            && (d in Keys(cases) && Taken(samples, limit, c) + 2 <= Taken(samples, limit, d) ==>
                  Taken(samples, limit, c) == |OfCategory(cases, c)|)
  {
    hide OfCategory, OrderedCategories, FullOrder, Keys, Round, Rounds, Sorted, AllCases, Selection;
    var cases := AllCases(samples);
    var categories := OrderedCategories(Keys(cases));
    KeysDistinct(cases);
    OrderedIsPermutation(Keys(cases));
    var r, j := SelectionPosition(samples, limit);
    TakenOf(samples, limit, r, j, c);
    TakenOf(samples, limit, r, j, d);
  }

  // ---------------------------------------------------------------- which category comes first

  /** `a` is a proper prefix of `b`, or has the smaller character where they first differ. */
  ghost predicate DiffersAt(a: string, b: string, k: nat) {
    k <= |a| && k < |b| && a[..k] == b[..k] && (k == |a| || a[k] < b[k])
  }

  lemma SameHead(a: string, b: string, k: nat)
    requires DiffersAt(a, b, k) && k > 0
    ensures a != "" && b != "" && a[0] == b[0]
  {
    assert a[..k][0] == b[..k][0];
  }

  lemma {:induction false} LexLessMeaning(a: string, b: string)
    ensures LexLess(a, b) <==> exists k: nat :: DiffersAt(a, b, k)
    decreases |a|
  {
    if b == [] || a == [] || a[0] != b[0] {
      if LexLess(a, b) { assert DiffersAt(a, b, 0); }
      if k: nat :| DiffersAt(a, b, k) {
        if k > 0 { SameHead(a, b, k); }
      }
    } else {
      LexLessMeaning(a[1..], b[1..]);
      if k: nat :| DiffersAt(a[1..], b[1..], k) {
        assert a[..k + 1] == [a[0]] + a[1..][..k] && b[..k + 1] == [b[0]] + b[1..][..k];
        assert DiffersAt(a, b, k + 1);
      }
      if k: nat :| DiffersAt(a, b, k) {
        assert k > 0;
        assert a[1..][..k - 1] == a[..k][1..] && b[1..][..k - 1] == b[..k][1..];
        assert DiffersAt(a[1..], b[1..], k - 1);
      }
    }
  }

  ghost predicate PrecedesAt(xs: seq<string>, c: string, d: string, i: int, j: int) {
    0 <= i < j < |xs| && xs[i] == c && xs[j] == d
  }

  ghost predicate Precedes(xs: seq<string>, c: string, d: string) {
    exists i, j :: PrecedesAt(xs, c, d, i, j)
  }

  /** The order in which categories take their turn: the listed ones as listed, then the others by name. */
  ghost predicate Earlier(c: string, d: string) {
    var listed := ["cat-1", "cat-2", "cat-3", "cat-4", "cat-5", "profile", "timeline", "hybrid"];
    || Precedes(listed, c, d)
    || (c in listed && d !in listed)
    || (c !in listed && d !in listed && exists k: nat :: DiffersAt(c, d, k))
  }

  lemma PrecedesLater(x: string, xs: seq<string>, c: string, d: string)
    ensures Precedes(xs, c, d) ==> Precedes([x] + xs, c, d)
    ensures x == c && d in xs ==> Precedes([x] + xs, c, d)
  {
    var all := [x] + xs;
    if i, j :| PrecedesAt(xs, c, d, i, j) {
      assert PrecedesAt(all, c, d, i + 1, j + 1);
    }
    if x == c && d in xs {
      var j :| 0 <= j < |xs| && xs[j] == d;
      assert PrecedesAt(all, c, d, 0, j + 1);
    }
  }

  lemma KeepCons(xs: seq<string>, within: seq<string>, present: bool)
    requires xs != []
    ensures Keep(xs, within, present) == (if (xs[0] in within) == present then [xs[0]] else []) + Keep(xs[1..], within, present)
  {
  }

  lemma {:induction false} KeepPrecedes(xs: seq<string>, within: seq<string>, c: string, d: string)
    requires Precedes(xs, c, d) && Distinct(xs) && c in within && d in within
    ensures Precedes(Keep(xs, within, true), c, d)
  {
    hide Keep;
    var i, j :| PrecedesAt(xs, c, d, i, j);
    var rest := xs[1..];
    assert xs == [xs[0]] + rest;
    DistinctCons(xs[0], rest);
    KeepDistinct(rest, within, true);
    KeepCons(xs, within, true);
    var kept := Keep(rest, within, true);
    assert rest[j - 1] == d;
    if i == 0 {
      PrecedesLater(xs[0], kept, c, d);
    } else {
      assert PrecedesAt(rest, c, d, i - 1, j - 1);
      KeepPrecedes(rest, within, c, d);
      PrecedesLater(xs[0], kept, c, d);
      assert [] + kept == kept;
    }
  }

  lemma PrecedesBoth(xs: seq<string>, ys: seq<string>, c: string, d: string)
    ensures Precedes(xs, c, d) ==> Precedes(xs + ys, c, d)
    ensures Precedes(ys, c, d) ==> Precedes(xs + ys, c, d)
    ensures c in xs && d in ys ==> Precedes(xs + ys, c, d)
  {
    var all := xs + ys;
    if i, j :| PrecedesAt(xs, c, d, i, j) {
      assert PrecedesAt(all, c, d, i, j);
    }
    if i, j :| PrecedesAt(ys, c, d, i, j) {
      assert PrecedesAt(all, c, d, |xs| + i, |xs| + j);
    }
    if c in xs && d in ys {
      var i :| 0 <= i < |xs| && xs[i] == c;
      var j :| 0 <= j < |ys| && ys[j] == d;
      assert PrecedesAt(all, c, d, i, |xs| + j);
    }
  }

  lemma AscendingAt(xs: seq<string>, i: nat, j: nat)
    requires Ascending(xs) && i < j < |xs|
    ensures !LexLess(xs[j], xs[i])
  {
  }

  lemma SortPrecedes(xs: seq<string>, c: string, d: string)
    requires Distinct(xs) && c in xs && d in xs && LexLess(c, d)
    ensures Precedes(Sort(xs), c, d)
  {
    hide LexLess, Sort, Ascending;
    SortKeeps(xs);
    SortAscending(xs);
    LexLessIsAsymmetric(c, d);
    var s := Sort(xs);
    var i: nat :| i < |s| && s[i] == c;
    var j: nat :| j < |s| && s[j] == d;
    if i < j {
      assert PrecedesAt(s, c, d, i, j);
    } else if j < i {
      AscendingAt(s, j, i);
    }
  }

  lemma EarlierCases(c: string, d: string)
    requires Earlier(c, d)
    ensures || Precedes(CATEGORY_ORDER, c, d)
            || (c in CATEGORY_ORDER && d !in CATEGORY_ORDER)
            || (c !in CATEGORY_ORDER && d !in CATEGORY_ORDER && exists k: nat :: DiffersAt(c, d, k))
  {
    hide Precedes, DiffersAt;
  }

  lemma EarlierPrecedes(keys: seq<string>, c: string, d: string)
    requires Distinct(keys) && c in keys && d in keys && Earlier(c, d)
    ensures Precedes(OrderedCategories(keys), c, d)
  {
    var listed := CATEGORY_ORDER;
    EarlierCases(c, d);
    KnownDistinct();
    hide Keep, Sort, LexLess, Precedes, CATEGORY_ORDER, Distinct, Earlier, DiffersAt;
    var known, others := Keep(listed, keys, true), Keep(keys, listed, false);
    KeepDistinct(listed, keys, true);
    KeepDistinct(keys, listed, false);
    SortKeeps(others);
    PrecedesBoth(known, Sort(others), c, d);
    if Precedes(listed, c, d) {
      KeepPrecedes(listed, keys, c, d);
    } else if c !in listed {
      LexLessMeaning(c, d);
      SortPrecedes(others, c, d);
    }
  }

  lemma TakenExactly(samples: seq<Sample>, limit: int, r: nat, j: nat, i: nat)
    requires j <= |Queues(samples)| && i < |Queues(samples)|
    requires Selection(samples, limit) == Rounds(Queues(samples), r) + Round(Queues(samples), r, j)
    ensures var c := OrderedCategories(Keys(AllCases(samples)))[i];
      Taken(samples, limit, c) == Min(if i < j then r + 1 else r, |OfCategory(AllCases(samples), c)|)
  {
    hide OfCategory, OrderedCategories, FullOrder, Keys, Round, Rounds, AllCases, Selection, Sorted;
    var cases := AllCases(samples);
    KeysDistinct(cases);
    OrderedIsPermutation(Keys(cases));
    QueuesSorted(cases, OrderedCategories(Keys(cases)));
    TakenAt(Queues(samples), OrderedCategories(Keys(cases)), r, j, OrderedCategories(Keys(cases))[i]);
  }

  /** In every selection an earlier category has at least as many cases as a later one, or all it has. */
  lemma EarlierFirst(samples: seq<Sample>, limit: int, c: string, d: string)
    requires Earlier(c, d)
    ensures Taken(samples, limit, d) <= Taken(samples, limit, c)
         || Taken(samples, limit, c) == |OfCategory(AllCases(samples), c)|
  {
    hide OfCategory, OrderedCategories, FullOrder, Keys, Round, Rounds, AllCases, Selection, Sorted, Earlier;
    var cases := AllCases(samples);
    KeysDistinct(cases);
    Fairness(samples, limit, c, c);
    Fairness(samples, limit, d, d);
    if c in Keys(cases) && d in Keys(cases) {
      EarlierPrecedes(Keys(cases), c, d);
      var i, k :| PrecedesAt(OrderedCategories(Keys(cases)), c, d, i, k);
      var r, j := SelectionPosition(samples, limit);
      TakenExactly(samples, limit, r, j, i);
      TakenExactly(samples, limit, r, j, k);
    }
  }

  /** A smaller limit selects a prefix of what a larger one does. */
  lemma LimitMonotone(samples: seq<Sample>, small: int, large: int)
    requires small <= large
    ensures Selection(samples, small) <= Selection(samples, large)
  {
    hide FullOrder, Queues;
  }

  function Total(queues: seq<seq<Case>>, r: nat, j: nat): nat
    requires j <= |queues|
    decreases j
  {
    if j == 0 then 0 else Total(queues, r, j - 1) + Min(r, |queues[j - 1]|)
  }

  lemma {:induction false} TotalStep(queues: seq<seq<Case>>, r: nat, j: nat)
    requires j <= |queues|
    ensures Total(queues, r + 1, j) == Total(queues, r, j) + |Round(queues, r, j)|
    decreases j
  {
    if j == 0 {
    } else {
      TotalStep(queues, r, j - 1);
    }
  }

  lemma {:induction false} TotalZero(queues: seq<seq<Case>>, j: nat)
    requires j <= |queues|
    ensures Total(queues, 0, j) == 0
    decreases j
  {
    if j == 0 {
    } else {
      TotalZero(queues, j - 1);
    }
  }

  lemma {:induction false} RoundsTotal(queues: seq<seq<Case>>, r: nat)
    ensures |Rounds(queues, r)| == Total(queues, r, |queues|)
    decreases r
  {
    if r > 0 {
      RoundsTotal(queues, r - 1);
      TotalStep(queues, r - 1, |queues|);
    } else {
      TotalZero(queues, |queues|);
    }
  }

  lemma {:induction false} EmptyTotal(categories: seq<string>, n: nat, j: nat)
    requires j <= |categories|
    ensures Total(QueuesOf([], categories), n, j) == 0
    decreases j
  {
    if j == 0 {
    } else {
      EmptyTotal(categories, n, j - 1);
    }
  }

  lemma {:induction false} OfCategorySmaller(cases: seq<Case>, c: string)
    ensures |OfCategory(cases, c)| <= |cases|
    decreases |cases|
  {
    if cases == [] {
    } else {
      OfCategorySmaller(cases[..|cases| - 1], c);
    }
  }

  lemma {:induction false} TotalAdds(init: seq<Case>, x: Case, categories: seq<string>, n: nat, j: nat, k: nat)
    requires j <= |categories| && Distinct(categories) && |init| < n
    requires k < |categories| && categories[k] == x.qa.category
    ensures Total(QueuesOf(init + [x], categories), n, j) == Total(QueuesOf(init, categories), n, j) + if k < j then 1 else 0
    decreases j
  {
    hide OfCategory;
    if j == 0 {
    } else {
      TotalAdds(init, x, categories, n, j - 1, k);
      var c := categories[j - 1];
      OfCategoryConcat(init, [x], c);
      OfCategoryOne(x, c);
      OfCategorySmaller(init, c);
    }
  }

  lemma {:induction false} TotalOfPartition(cases: seq<Case>, categories: seq<string>, n: nat)
    requires Distinct(categories) && |cases| <= n
    requires forall x | x in cases :: x.qa.category in categories
    ensures Total(QueuesOf(cases, categories), n, |categories|) == |cases|
    decreases |cases|
  {
    hide OfCategory;
    if cases == [] {
      EmptyTotal(categories, n, |categories|);
    } else {
      var init, x := cases[..|cases| - 1], cases[|cases| - 1];
      assert cases == init + [x];
      TotalOfPartition(init, categories, n);
      var k :| 0 <= k < |categories| && categories[k] == x.qa.category;
      TotalAdds(init, x, categories, n, |categories|, k);
    }
  }

  /** The selection has exactly as many cases as the limit allows and the samples hold. */
  lemma SelectionSize(samples: seq<Sample>, limit: int)
    ensures var total := |AllCases(samples)|;
            |Selection(samples, limit)| == if limit <= 0 then 0 else if limit < total then limit else total
  {
    hide OfCategory, OrderedCategories, Keys, AllCases;
    var cases := AllCases(samples);
    var categories, queues := OrderedCategories(Keys(cases)), Queues(samples);
    KeysDistinct(cases);
    OrderedIsPermutation(Keys(cases));
    var n := if Longest(queues) < |cases| then |cases| else Longest(queues);
    BeyondLongest(queues, n);
    RoundsTotal(queues, n);
    TotalOfPartition(cases, categories, n);
  }
}
