/**
 Feed item merging (harness-mem-ui/src/lib/merge.ts).  A page of the feed is folded into the list
 already shown; `Normalize` is the list the loop of `mergeFeedItems` builds, and the theorems at the
 end say that folding page by page is the same as folding everything at once.
 */
module FeedMerge {
  import opened JsText

  // `extra` stands for the properties outside the declared interface, which the object spread copies.
  datatype FeedItem = FeedItem(
    id: string,
    eventId: Option<string>, platform: Option<string>, project: Option<string>,
    canonicalProject: Option<string>, sessionId: Option<string>, eventType: Option<string>,
    cardType: Option<string>, title: Option<string>, content: Option<string>,
    summary: Option<string>, createdAt: Option<string>,
    tags: Option<seq<string>>, privacyTags: Option<seq<string>>,
    extra: map<string, string>)

  function TakeString(primary: Option<string>, secondary: Option<string>): Option<string> {
    if primary.Some? && Trim(primary.value) != "" then primary
    else if secondary.Some? && Trim(secondary.value) != "" then secondary
    else if primary.Some? then primary else secondary
  }

  function Add(acc: seq<string>, v: string): seq<string> {
    if v == "" || v in acc then acc else acc + [v]
  }

  /** Appends to `acc` the non-empty values of `xs` it does not hold yet. */
  function Absorb(acc: seq<string>, xs: seq<string>): seq<string>
    decreases |xs|
  {
    if xs == [] then acc else Add(Absorb(acc, xs[..|xs| - 1]), xs[|xs| - 1])
  }

  function OrEmpty(xs: Option<seq<string>>): seq<string> {
    if xs.Some? then xs.value else []
  }

  function MergedStrings(primary: Option<seq<string>>, secondary: Option<seq<string>>): seq<string> {
    Absorb([], OrEmpty(primary) + OrEmpty(secondary))
  }

  lemma AbsorbEmpty(acc: seq<string>)
    ensures Absorb(acc, []) == acc
  {
  }

  lemma AbsorbSnoc(acc: seq<string>, xs: seq<string>, v: string)
    ensures Absorb(acc, xs + [v]) == Add(Absorb(acc, xs), v)
  {
    assert (xs + [v])[..|xs|] == xs;
  }

  method MergeStringArray(primary: Option<seq<string>>, secondary: Option<seq<string>>) returns (merged: seq<string>)
    ensures merged == MergedStrings(primary, secondary)
  {
    hide Absorb;
    var seen: set<string> := {};
    merged := [];
    ghost var done: seq<string> := [];
    AbsorbEmpty([]);
    var sources := [OrEmpty(primary), OrEmpty(secondary)];
    for s := 0 to 2
      invariant done == if s == 0 then [] else if s == 1 then sources[0] else sources[0] + sources[1]
      invariant merged == Absorb([], done)
      invariant forall v :: v in seen <==> v in merged
    {
      var source := sources[s];
      ghost var before := done;
      for i := 0 to |source|
        invariant done == before + source[..i]
        invariant merged == Absorb([], done)
        invariant forall v :: v in seen <==> v in merged
      {
        AbsorbSnoc([], done, source[i]);
        done := done + [source[i]];
        if source[i] == "" || source[i] in seen {
          continue;
        }
        seen := seen + {source[i]};
        merged := merged + [source[i]];
      }
    }
  }

  function MergeItem(primary: FeedItem, secondary: FeedItem): (r: FeedItem)
    ensures primary.id == secondary.id ==> r.id == primary.id
  {
    FeedItem(
      if primary.id != "" then primary.id else secondary.id,
      TakeString(primary.eventId, secondary.eventId),
      TakeString(primary.platform, secondary.platform),
      TakeString(primary.project, secondary.project),
      TakeString(primary.canonicalProject, secondary.canonicalProject),
      TakeString(primary.sessionId, secondary.sessionId),
      TakeString(primary.eventType, secondary.eventType),
      TakeString(primary.cardType, secondary.cardType),
      TakeString(primary.title, secondary.title),
      TakeString(primary.content, secondary.content),
      TakeString(primary.summary, secondary.summary),
      TakeString(primary.createdAt, secondary.createdAt),
      Some(MergedStrings(primary.tags, secondary.tags)),
      Some(MergedStrings(primary.privacyTags, secondary.privacyTags)),
      secondary.extra + primary.extra)
  }

  // ---------------------------------------------------------------- the list being built

  function Ids(xs: seq<FeedItem>): (r: seq<string>)
    ensures |r| == |xs| && forall i | 0 <= i < |xs| :: r[i] == xs[i].id
  {
    seq(|xs|, i requires 0 <= i < |xs| => xs[i].id)
  }

  ghost predicate WellFormed(xs: seq<FeedItem>) {
    "" !in Ids(xs) && Distinct(Ids(xs))
  }

  function Find(xs: seq<FeedItem>, id: string): (i: nat)
    ensures i <= |xs|
    ensures i < |xs| ==> xs[i].id == id
    ensures forall j | 0 <= j < i :: xs[j].id != id
  {
    if xs == [] || xs[0].id == id then 0 else 1 + Find(xs[1..], id)
  }

  function Step(acc: seq<FeedItem>, item: FeedItem): seq<FeedItem> {
    if item.id == "" then acc
    else
      var i := Find(acc, item.id);
      if i < |acc| then acc[i := MergeItem(acc[i], item)] else acc + [item]
  }

  function MergeInto(acc: seq<FeedItem>, xs: seq<FeedItem>): seq<FeedItem>
    decreases |xs|
  {
    if xs == [] then acc else Step(MergeInto(acc, xs[..|xs| - 1]), xs[|xs| - 1])
  }

  /** The merge of a list alone. */
  function Normalize(xs: seq<FeedItem>): seq<FeedItem> {
    MergeInto([], xs)
  }

  function MergedItems(current: seq<FeedItem>, incoming: seq<FeedItem>, prepend: bool): seq<FeedItem> {
    Normalize(if prepend then incoming + current else current + incoming)
  }

  ghost predicate IndexedBy(indexes: map<string, nat>, xs: seq<FeedItem>) {
    && (forall id :: id in indexes <==> id in Ids(xs))
    && (forall id | id in indexes :: indexes[id] == Find(xs, id) && indexes[id] < |xs|)
  }

  lemma FindPresent(xs: seq<FeedItem>, id: string)
    ensures Find(xs, id) < |xs| <==> id in Ids(xs)
  {
    var i := Find(xs, id);
    assert i < |xs| ==> Ids(xs)[i] == id;
  }

  // Finding depends on the ids alone.
  lemma {:induction false} FindUnique(xs: seq<FeedItem>, ys: seq<FeedItem>, id: string)
    requires Ids(xs) == Ids(ys)
    ensures Find(xs, id) == Find(ys, id)
  {
    if xs == [] {
    } else {
      assert Ids(xs)[0] == Ids(ys)[0];
      assert Ids(xs[1..]) == Ids(xs)[1..] == Ids(ys[1..]);
      FindUnique(xs[1..], ys[1..], id);
    }
  }

  lemma StepIds(acc: seq<FeedItem>, item: FeedItem)
    ensures Ids(Step(acc, item)) == Add(Ids(acc), item.id)
  {
    hide MergeItem;
    FindPresent(acc, item.id);
  }

  lemma {:induction false} FindInPrefix(init: seq<FeedItem>, y: FeedItem, id: string)
    ensures id in Ids(init) ==> Find(init + [y], id) == Find(init, id) < |init|
    ensures id !in Ids(init) && y.id == id ==> Find(init + [y], id) == |init|
  {
    if init == [] {
      assert init + [y] == [y];
    } else {
      assert (init + [y])[1..] == init[1..] + [y];
      assert Ids(init) == [init[0].id] + Ids(init[1..]);
      FindInPrefix(init[1..], y, id);
    }
  }

  lemma IndexStep(indexes: map<string, nat>, xs: seq<FeedItem>, item: FeedItem)
    requires IndexedBy(indexes, xs) && item.id != ""
    ensures item.id in indexes ==> IndexedBy(indexes, Step(xs, item))
    ensures item.id !in indexes ==> Step(xs, item) == xs + [item]
    ensures item.id !in indexes ==> IndexedBy(indexes[item.id := |xs|], Step(xs, item))
  {
    hide MergeItem, Find, Ids;
    FindPresent(xs, item.id);
    StepIds(xs, item);
    forall id | id in indexes ensures Find(Step(xs, item), id) == Find(xs, id) {
      if item.id in indexes {
        FindUnique(xs, Step(xs, item), id);
      } else {
        FindInPrefix(xs, item, id);
      }
    }
    if item.id !in indexes {
      FindInPrefix(xs, item, item.id);
    }
  }

  method MergeFeedItems(current: seq<FeedItem>, incoming: seq<FeedItem>, prepend: bool) returns (merged: seq<FeedItem>)
    ensures merged == MergedItems(current, incoming, prepend)
  {
    hide MergeItem, Find, Ids;
    var order := if prepend then incoming + current else current + incoming;
    var indexes: map<string, nat> := map[];
    merged := [];
    for i := 0 to |order|
      invariant merged == Normalize(order[..i])
      invariant IndexedBy(indexes, merged)
    {
      assert order[..i + 1][..i] == order[..i];
      var item := order[i];
      if item.id == "" {
        continue;
      }
      IndexStep(indexes, merged, item);
      if item.id in indexes {
        var existing := indexes[item.id];
        merged := merged[existing := MergeItem(merged[existing], item)];
        continue;
      }
      indexes := indexes[item.id := |merged|];
      merged := merged + [item];
    }
    assert order[..|order|] == order;
  }

  // ---------------------------------------------------------------- the string-list algebra

  lemma {:induction false} AbsorbConcat(acc: seq<string>, xs: seq<string>, ys: seq<string>)
    ensures Absorb(acc, xs + ys) == Absorb(Absorb(acc, xs), ys)
    decreases |ys|
  {
    if ys == [] {
      assert xs + ys == xs;
    } else {
      assert (xs + ys)[..|xs + ys| - 1] == xs + ys[..|ys| - 1];
      AbsorbConcat(acc, xs, ys[..|ys| - 1]);
    }
  }

  lemma {:induction false} AbsorbKeeps(acc: seq<string>, xs: seq<string>)
    ensures acc <= Absorb(acc, xs)
    ensures forall v :: v in Absorb(acc, xs) <==> v in acc || (v in xs && v != "")
    ensures Distinct(acc) ==> Distinct(Absorb(acc, xs))
    decreases |xs|
  {
    if xs == [] {
    } else {
      AbsorbKeeps(acc, xs[..|xs| - 1]);
      assert xs == xs[..|xs| - 1] + [xs[|xs| - 1]];
    }
  }

  ghost predicate FirstAt(r: seq<string>, xs: seq<string>, i: nat, n: int)
    requires i < |r|
  {
    0 <= n < |xs| && xs[n] == r[i] && r[i] !in xs[..n] && forall v :: v in r[..i] <==> v in xs[..n] && v != ""
  }

  ghost predicate Placed(r: seq<string>, xs: seq<string>, i: nat)
    requires i < |r|
  {
    exists n :: FirstAt(r, xs, i, n)
  }

  /** `r[i]` first occurs at some place of `xs`, and what stands before it in `r` is what occurs before that place. */
  ghost predicate InFirstOccurrenceOrder(r: seq<string>, xs: seq<string>) {
    forall i | 0 <= i < |r| :: Placed(r, xs, i)
  }

  lemma {:induction false} AbsorbOrder(xs: seq<string>)
    ensures InFirstOccurrenceOrder(Absorb([], xs), xs)
    decreases |xs|
  {
    if xs == [] {
    } else {
      var n := |xs| - 1;
      var init, v := xs[..n], xs[n];
      AbsorbOrder(init);
      AbsorbKeeps([], init);
      var before, r := Absorb([], init), Absorb([], xs);
      hide Absorb;
      forall i | 0 <= i < |r| ensures Placed(r, xs, i) {
        if i < |before| {
          assert Placed(before, init, i);
          var m :| FirstAt(before, init, i, m);
          assert r[..i] == before[..i] && xs[..m] == init[..m];
          assert FirstAt(r, xs, i, m);
        } else {
          assert r[..i] == before;
          assert FirstAt(r, xs, i, n);
        }
      }
    }
  }

  /** A merged tag list: the distinct non-empty strings of both lists, in order of first occurrence. */
  lemma MergedStringsMeaning(primary: Option<seq<string>>, secondary: Option<seq<string>>)
    ensures var all, r := OrEmpty(primary) + OrEmpty(secondary), MergedStrings(primary, secondary);
            Distinct(r) && (forall v :: v in r <==> v in all && v != "") && InFirstOccurrenceOrder(r, all)
  {
    AbsorbKeeps([], OrEmpty(primary) + OrEmpty(secondary));
    AbsorbOrder(OrEmpty(primary) + OrEmpty(secondary));
  }

  lemma {:induction false} AbsorbNested(acc: seq<string>, b: seq<string>, ys: seq<string>)
    ensures Absorb(acc, Absorb(b, ys)) == Absorb(Absorb(acc, b), ys)
    decreases |ys|
  {
    if ys == [] {
    } else {
      var y, inner := ys[|ys| - 1], Absorb(b, ys[..|ys| - 1]);
      AbsorbNested(acc, b, ys[..|ys| - 1]);
      AbsorbKeeps(acc, inner);
      if y != "" && y !in inner {
        assert (inner + [y])[..|inner|] == inner;
      }
    }
  }

  lemma MergedStringsAssociative(a: Option<seq<string>>, b: Option<seq<string>>, c: Option<seq<string>>)
    ensures MergedStrings(Some(MergedStrings(a, b)), c) == MergedStrings(a, Some(MergedStrings(b, c)))
  {
    var x, y, z := OrEmpty(a), OrEmpty(b), OrEmpty(c);
    calc {
      Absorb([], Absorb([], x + y) + z);
      { AbsorbConcat([], Absorb([], x + y), z); AbsorbNested([], [], x + y); }
      Absorb(Absorb([], x + y), z);
      { AbsorbConcat([], x, y); AbsorbConcat(Absorb([], x), y, z); }
      Absorb(Absorb([], x), y + z);
      { AbsorbNested(Absorb([], x), [], y + z); AbsorbConcat([], x, Absorb([], y + z)); }
      Absorb([], x + Absorb([], y + z));
    }
  }

  lemma TakeStringAssociative(a: Option<string>, b: Option<string>, c: Option<string>)
    ensures TakeString(TakeString(a, b), c) == TakeString(a, TakeString(b, c))
  {
  }

  lemma MergeItemAssociative(a: FeedItem, b: FeedItem, c: FeedItem)
    ensures MergeItem(MergeItem(a, b), c) == MergeItem(a, MergeItem(b, c))
  {
    hide TakeString, MergedStrings;
    TakeStringAssociative(a.eventId, b.eventId, c.eventId);
    TakeStringAssociative(a.platform, b.platform, c.platform);
    TakeStringAssociative(a.project, b.project, c.project);
    TakeStringAssociative(a.canonicalProject, b.canonicalProject, c.canonicalProject);
    TakeStringAssociative(a.sessionId, b.sessionId, c.sessionId);
    TakeStringAssociative(a.eventType, b.eventType, c.eventType);
    TakeStringAssociative(a.cardType, b.cardType, c.cardType);
    TakeStringAssociative(a.title, b.title, c.title);
    TakeStringAssociative(a.content, b.content, c.content);
    TakeStringAssociative(a.summary, b.summary, c.summary);
    TakeStringAssociative(a.createdAt, b.createdAt, c.createdAt);
    MergedStringsAssociative(a.tags, b.tags, c.tags);
    MergedStringsAssociative(a.privacyTags, b.privacyTags, c.privacyTags);
    assert c.extra + (b.extra + a.extra) == (c.extra + b.extra) + a.extra;
  }

  // ---------------------------------------------------------------- the item-list algebra

  lemma {:induction false} MergeIntoConcat(acc: seq<FeedItem>, xs: seq<FeedItem>, ys: seq<FeedItem>)
    ensures MergeInto(acc, xs + ys) == MergeInto(MergeInto(acc, xs), ys)
    decreases |ys|
  {
    if ys == [] {
      assert xs + ys == xs;
    } else {
      assert (xs + ys)[..|xs + ys| - 1] == xs + ys[..|ys| - 1];
      MergeIntoConcat(acc, xs, ys[..|ys| - 1]);
    }
  }

  /** The ids of a merge are the ids of its input, first occurrences only, the empty id dropped. */
  lemma {:induction false} MergeIntoIds(acc: seq<FeedItem>, xs: seq<FeedItem>)
    ensures Ids(MergeInto(acc, xs)) == Absorb(Ids(acc), Ids(xs))
    ensures WellFormed(acc) ==> WellFormed(MergeInto(acc, xs))
    decreases |xs|
  {
    if xs != [] {
      var init := xs[..|xs| - 1];
      MergeIntoIds(acc, init);
      StepIds(MergeInto(acc, init), xs[|xs| - 1]);
      assert Ids(xs)[..|xs| - 1] == Ids(init);
    } else {
      assert Ids(xs) == [];
    }
  }

  lemma StepAssociative(acc: seq<FeedItem>, x: FeedItem, y: FeedItem)
    requires x.id == y.id
    ensures Step(Step(acc, x), y) == Step(acc, MergeItem(x, y))
  {
    hide MergeItem;
    if x.id != "" {
      var i := Find(acc, x.id);
      if i < |acc| {
        var acc1 := acc[i := MergeItem(acc[i], x)];
        assert Ids(acc1) == Ids(acc);
        FindUnique(acc, acc1, x.id);
        MergeItemAssociative(acc[i], x, y);
      } else {
        FindPresent(acc, x.id);
        FindInPrefix(acc, x, x.id);
      }
    }
  }

  lemma StepSwap(acc: seq<FeedItem>, s: FeedItem, y: FeedItem)
    requires s.id != y.id && y.id in Ids(acc)
    ensures Step(Step(acc, s), y) == Step(Step(acc, y), s)
  {
    hide MergeItem, Find, Ids;
    FindPresent(acc, y.id);
    FindPresent(acc, s.id);
    if s.id != "" && y.id != "" {
      var i, j := Find(acc, y.id), Find(acc, s.id);
      var accY := acc[i := MergeItem(acc[i], y)];
      assert Ids(accY) == Ids(acc);
      FindUnique(acc, accY, s.id);
      if j < |acc| {
        var accS := acc[j := MergeItem(acc[j], s)];
        assert Ids(accS) == Ids(acc);
        FindUnique(acc, accS, y.id);
      } else {
        FindInPrefix(acc, s, y.id);
      }
    }
  }

  lemma StepCases(acc: seq<FeedItem>, y: FeedItem)
    ensures y.id == "" ==> Step(acc, y) == acc
    ensures y.id != "" && y.id !in Ids(acc) ==> Step(acc, y) == acc + [y]
  {
    hide MergeItem;
    FindPresent(acc, y.id);
  }

  lemma WellFormedInit(m0: seq<FeedItem>, last: FeedItem)
    requires WellFormed(m0 + [last])
    ensures WellFormed(m0) && last.id !in Ids(m0) && Ids(m0 + [last]) == Ids(m0) + [last.id]
  {
    var m := m0 + [last];
    assert Ids(m) == Ids(m0) + [last.id];
    forall i, j | 0 <= i < j < |m0| ensures Ids(m0)[i] != Ids(m0)[j] {
      assert Ids(m)[i] != Ids(m)[j];
    }
    forall i | 0 <= i < |m0| ensures Ids(m0)[i] != last.id {
      assert Ids(m)[i] != Ids(m)[|m0|];
    }
  }

  lemma StepLast(m0: seq<FeedItem>, last: FeedItem, y: FeedItem)
    requires WellFormed(m0 + [last]) && y.id != "" && y.id in Ids(m0 + [last])
    ensures WellFormed(m0)
    ensures last.id == y.id ==> Step(m0 + [last], y) == m0 + [MergeItem(last, y)]
    ensures last.id != y.id ==> y.id in Ids(m0) && Step(m0 + [last], y) == Step(m0, y) + [last]
  {
    hide MergeItem, Distinct, Ids, Find;
    WellFormedInit(m0, last);
    FindInPrefix(m0, last, y.id);
    FindPresent(m0, y.id);
  }

  lemma {:induction false} StepCommutes(acc: seq<FeedItem>, m: seq<FeedItem>, y: FeedItem)
    requires WellFormed(m)
    ensures MergeInto(acc, Step(m, y)) == Step(MergeInto(acc, m), y)
    decreases |m|
  {
    hide MergeItem, Ids, Find, Step;
    FindPresent(m, y.id);
    if y.id == "" {
      StepCases(m, y);
      StepCases(MergeInto(acc, m), y);
    } else if y.id !in Ids(m) {
      StepCases(m, y);
      assert (m + [y])[..|m|] == m;
    } else {
      var m0, last := m[..|m| - 1], m[|m| - 1];
      var a := MergeInto(acc, m0);
      assert m == m0 + [last];
      StepLast(m0, last, y);
      if last.id == y.id {
        assert (m0 + [MergeItem(last, y)])[..|m0|] == m0;
        StepAssociative(a, last, y);
      } else {
        assert (Step(m0, y) + [last])[..|Step(m0, y)|] == Step(m0, y);
        StepCommutes(acc, m0, y);
        MergeIntoIds(acc, m0);
        AbsorbKeeps(Ids(acc), Ids(m0));
        StepSwap(a, last, y);
      }
    }
  }

  lemma {:induction false} MergeIntoNested(acc: seq<FeedItem>, b: seq<FeedItem>, ys: seq<FeedItem>)
    requires WellFormed(b)
    ensures MergeInto(acc, MergeInto(b, ys)) == MergeInto(MergeInto(acc, b), ys)
    decreases |ys|
  {
    if ys == [] {
    } else {
      var init := ys[..|ys| - 1];
      MergeIntoNested(acc, b, init);
      MergeIntoIds(b, init);
      StepCommutes(acc, MergeInto(b, init), ys[|ys| - 1]);
    }
  }

  // ---------------------------------------------------------------- theorems

  /** Merging is a congruence on concatenation: either part may be merged beforehand. */
  lemma MergeCongruence(xs: seq<FeedItem>, ys: seq<FeedItem>)
    ensures Normalize(Normalize(xs) + ys) == Normalize(xs + ys)
    ensures Normalize(xs + Normalize(ys)) == Normalize(xs + ys)
    ensures Normalize(Normalize(xs)) == Normalize(xs)
  {
    MergeIntoConcat([], Normalize(xs), ys);
    MergeIntoConcat([], xs, ys);
    MergeIntoConcat([], xs, Normalize(ys));
    MergeIntoNested([], [], xs);
    MergeIntoNested(Normalize(xs), [], ys);
  }

  function Flatten(pages: seq<seq<FeedItem>>): seq<FeedItem>
    decreases |pages|
  {
    if pages == [] then [] else Flatten(pages[..|pages| - 1]) + pages[|pages| - 1]
  }

  /** The list after the pages arrived one at a time, each merged into what was there. */
  function Accumulate(pages: seq<seq<FeedItem>>): seq<FeedItem>
    decreases |pages|
  {
    if pages == [] then [] else MergedItems(Accumulate(pages[..|pages| - 1]), pages[|pages| - 1], false)
  }

  lemma {:induction false} PageByPage(pages: seq<seq<FeedItem>>)
    ensures Accumulate(pages) == Normalize(Flatten(pages))
    decreases |pages|
  {
    if pages == [] {
    } else {
      var init := pages[..|pages| - 1];
      PageByPage(init);
      MergeCongruence(Flatten(init), pages[|pages| - 1]);
    }
  }

  function Occurrences(xs: seq<FeedItem>, id: string): seq<FeedItem>
    decreases |xs|
  {
    if xs == [] then [] else
      Occurrences(xs[..|xs| - 1], id) + (if xs[|xs| - 1].id == id then [xs[|xs| - 1]] else [])
  }

  function FoldItems(occ: seq<FeedItem>): FeedItem
    requires occ != []
    decreases |occ|
  {
    if |occ| == 1 then occ[0] else MergeItem(FoldItems(occ[..|occ| - 1]), occ[|occ| - 1])
  }

  lemma {:induction false} OccurrencesNonEmpty(xs: seq<FeedItem>, id: string)
    ensures Occurrences(xs, id) != [] <==> id in Ids(xs)
    ensures forall o | o in Occurrences(xs, id) :: o in xs && o.id == id
    decreases |xs|
  {
    if xs == [] {
      assert Ids(xs) == [];
    } else {
      var init := xs[..|xs| - 1];
      OccurrencesNonEmpty(init, id);
      assert Ids(xs) == Ids(init) + [xs[|xs| - 1].id];
      assert xs == init + [xs[|xs| - 1]];
    }
  }

  ghost predicate FoundBefore(xs: seq<FeedItem>, a: string, b: string) {
    Find(xs, a) < Find(xs, b) < |xs|
  }

  ghost predicate ByFirstOccurrence(xs: seq<FeedItem>, m: seq<FeedItem>) {
    forall i, j | 0 <= i < j < |m| :: FoundBefore(xs, m[i].id, m[j].id)
  }

  lemma FirstOccurrencePair(init: seq<FeedItem>, m: seq<FeedItem>, y: FeedItem, i: nat, j: nat)
    requires forall id | id in Ids(m) :: id in Ids(init)
    requires forall id | id in Ids(init) && id != "" :: id in Ids(m)
    requires ByFirstOccurrence(init, m) && i < j < |Step(m, y)|
    ensures FoundBefore(init + [y], Step(m, y)[i].id, Step(m, y)[j].id)
  {
    hide MergeItem, Ids, Step, Find;
    StepIds(m, y);
    var r := Step(m, y);
    assert |m| == |Ids(m)| && m[i].id == Ids(m)[i] == Ids(r)[i] == r[i].id;
    assert Ids(m)[i] in Ids(m) && r[j].id == Ids(r)[j];
    FindInPrefix(init, y, r[i].id);
    FindInPrefix(init, y, r[j].id);
    if j < |m| {
      assert m[j].id == Ids(m)[j] == Ids(r)[j] && Ids(m)[j] in Ids(m);
      assert Find(init + [y], r[j].id) == Find(init, m[j].id);
      assert FoundBefore(init, m[i].id, m[j].id);
    } else {
      assert r[j].id == y.id && y.id !in Ids(m) && y.id !in Ids(init);
      assert Find(init + [y], r[j].id) == |init|;
    }
    assert Find(init + [y], r[i].id) == Find(init, r[i].id) < |init|;
  }

  lemma FirstOccurrenceStep(init: seq<FeedItem>, m: seq<FeedItem>, y: FeedItem)
    requires forall id | id in Ids(m) :: id in Ids(init)
    requires forall id | id in Ids(init) && id != "" :: id in Ids(m)
    requires ByFirstOccurrence(init, m)
    ensures ByFirstOccurrence(init + [y], Step(m, y))
  {
    hide Ids, Step, FoundBefore;
    var r := Step(m, y);
    forall i, j | 0 <= i < j < |r| ensures FoundBefore(init + [y], r[i].id, r[j].id) {
      FirstOccurrencePair(init, m, y, i, j);
    }
  }

  /** Ids of a merge: non-empty, without repetition, exactly those present, in order of first occurrence. */
  lemma {:induction false} FirstOccurrenceOrder(xs: seq<FeedItem>)
    ensures WellFormed(Normalize(xs))
    ensures forall id :: id in Ids(Normalize(xs)) <==> id != "" && id in Ids(xs)
    ensures forall i, j | 0 <= i < j < |Normalize(xs)| ::
              Find(xs, Normalize(xs)[i].id) < Find(xs, Normalize(xs)[j].id) < |xs|
    decreases |xs|
  {
    hide MergeItem;
    MergeIntoIds([], xs);
    assert Ids([]) == [];
    AbsorbKeeps([], Ids(xs));
    if xs == [] {
    } else {
      var init, y := xs[..|xs| - 1], xs[|xs| - 1];
      FirstOccurrenceOrder(init);
      assert xs == init + [y];
      FirstOccurrenceStep(init, Normalize(init), y);
    }
  }

  lemma FoldOne(x: FeedItem)
    ensures FoldItems([x]) == x
  {
  }

  lemma FoldSnoc(occ: seq<FeedItem>, y: FeedItem)
    requires occ != []
    ensures FoldItems(occ + [y]) == MergeItem(FoldItems(occ), y)
  {
    hide MergeItem;
    assert (occ + [y])[..|occ|] == occ;
  }

  lemma OccurrencesSnoc(xs: seq<FeedItem>, y: FeedItem, id: string)
    ensures Occurrences(xs + [y], id) == Occurrences(xs, id) + (if y.id == id then [y] else [])
    ensures Occurrences([], id) == []
  {
    assert (xs + [y])[..|xs|] == xs;
  }

  /** Each merged item is the left fold of the occurrences of its id, in order of arrival. */
  lemma {:induction false} ItemIsFold(xs: seq<FeedItem>, k: nat)
    requires k < |Normalize(xs)|
    ensures var id := Normalize(xs)[k].id;
            Occurrences(xs, id) != [] && Normalize(xs)[k] == FoldItems(Occurrences(xs, id))
    decreases |xs|
  {
    hide MergeItem, Ids, FoldItems, Find, Occurrences;
    var init, y := xs[..|xs| - 1], xs[|xs| - 1];
    var m := Normalize(init);
    assert xs == init + [y];
    FirstOccurrenceOrder(init);
    FindPresent(m, y.id);
    OccurrencesNonEmpty(init, y.id);
    OccurrencesSnoc(init, y, Normalize(xs)[k].id);
    var i := Find(m, y.id);
    if k < |m| {
      assert m[k].id == Ids(m)[k];
      ItemIsFold(init, k);
      assert Occurrences(init, m[k].id) + [] == Occurrences(init, m[k].id);
      if y.id != "" && k == i {
        FoldSnoc(Occurrences(init, y.id), y);
      } else if y.id != "" && i < |m| {
        assert m[i].id == Ids(m)[i] != Ids(m)[k];
      } else {
        assert m[k].id != y.id;
      }
    } else {
      assert [] + [y] == [y];
      FoldOne(y);
    }
  }

  /** A well-formed list is its own merge. */
  lemma {:induction false} NormalizeFixes(xs: seq<FeedItem>)
    requires WellFormed(xs)
    ensures Normalize(xs) == xs
    decreases |xs|
  {
    hide MergeItem, Find, Step;
    if xs == [] {
    } else {
      var init, y := xs[..|xs| - 1], xs[|xs| - 1];
      assert |Ids(xs)| == |xs| && |Ids(init)| == |init|;
      assert forall k | 0 <= k < |init| :: Ids(init)[k] == Ids(xs)[k] != Ids(xs)[|xs| - 1] == y.id;
      NormalizeFixes(init);
      StepCases(init, y);
    }
  }

  /**
   An append commit keeps every id already listed at its position and adds unseen ids only at the end;
   a live item that arrived while the page was in flight is therefore still there.
   */
  lemma AppendKeepsPositions(current: seq<FeedItem>, fetched: seq<FeedItem>)
    requires WellFormed(current)
    ensures Ids(current) <= Ids(MergedItems(current, fetched, false))
    ensures forall id :: id in Ids(MergedItems(current, fetched, false)) <==>
              id in Ids(current) || (id != "" && id in Ids(fetched))
  {
    NormalizeFixes(current);
    MergeIntoConcat([], current, fetched);
    MergeIntoIds(current, fetched);
    AbsorbKeeps(Ids(current), Ids(fetched));
  }

  lemma SingletonMerge(item: FeedItem)
    requires item.id != ""
    ensures Normalize([item]) == [item]
  {
    hide MergeItem;
    assert Ids([]) == [];
    assert [item][..0] == [] && MergeInto([], []) == [];
    assert [] + [item] == [item];
    StepCases([], item);
  }

  lemma FoldPair(x: FeedItem, y: FeedItem)
    ensures FoldItems([x, y]) == MergeItem(x, y)
  {
    hide MergeItem;
    assert [x, y][..1] == [x];
    FoldOne(x);
    assert FoldItems([x, y]) == MergeItem(FoldItems([x, y][..1]), y);
  }

  function Without(ids: seq<string>, id: string): seq<string>
    decreases |ids|
  {
    if ids == [] then [] else
      Without(ids[..|ids| - 1], id) + (if ids[|ids| - 1] == id then [] else [ids[|ids| - 1]])
  }

  lemma {:induction false} WithoutMembers(id: string, ids: seq<string>)
    ensures forall v :: v in Without(ids, id) <==> v in ids && v != id
    decreases |ids|
  {
    if ids == [] {
    } else {
      var init, y := ids[..|ids| - 1], ids[|ids| - 1];
      WithoutMembers(id, init);
      assert ids == init + [y];
    }
  }

  lemma DistinctInit(ids: seq<string>)
    requires Distinct(ids) && ids != []
    ensures Distinct(ids[..|ids| - 1]) && ids[|ids| - 1] !in ids[..|ids| - 1]
  {
  }

  lemma {:induction false} AbsorbWithout(id: string, ids: seq<string>)
    requires Distinct(ids) && "" !in ids
    ensures Absorb([id], ids) == [id] + Without(ids, id)
    decreases |ids|
  {
    hide Distinct, Absorb;
    if ids == [] {
      AbsorbEmpty([id]);
    } else {
      var init, y := ids[..|ids| - 1], ids[|ids| - 1];
      assert ids == init + [y];
      DistinctInit(ids);
      AbsorbWithout(id, init);
      WithoutMembers(id, init);
      AbsorbSnoc([id], init, y);
      var kept := Without(init, id);
      assert y in [id] + kept <==> y == id;
    }
  }

  lemma {:induction false} OccurrencesSingle(item: FeedItem, current: seq<FeedItem>)
    requires WellFormed(current)
    ensures var occ := Occurrences([item] + current, item.id);
            occ == if item.id in Ids(current) then [item, current[Find(current, item.id)]] else [item]
    decreases |current|
  {
    hide MergeItem, Find, Ids, Occurrences;
    assert |Ids(current)| == |current|;
    if current == [] {
      assert [item] + current == [] + [item];
      OccurrencesSnoc([], item, item.id);
    } else {
      var init, y := current[..|current| - 1], current[|current| - 1];
      assert [item] + current == ([item] + init) + [y];
      OccurrencesSnoc([item] + init, y, item.id);
      assert |Ids(init)| == |init| && forall k | 0 <= k < |init| :: Ids(init)[k] == Ids(current)[k];
      assert Ids(current) == Ids(init) + [y.id];
      assert y.id == Ids(current)[|init|] && y.id !in Ids(init);
      assert current == init + [y];
      OccurrencesSingle(item, init);
      FindInPrefix(init, y, item.id);
      FindPresent(init, item.id);
    }
  }

  /** A live item goes to the front, merged over what was known of it; the other ids keep their order. */
  lemma PrependMovesToFront(current: seq<FeedItem>, item: FeedItem)
    requires WellFormed(current) && item.id != ""
    ensures var r := MergedItems(current, [item], true);
            && |r| > 0
            && Ids(r) == [item.id] + Without(Ids(current), item.id)
            && r[0] == if item.id in Ids(current) then MergeItem(item, current[Find(current, item.id)]) else item
  {
    hide MergeItem, Find, Occurrences, FoldItems, Ids, Absorb, Without, MergeInto;
    var r := MergedItems(current, [item], true);
    MergeIntoConcat([], [item], current);
    SingletonMerge(item);
    MergeIntoIds([item], current);
    assert Ids([item]) == [item.id];
    AbsorbWithout(item.id, Ids(current));
    assert |r| == |Ids(r)| > 0 && Ids(r)[0] == item.id;
    assert r[0].id == Ids(r)[0];
    ItemIsFold([item] + current, 0);
    OccurrencesSingle(item, current);
    FindPresent(current, item.id);
    if item.id in Ids(current) {
      FoldPair(item, current[Find(current, item.id)]);
    } else {
      FoldOne(item);
    }
  }

  // ---------------------------------------------------------------- what a merged item holds

  /** The eleven optional text fields of an item. */
  ghost function TextFields(x: FeedItem): (r: seq<Option<string>>)
    ensures |r| == 11
  {
    [x.eventId, x.platform, x.project, x.canonicalProject, x.sessionId, x.eventType, x.cardType,
     x.title, x.content, x.summary, x.createdAt]
  }

  /** One field of each of these items. */
  ghost function Column(occ: seq<FeedItem>, f: nat): (r: seq<Option<string>>)
    requires f < 11
    ensures |r| == |occ| && forall i | 0 <= i < |occ| :: r[i] == TextFields(occ[i])[f]
  {
    seq(|occ|, i requires 0 <= i < |occ| => TextFields(occ[i])[f])
  }

  /** There is something to read in it. */
  ghost predicate Shows(v: Option<string>) {
    v.Some? && exists c | c in v.value :: !IsSpace(c)
  }

  ghost function FirstShown(vs: seq<Option<string>>): (i: nat)
    ensures i <= |vs| && (i < |vs| ==> Shows(vs[i]))
    ensures forall j | 0 <= j < i :: !Shows(vs[j])
  {
    if vs == [] || Shows(vs[0]) then 0 else 1 + FirstShown(vs[1..])
  }

  ghost function FirstPresent(vs: seq<Option<string>>): (i: nat)
    ensures i <= |vs| && (i < |vs| ==> vs[i].Some?)
    ensures forall j | 0 <= j < i :: vs[j].None?
  {
    if vs == [] || vs[0].Some? then 0 else 1 + FirstPresent(vs[1..])
  }

  /** The first of these values that is not blank, or else the first that is present. */
  ghost function Chosen(vs: seq<Option<string>>): Option<string> {
    if FirstShown(vs) < |vs| then vs[FirstShown(vs)]
    else if FirstPresent(vs) < |vs| then vs[FirstPresent(vs)]
    else None
  }

  lemma ShowsMeaning(v: Option<string>)
    ensures Shows(v) <==> v.Some? && Trim(v.value) != ""
  {
    if v.Some? { TrimIsBlank(v.value); }
  }

  lemma ChosenSnoc(vs: seq<Option<string>>, v: Option<string>)
    ensures Chosen(vs + [v]) == TakeString(Chosen(vs), v)
  {
    hide Shows, FirstShown, FirstPresent, Trim;
    var all := vs + [v];
    ShowsMeaning(v);
    ShowsMeaning(Chosen(vs));
    assert forall j | 0 <= j < |vs| :: all[j] == vs[j];
    assert all[|vs|] == v;
    var i, k := FirstShown(all), FirstPresent(all);
    if FirstShown(vs) < |vs| {
      assert i == FirstShown(vs);
    } else if Shows(v) {
      assert i == |vs|;
    } else {
      assert i == |all|;
      if FirstPresent(vs) < |vs| {
        assert k == FirstPresent(vs);
      }
    }
  }

  lemma FieldsOfMerge(x: FeedItem, y: FeedItem, f: nat)
    requires f < 11
    ensures TextFields(MergeItem(x, y))[f] == TakeString(TextFields(x)[f], TextFields(y)[f])
  {
    hide TakeString, MergedStrings;
  }

  lemma ColumnSnoc(occ: seq<FeedItem>, y: FeedItem, f: nat)
    requires f < 11
    ensures Column(occ + [y], f) == Column(occ, f) + [TextFields(y)[f]]
  {
    hide TextFields;
  }

  lemma ChosenOfOne(v: Option<string>)
    ensures TakeString(Chosen([]), v) == v
  {
  }

  lemma {:induction false} FoldedField(occ: seq<FeedItem>, f: nat)
    requires occ != [] && f < 11
    ensures TextFields(FoldItems(occ))[f] == Chosen(Column(occ, f))
    decreases |occ|
  {
    hide TextFields, MergeItem, FoldItems, Column, Chosen;
    var init, y := occ[..|occ| - 1], occ[|occ| - 1];
    assert occ == init + [y];
    ColumnSnoc(init, y, f);
    ChosenSnoc(Column(init, f), TextFields(y)[f]);
    if init == [] {
      assert occ == [y];
      FoldOne(y);
      ChosenOfOne(TextFields(y)[f]);
    } else {
      FoldedField(init, f);
      FoldSnoc(init, y);
      FieldsOfMerge(FoldItems(init), y, f);
    }
  }

  /**
   Each text field of a merged item holds the first value that is not blank among those that arrived under its
   id, or else the first that is present at all.
   */
  lemma MergedText(xs: seq<FeedItem>, k: nat, f: nat)
    requires k < |Normalize(xs)| && f < 11
    ensures TextFields(Normalize(xs)[k])[f] == Chosen(Column(Occurrences(xs, Normalize(xs)[k].id), f))
  {
    hide Normalize, TextFields, FoldItems, Chosen, Column, Occurrences;
    ItemIsFold(xs, k);
    FoldedField(Occurrences(xs, Normalize(xs)[k].id), f);
  }

  /** In which of these items a property outside the interface was first set. */
  ghost function FirstWith(occ: seq<FeedItem>, key: string): (i: nat)
    ensures i <= |occ| && (i < |occ| ==> key in occ[i].extra)
    ensures forall j | 0 <= j < i :: key !in occ[j].extra
  {
    if occ == [] || key in occ[0].extra then 0 else 1 + FirstWith(occ[1..], key)
  }

  lemma FirstWithSnoc(occ: seq<FeedItem>, y: FeedItem, key: string)
    ensures FirstWith(occ + [y], key)
      == if FirstWith(occ, key) < |occ| then FirstWith(occ, key) else if key in y.extra then |occ| else |occ| + 1
  {
    hide FirstWith;
    var all := occ + [y];
    assert forall j | 0 <= j < |occ| :: all[j] == occ[j];
    assert all[|occ|] == y;
    var i, k := FirstWith(occ, key), FirstWith(all, key);
    assert i < |occ| ==> key in all[i].extra;
  }

  lemma {:induction false} FoldedExtra(occ: seq<FeedItem>, key: string)
    requires occ != []
    ensures var i := FirstWith(occ, key);
      && (key in FoldItems(occ).extra <==> i < |occ|)
      && (i < |occ| ==> FoldItems(occ).extra[key] == occ[i].extra[key])
    decreases |occ|
  {
    hide FoldItems, FirstWith, TakeString, MergedStrings;
    var init, y := occ[..|occ| - 1], occ[|occ| - 1];
    assert occ == init + [y];
    FirstWithSnoc(init, y, key);
    if init == [] {
      assert occ == [y];
      FoldOne(y);
    } else {
      FoldedExtra(init, key);
      FoldSnoc(init, y);
      assert occ[..|init|] == init;
    }
  }

  /** Every other property of a merged item has the value it was first given. */
  lemma MergedExtra(xs: seq<FeedItem>, k: nat, key: string)
    requires k < |Normalize(xs)|
    ensures var item := Normalize(xs)[k];
      var occ := Occurrences(xs, item.id);
      var i := FirstWith(occ, key);
      && (key in item.extra <==> i < |occ|)
      && (i < |occ| ==> item.extra[key] == occ[i].extra[key])
  {
    hide Normalize, FoldItems, FirstWith, Occurrences;
    ItemIsFold(xs, k);
    FoldedExtra(Occurrences(xs, Normalize(xs)[k].id), key);
  }

  /** All tag lists, or all privacy tag lists, of these items one behind the other. */
  ghost function AllTags(occ: seq<FeedItem>, privacy: bool): seq<string>
    decreases |occ|
  {
    if occ == [] then [] else
      var y := occ[|occ| - 1];
      AllTags(occ[..|occ| - 1], privacy) + OrEmpty(if privacy then y.privacyTags else y.tags)
  }

  lemma AllTagsSnoc(occ: seq<FeedItem>, y: FeedItem, privacy: bool)
    ensures AllTags(occ + [y], privacy) == AllTags(occ, privacy) + OrEmpty(if privacy then y.privacyTags else y.tags)
    ensures AllTags([y], privacy) == OrEmpty(if privacy then y.privacyTags else y.tags)
  {
    assert (occ + [y])[..|occ|] == occ;
    assert [y][..0] == [];
  }

  lemma AbsorbedTwice(xs: seq<string>, ys: seq<string>)
    ensures MergedStrings(Some(Absorb([], xs)), Some(ys)) == Absorb([], xs + ys)
  {
    AbsorbConcat([], Absorb([], xs), ys);
    AbsorbConcat([], xs, ys);
    AbsorbNested([], [], xs);
    AbsorbEmpty([]);
  }

  lemma TagsOfMerge(x: FeedItem, y: FeedItem)
    ensures MergeItem(x, y).tags == Some(MergedStrings(x.tags, Some(OrEmpty(y.tags))))
    ensures MergeItem(x, y).privacyTags == Some(MergedStrings(x.privacyTags, Some(OrEmpty(y.privacyTags))))
  {
    hide TakeString, Absorb;
  }

  lemma MergedOfLists(x: Option<seq<string>>, ys: seq<string>)
    ensures MergedStrings(x, Some(ys)) == Absorb([], OrEmpty(x) + ys)
  {
    hide Absorb;
  }

  lemma {:induction false} FoldedTags(occ: seq<FeedItem>)
    requires |occ| > 1
    ensures FoldItems(occ).tags == Some(Absorb([], AllTags(occ, false)))
    ensures FoldItems(occ).privacyTags == Some(Absorb([], AllTags(occ, true)))
    decreases |occ|
  {
    hide FoldItems, Absorb, MergeItem, AllTags, MergedStrings, OrEmpty;
    var init, y := occ[..|occ| - 1], occ[|occ| - 1];
    assert occ == init + [y];
    FoldSnoc(init, y);
    TagsOfMerge(FoldItems(init), y);
    AllTagsSnoc(init, y, false);
    AllTagsSnoc(init, y, true);
    if |init| == 1 {
      var x := init[0];
      assert init == [x];
      FoldOne(x);
      AllTagsSnoc([], x, false);
      AllTagsSnoc([], x, true);
      MergedOfLists(x.tags, OrEmpty(y.tags));
      MergedOfLists(x.privacyTags, OrEmpty(y.privacyTags));
    } else {
      FoldedTags(init);
      AbsorbedTwice(AllTags(init, false), OrEmpty(y.tags));
      AbsorbedTwice(AllTags(init, true), OrEmpty(y.privacyTags));
    }
  }

  /** What a tag list holds: each non-empty tag of `all` once, in the order of first occurrence. */
  ghost predicate TagsOf(r: seq<string>, all: seq<string>) {
    Distinct(r) && (forall v :: v in r <==> v in all && v != "") && InFirstOccurrenceOrder(r, all)
  }

  lemma AbsorbedTags(all: seq<string>)
    ensures TagsOf(Absorb([], all), all)
  {
    AbsorbKeeps([], all);
    AbsorbOrder(all);
  }

  /** The tags of an item that arrived more than once are those of all its occurrences; one that came once keeps its own. */
  lemma MergedTags(xs: seq<FeedItem>, k: nat)
    requires k < |Normalize(xs)|
    ensures var item := Normalize(xs)[k];
      var occ := Occurrences(xs, item.id);
      if |occ| == 1 then item == occ[0]
      else && item.tags.Some? && TagsOf(item.tags.value, AllTags(occ, false))
           && item.privacyTags.Some? && TagsOf(item.privacyTags.value, AllTags(occ, true))
  {
    hide Normalize, FoldItems, Occurrences, TagsOf, AllTags, Absorb;
    ItemIsFold(xs, k);
    var occ := Occurrences(xs, Normalize(xs)[k].id);
    if |occ| == 1 {
      assert occ == [occ[0]];
      FoldOne(occ[0]);
    } else {
      FoldedTags(occ);
      AbsorbedTags(AllTags(occ, false));
      AbsorbedTags(AllTags(occ, true));
    }
  }

  /** The occurrences of an id begin with the first item that has it. */
  lemma {:induction false} OccurrencesFirst(xs: seq<FeedItem>, id: string)
    requires id in Ids(xs)
    ensures Occurrences(xs, id) != [] && Occurrences(xs, id)[0] == xs[Find(xs, id)]
    decreases |xs|
  {
    hide Find, Ids, Occurrences;
    FindPresent(xs, id);
    var init, y := xs[..|xs| - 1], xs[|xs| - 1];
    assert xs == init + [y];
    OccurrencesSnoc(init, y, id);
    OccurrencesNonEmpty(init, id);
    OccurrencesNonEmpty(xs, id);
    FindInPrefix(init, y, id);
    if id in Ids(init) {
      OccurrencesFirst(init, id);
    }
  }

  lemma FindListed(current: seq<FeedItem>, more: seq<FeedItem>, k: nat)
    requires WellFormed(current) && k < |current|
    ensures Find(current + more, current[k].id) == k
  {
    var all := current + more;
    assert all[k].id == current[k].id;
    forall j | 0 <= j < k ensures all[j].id != current[k].id {
      assert Ids(current)[j] != Ids(current)[k];
    }
  }

  /** A text field that can be read on screen stays as it is when a further page comes in. */
  lemma ShownTextSurvives(current: seq<FeedItem>, fetched: seq<FeedItem>, k: nat, f: nat)
    requires WellFormed(current) && k < |current| && f < 11 && Shows(TextFields(current[k])[f])
    ensures var r := MergedItems(current, fetched, false);
      k < |r| && r[k].id == current[k].id && TextFields(r[k])[f] == TextFields(current[k])[f]
  {
    hide Find, Occurrences, Normalize, Ids, TextFields, Shows;
    var r, all := MergedItems(current, fetched, false), current + fetched;
    AppendKeepsPositions(current, fetched);
    assert Ids(r)[k] == Ids(current)[k];
    FindListed(current, fetched, k);
    assert Ids(all)[k] == current[k].id;
    OccurrencesFirst(all, current[k].id);
    MergedText(all, k, f);
    var column := Column(Occurrences(all, current[k].id), f);
    assert Shows(column[0]);
    assert FirstShown(column) == 0;
  }
}
