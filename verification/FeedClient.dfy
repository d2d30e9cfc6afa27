/**
 The feed client protocol (harness-mem-ui/src/hooks/useFeedPagination.ts).  A `World` holds the refs of
 the hook, the keyed cache shared by all selections, every request ever issued, and a history that only
 the theorems read.  `Next` is one atomic step of the hook; any list of actions is a possible run, so a
 response may arrive late, after its request was aborted or overtaken.
 */
module FeedClient {
  import opened JsText
  import opened FeedMerge

  datatype Selection = Selection(project: string, includePrivate: bool, limit: int)

  // `items`, `cursor` and `hasMore` of a cache entry, and equally the three refs of the hook.
  datatype Entry = Entry(items: seq<FeedItem>, cursor: Option<string>, hasMore: bool)

  // What the closure of one `fetchPage` call captured, and the state of its promise and signal.
  datatype Request = Request(sel: Selection, cursor: Option<string>, append: bool, background: bool,
                             aborted: bool, pending: bool)

  datatype Outcome = Page(items: seq<FeedItem>, next: Option<string>) | Failed(message: string)

  datatype Action =
    | Render(enabled: bool, sel: Selection)  // mount, key switch, refresh, enable and disable
    | LoadMore
    | Settle(k: nat, outcome: Outcome)       // the promise of request `k` resolves or rejects
    | Live(item: FeedItem)

  // ---------------------------------------------------------------- history, read by theorems only

  datatype Fetched = Fetched(request: nat, cursor: Option<string>, next: Option<string>, items: seq<FeedItem>)

  datatype Origin = Response(request: nat) | LiveItem | Seed

  datatype Arrival = Arrival(origin: Origin, sel: Selection, items: seq<FeedItem>)

  // What a list was made of: the pages it holds, the seed it started from before its first page, and the
  // live items taken in since then, newest first.
  datatype Story = Story(lives: seq<FeedItem>, seed: seq<FeedItem>, pages: seq<Fetched>)

  // `commits`: requests in the order they committed.  `story`: of the list on screen, and `stories` of
  // each cache entry.  `log`: everything that ever entered a list.
  datatype History = History(commits: seq<nat>, story: Story, stories: map<string, Story>, log: seq<Arrival>)

  datatype World = World(enabled: bool, sel: Selection, refs: Entry, controller: Option<nat>,
                         requests: seq<Request>, cache: map<string, Entry>,
                         loading: bool, initialized: bool, error: string, h: History)

  // ---------------------------------------------------------------- selections and keys

  const ALL := "__all__"

  function NormalizeProjectKey(value: string): string {
    StripTrailing(ReplaceAll(Trim(value), '\\', '/'), '/')
  }

  predicate ProjectMatches(selected: string, project: Option<string>) {
    || selected == ALL
    || (&& project.Some? && project.value != ""
        && var s, p := NormalizeProjectKey(selected), NormalizeProjectKey(project.value);
           && s != "" && p != ""
           && (p == s || StartsWith(p, s + "/") || StartsWith(s, p + "/")))
  }

  function ResolvedProject(item: FeedItem): Option<string> {
    if item.canonicalProject.Some? && Trim(item.canonicalProject.value) != "" then item.canonicalProject
    else item.project
  }

  predicate Hidden(item: FeedItem) {
    "private" in OrEmpty(item.privacyTags) || "sensitive" in OrEmpty(item.privacyTags)
  }

  /** The guards of `prependLiveItem`. */
  predicate Accepts(sel: Selection, item: FeedItem) {
    && item.id != ""
    && ProjectMatches(sel.project, ResolvedProject(item))
    && (sel.includePrivate || !Hidden(item))
  }

  function CacheKey(sel: Selection): string {
    (if sel.includePrivate then "private" else "public") + ":" + Decimal(sel.limit) + ":" +
    (if sel.project == ALL then ALL else NormalizeProjectKey(sel.project))
  }

  function AllProjects(sel: Selection): Selection {
    sel.(project := ALL)
  }

  function Filter(xs: seq<FeedItem>, project: string): seq<FeedItem> {
    if xs == [] then []
    else (if ProjectMatches(project, ResolvedProject(xs[0])) then [xs[0]] else []) + Filter(xs[1..], project)
  }

  /** `buildSeedCacheEntry`: the items to start from, or `[]` for its null result. */
  function SeedItems(cache: map<string, Entry>, sel: Selection): seq<FeedItem> {
    if sel.project == ALL || CacheKey(AllProjects(sel)) !in cache then []
    else Filter(cache[CacheKey(AllProjects(sel))].items, sel.project)
  }

  predicate Truthy(cursor: Option<string>) {
    cursor.Some? && cursor.value != ""
  }

  // ---------------------------------------------------------------- steps

  function Abort(requests: seq<Request>, controller: Option<nat>): seq<Request> {
    if controller.Some? && controller.value < |requests|
    then requests[controller.value := requests[controller.value].(aborted := true)]
    else requests
  }

  function Cleanup(w: World): World {
    w.(requests := Abort(w.requests, w.controller), controller := None)
  }

  function FetchPage(w: World, cursor: Option<string>, append: bool, background: bool): World {
    if Truthy(cursor) && w.controller.Some? then w
    else
      var rs := Abort(w.requests, w.controller);
      w.(requests := rs + [Request(w.sel, cursor, append, background, false, true)],
         controller := Some(|rs|),
         loading := w.loading || !background,
         error := "")
  }

  const EMPTY := Entry([], None, true)

  const NOTHING := Story([], [], [])

  function Show(w: World, e: Entry, story: Story): World {
    w.(refs := e, error := "", loading := false, initialized := true, h := w.h.(story := story))
  }

  function StoryOf(h: History, key: string): Story {
    if key in h.stories then h.stories[key] else NOTHING
  }

  function ShowNothing(w: World): World {
    w.(refs := EMPTY, initialized := false, h := w.h.(story := NOTHING))
  }

  function Off(w: World): World {
    ShowNothing(Cleanup(w)).(loading := false, error := "")
  }

  function ShowSeed(w: World, seeded: seq<FeedItem>): World {
    var shown := Show(w, Entry(seeded, None, false), Story([], seeded, []));
    shown.(h := shown.h.(log := w.h.log + [Arrival(Seed, w.sel, seeded)]))
  }

  function Effect(w: World): World {
    var key := CacheKey(w.sel);
    if !w.enabled then Off(w)
    else if key in w.cache then
      FetchPage(Show(w, w.cache[key], StoryOf(w.h, key)), None, false, true)
    else
      var seeded := SeedItems(w.cache, w.sel);
      if seeded != [] then FetchPage(ShowSeed(w, seeded), None, false, true)
      else FetchPage(ShowNothing(w), None, false, false)
  }

  lemma EffectOff(w: World)
    requires !w.enabled
    ensures Effect(w) == Off(w)
  {
  }

  lemma EffectCached(w: World)
    requires w.enabled && CacheKey(w.sel) in w.cache
    ensures Effect(w) == FetchPage(Show(w, w.cache[CacheKey(w.sel)], StoryOf(w.h, CacheKey(w.sel))), None, false, true)
  {
  }

  lemma EffectSeeded(w: World)
    requires w.enabled && CacheKey(w.sel) !in w.cache && SeedItems(w.cache, w.sel) != []
    ensures Effect(w) == FetchPage(ShowSeed(w, SeedItems(w.cache, w.sel)), None, false, true)
  {
  }

  lemma EffectFresh(w: World)
    requires w.enabled && CacheKey(w.sel) !in w.cache && SeedItems(w.cache, w.sel) == []
    ensures Effect(w) == FetchPage(ShowNothing(w), None, false, false)
  {
  }

  /** The state an effect runs in: cleaned up if it ran enabled before, with its new dependencies. */
  function Readied(w: World, enabled: bool, sel: Selection): World {
    (if w.enabled then Cleanup(w) else w).(enabled := enabled, sel := sel)
  }

  function Rerender(w: World, enabled: bool, sel: Selection): World {
    Effect(Readied(w, enabled, sel))
  }

  function More(w: World): World {
    if !w.refs.hasMore || !Truthy(w.refs.cursor) || w.controller.Some? then w
    else FetchPage(w, w.refs.cursor, true, false)
  }

  function Continued(story: Story, page: Fetched): Story {
    story.(pages := story.pages + [page])
  }

  /** The refs and the cache entry of a page that commits. */
  function Stored(w: World, k: nat, items: seq<FeedItem>, next: Option<string>): World
    requires k < |w.requests|
  {
    var r := w.requests[k];
    var e := Entry(MergedItems(if r.append then w.refs.items else [], items, false), next, Truthy(next));
    w.(refs := e, initialized := true, cache := w.cache[CacheKey(r.sel) := e])
  }

  function Commit(w: World, k: nat, items: seq<FeedItem>, next: Option<string>): World
    requires k < |w.requests|
  {
    var r := w.requests[k];
    var story := Continued(if r.append then w.h.story else NOTHING, Fetched(k, r.cursor, next, items));
    Stored(w, k, items, next).(h := History(w.h.commits + [k], story, w.h.stories[CacheKey(r.sel) := story],
                                            w.h.log + [Arrival(Response(k), r.sel, items)]))
  }

  predicate Current(w: World, k: nat)
    requires k < |w.requests|
  {
    !w.requests[k].aborted && k == |w.requests| - 1
  }

  function Finally(w: World, k: nat): World
    requires k < |w.requests|
  {
    w.(controller := if w.controller == Some(k) then None else w.controller,
       loading := w.loading && !(!w.requests[k].background && k == |w.requests| - 1),
       requests := w.requests[k := w.requests[k].(pending := false)])
  }

  function Settled(w: World, k: nat, outcome: Outcome): World {
    if k >= |w.requests| || !w.requests[k].pending then w
    else if !Current(w, k) then Finally(w, k)
    else match outcome
      case Page(items, next) => Finally(Commit(w, k, items, next), k)
      case Failed(message) => Finally(w.(error := message, initialized := true), k)
  }

  function Enlivened(story: Story, item: FeedItem): Story {
    story.(lives := [item] + story.lives)
  }

  function Prepend(w: World, item: FeedItem): World {
    if !Accepts(w.sel, item) then w
    else
      var e := w.refs.(items := MergedItems(w.refs.items, [item], true));
      var key := CacheKey(w.sel);
      var story := Enlivened(w.h.story, item);
      w.(refs := e, cache := w.cache[key := e],
         h := w.h.(story := story, stories := w.h.stories[key := story],
                   log := w.h.log + [Arrival(LiveItem, w.sel, [item])]))
  }

  function Next(w: World, a: Action): World {
    match a
    case Render(enabled, sel) => Rerender(w, enabled, sel)
    case LoadMore => More(w)
    case Settle(k, outcome) => Settled(w, k, outcome)
    case Live(item) => Prepend(w, item)
  }

  const INIT := World(false, Selection(ALL, false, 0), EMPTY, None, [], map[], false, false, "",
                      History([], NOTHING, map[], []))

  function Run(actions: seq<Action>): World
    decreases |actions|
  {
    if actions == [] then INIT else Next(Run(actions[..|actions| - 1]), actions[|actions| - 1])
  }

  // ---------------------------------------------------------------- invariant: requests and the loading flag

  ghost predicate Requests(w: World) {
    && (w.controller.Some? ==>
          && w.controller.value == |w.requests| - 1
          && var r := w.requests[w.controller.value];
             && r.pending && !r.aborted && r.sel == w.sel && w.enabled
             && (r.append ==> r.cursor == w.refs.cursor))
    && (forall k | 0 <= k < |w.requests| && w.requests[k].pending && !w.requests[k].aborted :: w.controller == Some(k))
    && (forall k | 0 <= k < |w.requests| :: w.requests[k].append == Truthy(w.requests[k].cursor))
    && (forall k | 0 <= k < |w.requests| && !w.requests[k].append :: w.requests[k].cursor == None)
    && (!w.enabled ==> w.refs.cursor == None)
    && (w.loading <==> w.controller.Some? && !w.requests[w.controller.value].background)
    && (forall i, j | 0 <= i < j < |w.h.commits| :: w.h.commits[i] < w.h.commits[j])
    && (forall i | 0 <= i < |w.h.commits| :: w.h.commits[i] < |w.requests| && !w.requests[w.h.commits[i]].pending)
  }

  // ---------------------------------------------------------------- invariant: lists and their page chains

  ghost predicate Chained(e: Entry, chain: seq<Fetched>) {
    && WellFormed(e.items)
    && (chain == [] ==> e.cursor == None)
    && (chain != [] ==> chain[0].cursor == None && e.cursor == chain[|chain| - 1].next && e.hasMore == Truthy(e.cursor))
    && (forall i | 0 < i < |chain| :: chain[i].cursor == chain[i - 1].next && Truthy(chain[i].cursor))
    && (forall i, id | 0 <= i < |chain| && id in Ids(chain[i].items) && id != "" :: id in Ids(e.items))
  }

  function ItemsOf(pages: seq<Fetched>): seq<FeedItem>
    decreases |pages|
  {
    if pages == [] then [] else ItemsOf(pages[..|pages| - 1]) + pages[|pages| - 1].items
  }

  /** Everything that went into a list: live items newest first, then its seed, then its pages in order. */
  function Ingredients(story: Story): seq<FeedItem> {
    story.lives + story.seed + ItemsOf(story.pages)
  }

  /** A list is one merge of its ingredients, and a seed is gone with the first page. */
  ghost predicate Built(items: seq<FeedItem>, story: Story) {
    items == Normalize(Ingredients(story)) && (story.seed == [] || story.pages == [])
  }

  ghost predicate Told(e: Entry, story: Story) {
    Chained(e, story.pages) && Built(e.items, story)
  }

  ghost predicate Lists(w: World) {
    && Told(w.refs, w.h.story)
    && w.cache.Keys == w.h.stories.Keys
    && (forall k | k in w.cache :: Told(w.cache[k], w.h.stories[k]))
    && (w.enabled && CacheKey(w.sel) in w.cache ==>
          w.cache[CacheKey(w.sel)] == w.refs && w.h.stories[CacheKey(w.sel)] == w.h.story)
  }

  // ---------------------------------------------------------------- invariant: where items come from

  ghost predicate ArrivedAt(log: seq<Arrival>, key: string, x: FeedItem) {
    exists i :: 0 <= i < |log| && CacheKey(log[i].sel) == key && x in log[i].items
  }

  ghost predicate Woven(log: seq<Arrival>, key: string, item: FeedItem, occ: seq<FeedItem>) {
    occ != [] && item == FoldItems(occ) && forall o | o in occ :: ArrivedAt(log, key, o)
  }

  /** `item` is the merge of items that all arrived under `key`. */
  ghost predicate Traceable(log: seq<Arrival>, key: string, item: FeedItem) {
    exists occ: seq<FeedItem> :: Woven(log, key, item, occ)
  }

  ghost predicate AllTraceable(log: seq<Arrival>, key: string, items: seq<FeedItem>) {
    forall x | x in items :: Traceable(log, key, x)
  }

  /** Why each arrival was let in. */
  ghost predicate Justified(requests: seq<Request>, log: seq<Arrival>, i: nat)
    requires i < |log|
  {
    var a := log[i];
    match a.origin
    case Response(k) => k < |requests| && requests[k].sel == a.sel && !requests[k].pending && !requests[k].aborted
    case LiveItem => |a.items| == 1 && Accepts(a.sel, a.items[0])
    case Seed =>
      && CacheKey(a.sel) != CacheKey(AllProjects(a.sel))
      && AllTraceable(log[..i], CacheKey(AllProjects(a.sel)), a.items)
      && forall x | x in a.items :: ProjectMatches(a.sel.project, ResolvedProject(x))
  }

  ghost predicate Provenance(w: World) {
    && AllTraceable(w.h.log, CacheKey(w.sel), w.refs.items)
    && (forall k | k in w.cache :: AllTraceable(w.h.log, k, w.cache[k].items))
    && (forall i | 0 <= i < |w.h.log| :: Justified(w.requests, w.h.log, i))
  }

  ghost predicate Inv(w: World) {
    Requests(w) && Lists(w) && Provenance(w)
  }

  // ---------------------------------------------------------------- every step keeps the request invariant

  // No request can still commit: what holds between the cleanup of an effect and its next run.
  ghost predicate Quiet(w: World) {
    && w.controller == None
    && (forall k | 0 <= k < |w.requests| && w.requests[k].pending :: w.requests[k].aborted)
    && (forall k | 0 <= k < |w.requests| :: w.requests[k].append == Truthy(w.requests[k].cursor))
    && (forall k | 0 <= k < |w.requests| && !w.requests[k].append :: w.requests[k].cursor == None)
    && (forall i, j | 0 <= i < j < |w.h.commits| :: w.h.commits[i] < w.h.commits[j])
    && (forall i | 0 <= i < |w.h.commits| :: w.h.commits[i] < |w.requests| && !w.requests[w.h.commits[i]].pending)
  }

  lemma CleanupQuiet(w: World)
    requires Requests(w)
    ensures Quiet(Cleanup(w)) && (!w.enabled ==> Quiet(w))
  {
  }

  lemma FetchKeepsRequests(w: World, cursor: Option<string>, background: bool)
    requires Quiet(w) && w.enabled && (background ==> !w.loading)
    requires cursor == None || (Truthy(cursor) && cursor == w.refs.cursor)
    ensures Requests(FetchPage(w, cursor, Truthy(cursor), background))
  {
  }

  lemma DisabledKeepsRequests(w: World)
    requires Quiet(w) && !w.enabled
    ensures Requests(Effect(w))
  {
    hide CacheKey;
  }

  lemma QuietFrame(w: World, v: World)
    requires Quiet(w) && v.controller == w.controller && v.requests == w.requests && v.h.commits == w.h.commits
    ensures Quiet(v)
  {
  }

  lemma ReadiedQuiet(w: World, enabled: bool, sel: Selection)
    requires Requests(w)
    ensures Quiet(Readied(w, enabled, sel))
  {
    hide Quiet, Requests, Cleanup;
    CleanupQuiet(w);
    QuietFrame(if w.enabled then Cleanup(w) else w, Readied(w, enabled, sel));
  }

  lemma RenderKeepsRequests(w: World, enabled: bool, sel: Selection)
    requires Requests(w)
    ensures Requests(Rerender(w, enabled, sel))
  {
    hide CacheKey, SeedItems, FetchPage, Cleanup, Requests, Effect, Quiet;
    ReadiedQuiet(w, enabled, sel);
    var w1, key := Readied(w, enabled, sel), CacheKey(sel);
    if !enabled {
      DisabledKeepsRequests(w1);
    } else if key in w1.cache {
      EffectCached(w1);
      var shown := Show(w1, w1.cache[key], StoryOf(w1.h, key));
      QuietFrame(w1, shown);
      FetchKeepsRequests(shown, None, true);
    } else if SeedItems(w1.cache, sel) != [] {
      EffectSeeded(w1);
      var shown := ShowSeed(w1, SeedItems(w1.cache, sel));
      QuietFrame(w1, shown);
      FetchKeepsRequests(shown, None, true);
    } else {
      EffectFresh(w1);
      QuietFrame(w1, ShowNothing(w1));
      FetchKeepsRequests(ShowNothing(w1), None, false);
    }
  }

  lemma MoreKeepsRequests(w: World)
    requires Requests(w)
    ensures Requests(More(w))
  {
    hide FetchPage;
    if w.refs.hasMore && Truthy(w.refs.cursor) && w.controller == None {
      FetchKeepsRequests(w, w.refs.cursor, false);
    }
  }

  lemma StaleKeepsRequests(w: World, k: nat)
    requires Requests(w) && k < |w.requests| && w.requests[k].pending && !Current(w, k)
    ensures Requests(Finally(w, k))
  {
  }

  lemma FailureKeepsRequests(w: World, k: nat, message: string)
    requires Requests(w) && k < |w.requests| && w.requests[k].pending && Current(w, k)
    ensures Requests(Finally(w.(error := message, initialized := true), k))
  {
  }

  lemma CommitKeepsRequests(w: World, k: nat, items: seq<FeedItem>, next: Option<string>)
    requires Requests(w) && k < |w.requests| && w.requests[k].pending && Current(w, k)
    ensures Requests(Finally(Commit(w, k, items, next), k))
  {
    hide CacheKey, MergedItems, Continued, Truthy;
  }

  lemma SettleKeepsRequests(w: World, k: nat, outcome: Outcome)
    requires Requests(w)
    ensures Requests(Settled(w, k, outcome))
  {
    hide Requests, Finally, Commit;
    if k >= |w.requests| || !w.requests[k].pending {
    } else if !Current(w, k) {
      StaleKeepsRequests(w, k);
    } else {
      match outcome
      case Page(items, next) => CommitKeepsRequests(w, k, items, next);
      case Failed(message) => FailureKeepsRequests(w, k, message);
    }
  }

  lemma LiveKeepsRequests(w: World, item: FeedItem)
    requires Requests(w)
    ensures Requests(Prepend(w, item))
  {
    hide CacheKey, MergedItems, Accepts;
  }

  // ---------------------------------------------------------------- every step keeps the lists and their chains

  lemma IdsCons(x: FeedItem, rest: seq<FeedItem>)
    ensures Ids([x] + rest) == [x.id] + Ids(rest)
    ensures WellFormed([x] + rest) <==> x.id != "" && x.id !in Ids(rest) && WellFormed(rest)
  {
    hide Distinct;
    assert Ids([x] + rest) == [x.id] + Ids(rest);
    DistinctCons(x.id, Ids(rest));
  }

  lemma {:induction false} FilterIds(xs: seq<FeedItem>, project: string)
    requires WellFormed(xs)
    ensures WellFormed(Filter(xs, project))
    ensures forall id | id in Ids(Filter(xs, project)) :: id in Ids(xs)
    ensures forall x | x in Filter(xs, project) :: x in xs && ProjectMatches(project, ResolvedProject(x))
  {
    hide ProjectMatches, ResolvedProject, Ids;
    if xs == [] {
    } else {
      var rest := xs[1..];
      assert xs == [xs[0]] + rest;
      IdsCons(xs[0], rest);
      FilterIds(rest, project);
      IdsCons(xs[0], Filter(rest, project));
    }
  }

  lemma SeedWellFormed(cache: map<string, Entry>, sel: Selection)
    requires CacheKey(AllProjects(sel)) in cache ==> WellFormed(cache[CacheKey(AllProjects(sel))].items)
    ensures WellFormed(SeedItems(cache, sel))
  {
    hide CacheKey;
    if SeedItems(cache, sel) != [] {
      FilterIds(cache[CacheKey(AllProjects(sel))].items, sel.project);
    }
  }

  lemma SeedTold(items: seq<FeedItem>)
    requires WellFormed(items)
    ensures Told(Entry(items, None, false), Story([], items, [])) && Told(EMPTY, NOTHING)
  {
    hide Normalize, Ids;
    NormalizeFixes(items);
    NormalizeFixes([]);
    assert Ingredients(Story([], items, [])) == items && Ingredients(NOTHING) == [];
  }

  lemma ToldWellFormed(e: Entry, story: Story)
    requires Told(e, story)
    ensures WellFormed(e.items)
  {
  }

  lemma SeedListTold(w: World, sel: Selection)
    requires Lists(w)
    ensures var seeded := SeedItems(w.cache, sel); Told(Entry(seeded, None, false), Story([], seeded, []))
  {
    hide CacheKey, SeedItems, Told, WellFormed;
    var all := CacheKey(AllProjects(sel));
    if all in w.cache {
      ToldWellFormed(w.cache[all], w.h.stories[all]);
    }
    SeedWellFormed(w.cache, sel);
    SeedTold(SeedItems(w.cache, sel));
  }

  lemma CleanupKeepsRest(w: World)
    ensures var c := Cleanup(w);
            c.refs == w.refs && c.cache == w.cache && c.h == w.h && c.sel == w.sel && c.enabled == w.enabled
  {
  }

  lemma NothingWellFormed()
    ensures WellFormed([])
  {
  }

  lemma FetchKeepsRest(w: World, background: bool)
    ensures var f := FetchPage(w, None, false, background);
            f.refs == w.refs && f.cache == w.cache && f.h == w.h && f.sel == w.sel && f.enabled == w.enabled
  {
  }

  lemma RenderKeepsLists(w: World, enabled: bool, sel: Selection)
    requires Lists(w)
    ensures Lists(Rerender(w, enabled, sel))
  {
    hide CacheKey, SeedItems, Told, FetchPage, Cleanup, Effect, WellFormed;
    NothingWellFormed();
    SeedTold([]);
    CleanupKeepsRest(w);
    var w1, key := Readied(w, enabled, sel), CacheKey(sel);
    if !enabled {
      EffectOff(w1);
      CleanupKeepsRest(w1);
    } else if key in w1.cache {
      EffectCached(w1);
      FetchKeepsRest(Show(w1, w1.cache[key], StoryOf(w1.h, key)), true);
    } else if SeedItems(w1.cache, sel) != [] {
      SeedListTold(w, sel);
      EffectSeeded(w1);
      FetchKeepsRest(ShowSeed(w1, SeedItems(w1.cache, sel)), true);
    } else {
      EffectFresh(w1);
      FetchKeepsRest(ShowNothing(w1), false);
    }
  }

  /** Which ids a merge holds, whatever the side the new items come from. */
  lemma MergedIds(current: seq<FeedItem>, incoming: seq<FeedItem>, prepend: bool)
    ensures var r := MergedItems(current, incoming, prepend);
            && WellFormed(r)
            && forall id :: id in Ids(r) <==> id != "" && (id in Ids(current) || id in Ids(incoming))
  {
    hide Normalize, Find;
    FirstOccurrenceOrder(if prepend then incoming + current else current + incoming);
    assert Ids(current + incoming) == Ids(current) + Ids(incoming);
    assert Ids(incoming + current) == Ids(incoming) + Ids(current);
  }

  lemma AppendChained(e: Entry, chain: seq<Fetched>, page: Fetched)
    requires Chained(e, chain) && page.cursor == e.cursor && Truthy(page.cursor)
    ensures Chained(Entry(MergedItems(e.items, page.items, false), page.next, Truthy(page.next)), chain + [page])
  {
    hide MergedItems, Ids;
    MergedIds(e.items, page.items, false);
    assert "" !in Ids(e.items);
    var c, m := chain + [page], MergedItems(e.items, page.items, false);
    forall i, id | 0 <= i < |c| && id in Ids(c[i].items) && id != "" ensures id in Ids(m) {
      if i < |chain| {
        assert id in Ids(chain[i].items);
      }
    }
  }

  lemma FirstChained(page: Fetched)
    requires page.cursor == None
    ensures Chained(Entry(MergedItems([], page.items, false), page.next, Truthy(page.next)), [page])
  {
    hide MergedItems;
    MergedIds([], page.items, false);
  }

  lemma LiveChained(e: Entry, chain: seq<Fetched>, item: FeedItem)
    requires Chained(e, chain)
    ensures Chained(e.(items := MergedItems(e.items, [item], true)), chain)
  {
    hide MergedItems, Ids;
    MergedIds(e.items, [item], true);
  }

  lemma ItemsOfSnoc(pages: seq<Fetched>, page: Fetched)
    ensures ItemsOf(pages + [page]) == ItemsOf(pages) + page.items
  {
    assert (pages + [page])[..|pages|] == pages;
  }

  lemma CursorComesFromPage(e: Entry, pages: seq<Fetched>)
    requires Chained(e, pages) && Truthy(e.cursor)
    ensures pages != []
  {
  }

  lemma AppendTold(e: Entry, story: Story, page: Fetched)
    requires Told(e, story) && page.cursor == e.cursor && Truthy(page.cursor)
    ensures Told(Entry(MergedItems(e.items, page.items, false), page.next, Truthy(page.next)), Continued(story, page))
  {
    hide Normalize;
    AppendChained(e, story.pages, page);
    hide Chained;
    var before := Ingredients(story);
    ItemsOfSnoc(story.pages, page);
    assert Ingredients(Continued(story, page)) == before + page.items;
    MergeCongruence(before, page.items);
    assert Truthy(e.cursor) ==> story.pages != [] by { CursorComesFromPage(e, story.pages); }
  }

  lemma FirstTold(page: Fetched)
    requires page.cursor == None
    ensures Told(Entry(MergedItems([], page.items, false), page.next, Truthy(page.next)), Continued(NOTHING, page))
  {
    hide Normalize;
    FirstChained(page);
    hide Chained;
    assert [] + [page] == [page] && [] + page.items == page.items;
    ItemsOfSnoc([], page);
    assert Ingredients(Continued(NOTHING, page)) == page.items;
  }

  lemma LiveTold(e: Entry, story: Story, item: FeedItem)
    requires Told(e, story)
    ensures Told(e.(items := MergedItems(e.items, [item], true)), Enlivened(story, item))
  {
    hide Normalize;
    LiveChained(e, story.pages, item);
    hide Chained;
    var before := Ingredients(story);
    assert Ingredients(Enlivened(story, item)) == [item] + before;
    MergeCongruence([item], before);
  }

  lemma SettleKeepsLists(w: World, k: nat, outcome: Outcome)
    requires Requests(w) && Lists(w)
    ensures Lists(Settled(w, k, outcome))
  {
    hide CacheKey, Told, Continued, MergedItems;
    if k < |w.requests| && w.requests[k].pending && Current(w, k) && outcome.Page? {
      var r := w.requests[k];
      var page := Fetched(k, r.cursor, outcome.next, outcome.items);
      assert w.controller == Some(k);
      if r.append {
        AppendTold(w.refs, w.h.story, page);
      } else {
        FirstTold(page);
      }
    }
  }

  lemma LiveKeepsLists(w: World, item: FeedItem)
    requires Lists(w)
    ensures Lists(Prepend(w, item))
  {
    hide CacheKey, Told, Enlivened, MergedItems, Accepts;
    LiveTold(w.refs, w.h.story, item);
  }

  // ---------------------------------------------------------------- every step keeps the provenance of items

  lemma {:induction false} FoldConcat(a: seq<FeedItem>, b: seq<FeedItem>)
    requires a != [] && b != []
    ensures FoldItems(a + b) == MergeItem(FoldItems(a), FoldItems(b))
    decreases |b|
  {
    hide MergeItem, FoldItems;
    var init, y := b[..|b| - 1], b[|b| - 1];
    assert b == init + [y];
    if init == [] {
      assert b == [y];
      FoldSnoc(a, y);
      FoldOne(y);
    } else {
      var f, g := FoldItems(a), FoldItems(init);
      calc {
        FoldItems(a + b);
        { assert a + b == (a + init) + [y]; }
        FoldItems((a + init) + [y]);
        { FoldSnoc(a + init, y); FoldConcat(a, init); }
        MergeItem(MergeItem(f, g), y);
        { MergeItemAssociative(f, g, y); }
        MergeItem(f, MergeItem(g, y));
        { FoldSnoc(init, y); }
        MergeItem(f, FoldItems(b));
      }
    }
  }

  lemma ArrivedTraceable(log: seq<Arrival>, key: string, x: FeedItem)
    requires ArrivedAt(log, key, x)
    ensures Traceable(log, key, x)
  {
    hide ArrivedAt, FoldItems;
    FoldOne(x);
    assert Woven(log, key, x, [x]);
  }

  lemma {:induction false} TraceableFold(log: seq<Arrival>, key: string, occ: seq<FeedItem>)
    requires occ != [] && forall o | o in occ :: Traceable(log, key, o)
    ensures Traceable(log, key, FoldItems(occ))
    decreases |occ|
  {
    hide ArrivedAt, FoldItems, MergeItem;
    var init, y := occ[..|occ| - 1], occ[|occ| - 1];
    assert occ == init + [y];
    assert y in occ && Traceable(log, key, y);
    var ys :| Woven(log, key, y, ys);
    if init == [] {
      assert occ == [y];
      FoldOne(y);
    } else {
      forall o | o in init ensures Traceable(log, key, o) {
        assert o in occ;
      }
      TraceableFold(log, key, init);
      var xs :| Woven(log, key, FoldItems(init), xs);
      FoldConcat(xs, ys);
      FoldSnoc(init, y);
      assert Woven(log, key, FoldItems(occ), xs + ys);
    }
  }

  lemma TraceableGrows(log: seq<Arrival>, a: Arrival, key: string, items: seq<FeedItem>)
    requires AllTraceable(log, key, items)
    ensures AllTraceable(log + [a], key, items)
  {
    hide FoldItems, CacheKey;
    forall x | x in items ensures Traceable(log + [a], key, x) {
      assert Traceable(log, key, x);
      var occ :| Woven(log, key, x, occ);
      forall o | o in occ ensures ArrivedAt(log + [a], key, o) {
        var i :| 0 <= i < |log| && CacheKey(log[i].sel) == key && o in log[i].items;
        assert (log + [a])[i] == log[i];
      }
      assert Woven(log + [a], key, x, occ);
    }
  }

  lemma TraceableMerge(log: seq<Arrival>, key: string, current: seq<FeedItem>, incoming: seq<FeedItem>, prepend: bool)
    requires AllTraceable(log, key, current) && AllTraceable(log, key, incoming)
    ensures AllTraceable(log, key, MergedItems(current, incoming, prepend))
  {
    hide Traceable, FoldItems, Occurrences, Normalize;
    var order := if prepend then incoming + current else current + incoming;
    var r := Normalize(order);
    forall x | x in r ensures Traceable(log, key, x) {
      var k :| 0 <= k < |r| && r[k] == x;
      ItemIsFold(order, k);
      OccurrencesNonEmpty(order, x.id);
      TraceableFold(log, key, Occurrences(order, x.id));
    }
  }

  lemma NewArrivalTraceable(log: seq<Arrival>, a: Arrival)
    ensures AllTraceable(log + [a], CacheKey(a.sel), a.items)
  {
    hide Traceable, CacheKey;
    forall x | x in a.items ensures Traceable(log + [a], CacheKey(a.sel), x) {
      assert (log + [a])[|log|] == a;
      ArrivedTraceable(log + [a], CacheKey(a.sel), x);
    }
  }

  // Everything known before an arrival is known after it.
  lemma ProvenanceGrows(w: World, a: Arrival)
    requires Provenance(w)
    requires Justified(w.requests, w.h.log + [a], |w.h.log|)
    ensures Provenance(w.(h := w.h.(log := w.h.log + [a])))
  {
    hide AllTraceable, CacheKey, Accepts, ProjectMatches;
    var log := w.h.log + [a];
    TraceableGrows(w.h.log, a, CacheKey(w.sel), w.refs.items);
    forall k | k in w.cache ensures AllTraceable(log, k, w.cache[k].items) {
      TraceableGrows(w.h.log, a, k, w.cache[k].items);
    }
    forall i | 0 <= i < |log| ensures Justified(w.requests, log, i) {
      if i < |w.h.log| {
        assert Justified(w.requests, w.h.log, i);
        assert log[..i] == w.h.log[..i];
      }
    }
  }

  // Later requests, and aborting one still pending, do not touch what settled ones let in.
  lemma ProvenanceOfRequests(w: World, requests: seq<Request>)
    requires Provenance(w) && |w.requests| <= |requests|
    requires forall k | 0 <= k < |w.requests| && !w.requests[k].pending :: requests[k] == w.requests[k]
    ensures Provenance(w.(requests := requests))
  {
    hide AllTraceable, CacheKey, Accepts, ProjectMatches;
    forall i | 0 <= i < |w.h.log| ensures Justified(requests, w.h.log, i) {
      assert Justified(w.requests, w.h.log, i);
    }
  }

  lemma ReadiedKeepsRest(w: World, enabled: bool, sel: Selection)
    ensures var r := Readied(w, enabled, sel);
            && r.cache == w.cache && r.h == w.h && r.sel == sel && r.enabled == enabled
            && Rerender(w, enabled, sel) == Effect(r)
  {
    hide Effect;
  }

  lemma CachedTraceable(w: World, key: string)
    requires Provenance(w) && key in w.cache
    ensures AllTraceable(w.h.log, key, w.cache[key].items)
  {
    hide AllTraceable, Justified;
  }

  lemma SeedJustified(w: World, sel: Selection)
    requires Lists(w) && Provenance(w) && CacheKey(sel) !in w.cache && SeedItems(w.cache, sel) != []
    ensures var a := Arrival(Seed, sel, SeedItems(w.cache, sel));
            Justified(w.requests, w.h.log + [a], |w.h.log|)
  {
    hide CacheKey, Traceable, Told, ProjectMatches;
    var all := CacheKey(AllProjects(sel));
    ToldWellFormed(w.cache[all], w.h.stories[all]);
    FilterIds(w.cache[all].items, sel.project);
    assert (w.h.log + [Arrival(Seed, sel, SeedItems(w.cache, sel))])[..|w.h.log|] == w.h.log;
  }

  lemma SeedKeepsProvenance(w: World, sel: Selection)
    requires Lists(w) && Provenance(w) && CacheKey(sel) !in w.cache && SeedItems(w.cache, sel) != []
    ensures var a := Arrival(Seed, sel, SeedItems(w.cache, sel)); var log := w.h.log + [a];
            Provenance(w.(h := w.h.(log := log))) && AllTraceable(log, CacheKey(sel), a.items)
  {
    hide CacheKey, SeedItems, AllTraceable, Justified, Lists, Provenance;
    var a := Arrival(Seed, sel, SeedItems(w.cache, sel));
    SeedJustified(w, sel);
    ProvenanceGrows(w, a);
    NewArrivalTraceable(w.h.log, a);
  }

  /** A step that only touches the requests, as a render does, and shows something known under the new key. */
  lemma RefsKeepProvenance(w: World, w': World, refs: Entry)
    requires Provenance(w) && AllTraceable(w.h.log, CacheKey(w'.sel), refs.items)
    requires w'.cache == w.cache && w'.h.log == w.h.log && w'.refs == refs && |w.requests| <= |w'.requests|
    requires forall k | 0 <= k < |w.requests| && !w.requests[k].pending :: w'.requests[k] == w.requests[k]
    ensures Provenance(w')
  {
    hide CacheKey, AllTraceable, Justified;
    var v := w.(sel := w'.sel, refs := refs);
    ProvenanceOfRequests(v, w'.requests);
  }

  lemma NothingTraceable(log: seq<Arrival>, key: string)
    ensures AllTraceable(log, key, [])
  {
  }

  lemma RenderRequests(w: World, enabled: bool, sel: Selection)
    requires Requests(w)
    ensures var rs := Rerender(w, enabled, sel).requests;
            && |w.requests| <= |rs|
            && forall k | 0 <= k < |w.requests| && !w.requests[k].pending :: rs[k] == w.requests[k]
  {
    hide CacheKey, SeedItems;
  }

  lemma RenderKeepsProvenance(w: World, enabled: bool, sel: Selection)
    requires Requests(w) && Lists(w) && Provenance(w)
    ensures Provenance(Rerender(w, enabled, sel))
  {
    hide CacheKey, SeedItems, AllTraceable, Justified, Requests, Lists, Provenance, FetchPage, Cleanup, Effect, Readied;
    RenderRequests(w, enabled, sel);
    ReadiedKeepsRest(w, enabled, sel);
    var w', w1 := Rerender(w, enabled, sel), Readied(w, enabled, sel);
    NothingTraceable(w.h.log, CacheKey(sel));
    if !enabled {
      EffectOff(w1);
      CleanupKeepsRest(w1);
      RefsKeepProvenance(w, w', EMPTY);
    } else if CacheKey(sel) in w1.cache {
      EffectCached(w1);
      FetchKeepsRest(Show(w1, w1.cache[CacheKey(sel)], StoryOf(w1.h, CacheKey(sel))), true);
      CachedTraceable(w, CacheKey(sel));
      RefsKeepProvenance(w, w', w1.cache[CacheKey(sel)]);
    } else if SeedItems(w1.cache, sel) != [] {
      SeedKeepsProvenance(w, sel);
      EffectSeeded(w1);
      FetchKeepsRest(ShowSeed(w1, SeedItems(w1.cache, sel)), true);
      var v := w.(h := w.h.(log := w.h.log + [Arrival(Seed, sel, SeedItems(w.cache, sel))]));
      RefsKeepProvenance(v, w', Entry(SeedItems(w.cache, sel), None, false));
    } else {
      EffectFresh(w1);
      FetchKeepsRest(ShowNothing(w1), false);
      RefsKeepProvenance(w, w', EMPTY);
    }
  }

  lemma ResponseJustified(w: World, k: nat, a: Arrival)
    requires k < |w.requests| && !w.requests[k].pending && !w.requests[k].aborted
    requires a.origin == Response(k) && a.sel == w.requests[k].sel
    ensures Justified(w.requests, w.h.log + [a], |w.h.log|)
  {
    hide CacheKey, AllTraceable, Accepts, ProjectMatches;
  }

  lemma SettleKeepsProvenance(w: World, k: nat, outcome: Outcome)
    requires Requests(w) && Provenance(w)
    ensures Provenance(Settled(w, k, outcome))
  {
    hide CacheKey, AllTraceable, MergedItems, Justified;
    var w' := Settled(w, k, outcome);
    if k >= |w.requests| || !w.requests[k].pending {
    } else {
      ProvenanceOfRequests(w, w'.requests);
      if Current(w, k) && outcome.Page? {
        var r := w.requests[k];
        var a := Arrival(Response(k), r.sel, outcome.items);
        var v := w.(requests := w'.requests);
        ResponseJustified(v, k, a);
        ProvenanceGrows(v, a);
        NewArrivalTraceable(w.h.log, a);
        NothingTraceable(w.h.log + [a], CacheKey(r.sel));
        TraceableMerge(w.h.log + [a], CacheKey(r.sel), if r.append then w.refs.items else [], outcome.items, false);
      }
    }
  }

  lemma LiveJustified(w: World, item: FeedItem)
    requires Accepts(w.sel, item)
    ensures Justified(w.requests, w.h.log + [Arrival(LiveItem, w.sel, [item])], |w.h.log|)
  {
    hide CacheKey, AllTraceable, Accepts, ProjectMatches;
  }

  lemma LiveKeepsProvenance(w: World, item: FeedItem)
    requires Provenance(w)
    ensures Provenance(Prepend(w, item))
  {
    hide CacheKey, AllTraceable, MergedItems, Justified, Accepts;
    if Accepts(w.sel, item) {
      var a := Arrival(LiveItem, w.sel, [item]);
      LiveJustified(w, item);
      ProvenanceGrows(w, a);
      NewArrivalTraceable(w.h.log, a);
      TraceableMerge(w.h.log + [a], CacheKey(w.sel), w.refs.items, [item], true);
    }
  }

  // ---------------------------------------------------------------- theorems

  lemma MoreKeepsRest(w: World)
    requires Requests(w) && Lists(w) && Provenance(w)
    ensures Lists(More(w)) && Provenance(More(w))
  {
    hide CacheKey, Told, AllTraceable, Justified;
    ProvenanceOfRequests(w, More(w).requests);
  }

  lemma StepKeepsInv(w: World, a: Action)
    requires Inv(w)
    ensures Inv(Next(w, a))
  {
    hide Requests, Lists, Provenance, Rerender, More, Settled, Prepend;
    match a
    case Render(enabled, sel) =>
      RenderKeepsRequests(w, enabled, sel);
      RenderKeepsLists(w, enabled, sel);
      RenderKeepsProvenance(w, enabled, sel);
    case LoadMore =>
      MoreKeepsRequests(w);
      MoreKeepsRest(w);
    case Settle(k, outcome) =>
      SettleKeepsRequests(w, k, outcome);
      SettleKeepsLists(w, k, outcome);
      SettleKeepsProvenance(w, k, outcome);
    case Live(item) =>
      LiveKeepsRequests(w, item);
      LiveKeepsLists(w, item);
      LiveKeepsProvenance(w, item);
  }

  lemma InitInv()
    ensures Inv(INIT)
  {
    SeedTold([]);
    NothingTraceable([], CacheKey(INIT.sel));
  }

  /** The invariant holds after every run, whatever the interleaving. */
  lemma {:induction false} RunInv(actions: seq<Action>)
    ensures Inv(Run(actions))
    decreases |actions|
  {
    hide Requests, Lists, Provenance, Next;
    if actions == [] {
      InitInv();
    } else {
      RunInv(actions[..|actions| - 1]);
      StepKeepsInv(Run(actions[..|actions| - 1]), actions[|actions| - 1]);
    }
  }

  /** The controller, when there is one, is the newest request's, un-aborted; nothing else can still commit. */
  lemma RequestDiscipline(actions: seq<Action>)
    ensures var w := Run(actions);
            && (w.controller.Some? ==>
                  && w.controller.value == |w.requests| - 1
                  && w.requests[w.controller.value].pending && !w.requests[w.controller.value].aborted)
            && (forall k | 0 <= k < |w.requests| && w.requests[k].pending && w.controller != Some(k) :: w.requests[k].aborted)
            && (forall i, j | 0 <= i < j < |w.h.commits| :: w.h.commits[i] < w.h.commits[j])
  {
    hide Lists, Provenance, Run;
    RunInv(actions);
  }

  /** A late or overtaken response changes nothing but the state of its own promise. */
  lemma StaleResponseIsInert(actions: seq<Action>, k: nat, outcome: Outcome)
    requires var w := Run(actions);
             k < |w.requests| && w.requests[k].pending && (w.requests[k].aborted || k < |w.requests| - 1)
    ensures var w := Run(actions);
            Next(w, Settle(k, outcome)) == w.(requests := w.requests[k := w.requests[k].(pending := false)])
  {
    hide Lists, Provenance, Run, Commit;
    RunInv(actions);
  }

  /**
   The list on screen is one merge of the live items taken in since its first page, newest first, the
   seed it showed until then, and its pages.  The pages chain: the first was asked for without a cursor,
   each later one with exactly the cursor its predecessor returned, and the current cursor is the one the
   last returned.  So nothing else is listed, no page is missing or repeated, and no page has lost an item.
   */
  lemma PagesChain(actions: seq<Action>)
    ensures var w := Run(actions);
            var pages := w.h.story.pages;
            && w.refs.items == Normalize(w.h.story.lives + w.h.story.seed + ItemsOf(pages))
            && (w.h.story.seed == [] || pages == [])
            && (pages != [] ==> pages[0].cursor == None && w.refs.cursor == pages[|pages| - 1].next)
            && (forall i | 0 < i < |pages| :: pages[i].cursor == pages[i - 1].next && Truthy(pages[i].cursor))
            && (forall i, id | 0 <= i < |pages| && id in Ids(pages[i].items) && id != "" :: id in Ids(w.refs.items))
            && WellFormed(w.refs.items)
  {
    hide Requests, Provenance, Run, Ids, Normalize;
    RunInv(actions);
  }

  lemma FirstPage(items: seq<FeedItem>)
    ensures MergedItems([], items, false) == Normalize(items)
  {
    assert [] + items == items;
  }

  /** A page that still can be appended was asked for with the cursor the refs hold now. */
  lemma AppendCommitsAtItsCursor(actions: seq<Action>, k: nat, items: seq<FeedItem>, next: Option<string>)
    requires var w := Run(actions); k < |w.requests| && w.requests[k].pending && Current(w, k)
    ensures var w := Run(actions);
            var w' := Next(w, Settle(k, Page(items, next)));
            && w'.h.commits == w.h.commits + [k]
            && w'.refs.cursor == next
            && (w.requests[k].append ==>
                  && w.requests[k].cursor == w.refs.cursor
                  && Ids(w.refs.items) <= Ids(w'.refs.items)
                  && forall id :: id in Ids(w'.refs.items) <==>
                       id in Ids(w.refs.items) || (id != "" && id in Ids(items)))
            && (!w.requests[k].append ==> w.requests[k].cursor == None && w'.refs.items == Normalize(items))
  {
    hide Provenance, Run, MergedItems, CacheKey, Told, Ids;
    RunInv(actions);
    var w := Run(actions);
    ToldWellFormed(w.refs, w.h.story);
    AppendKeepsPositions(w.refs.items, items);
    FirstPage(items);
  }

  /** Request `k` may still commit. */
  predicate CanCommit(w: World, k: nat) {
    k < |w.requests| && w.requests[k].pending && Current(w, k)
  }

  ghost predicate EndsWith(s: seq<FeedItem>, t: seq<FeedItem>) {
    |t| <= |s| && s[|s| - |t|..] == t
  }

  /** From `w` to `v` only live items have come in, at the front. */
  ghost predicate Waiting(w: World, v: World, k: nat) {
    && k < |w.requests| && k < |v.requests|
    && v.requests[k] == w.requests[k] && v.sel == w.sel && v.refs.cursor == w.refs.cursor
    && v.h.story.seed == w.h.story.seed && v.h.story.pages == w.h.story.pages
    && EndsWith(v.h.story.lives, w.h.story.lives)
  }

  lemma MoreWhileWaiting(w: World, k: nat)
    requires Requests(w) && k < |w.requests| && CanCommit(More(w), k)
    ensures CanCommit(w, k) && Waiting(w, More(w), k)
  {
  }

  lemma SettledRequests(w: World, j: nat, outcome: Outcome)
    ensures Settled(w, j, outcome).requests ==
      if j < |w.requests| then w.requests[j := w.requests[j].(pending := false)] else w.requests
  {
    hide MergedItems, CacheKey, Continued;
    if j < |w.requests| && !w.requests[j].pending {
      assert w.requests[j := w.requests[j].(pending := false)] == w.requests;
    }
  }

  lemma SettleWhileWaiting(w: World, j: nat, outcome: Outcome, k: nat)
    requires Requests(w) && k < |w.requests| && CanCommit(Settled(w, j, outcome), k)
    ensures CanCommit(w, k) && Waiting(w, Settled(w, j, outcome), k)
  {
    SettledRequests(w, j, outcome);
    hide Commit;
  }

  lemma LiveWhileWaiting(w: World, item: FeedItem, k: nat)
    requires k < |w.requests| && CanCommit(Prepend(w, item), k)
    ensures CanCommit(w, k) && Waiting(w, Prepend(w, item), k)
  {
    hide MergedItems, CacheKey, Accepts;
    assert ([item] + w.h.story.lives)[1..] == w.h.story.lives;
  }

  lemma RenderAborts(w: World, enabled: bool, sel: Selection, k: nat)
    requires Requests(w) && k < |w.requests|
    ensures !CanCommit(Rerender(w, enabled, sel), k)
  {
    hide CacheKey, SeedItems;
  }

  /**
   While a request can still commit, no step ends the list it will be merged with: load-more calls and stale
   responses leave it alone, and live items only come in at its front.
   */
  lemma StepWhileWaiting(w: World, a: Action, k: nat)
    requires Requests(w) && k < |w.requests| && CanCommit(Next(w, a), k)
    ensures CanCommit(w, k) && Waiting(w, Next(w, a), k)
  {
    hide Requests, Rerender, More, Settled, Prepend, CanCommit, Waiting;
    match a
    case Render(enabled, sel) => RenderAborts(w, enabled, sel, k);
    case LoadMore => MoreWhileWaiting(w, k);
    case Settle(j, outcome) => SettleWhileWaiting(w, j, outcome, k);
    case Live(item) => LiveWhileWaiting(w, item, k);
  }

  lemma RenderGrowsRequests(w: World, enabled: bool, sel: Selection)
    ensures |w.requests| <= |Rerender(w, enabled, sel).requests|
  {
    hide CacheKey, SeedItems;
  }

  lemma NextGrowsRequests(w: World, a: Action)
    ensures |w.requests| <= |Next(w, a).requests|
  {
    hide Settled, Rerender, MergedItems, CacheKey, Accepts;
    match a
    case Settle(j, outcome) => SettledRequests(w, j, outcome);
    case Render(enabled, sel) => RenderGrowsRequests(w, enabled, sel);
    case _ =>
  }

  lemma RunSnoc(actions: seq<Action>, a: Action)
    ensures Run(actions + [a]) == Next(Run(actions), a)
  {
    hide Next;
    assert (actions + [a])[..|actions|] == actions;
  }

  lemma {:induction false} RequestsGrow(actions: seq<Action>, more: seq<Action>)
    ensures |Run(actions).requests| <= |Run(actions + more).requests|
    decreases |more|
  {
    hide Run, Next;
    if more == [] {
      assert actions + more == actions;
    } else {
      var init, a := more[..|more| - 1], more[|more| - 1];
      assert actions + more == (actions + init) + [a];
      RunSnoc(actions + init, a);
      RequestsGrow(actions, init);
      NextGrowsRequests(Run(actions + init), a);
    }
  }

  lemma {:induction false} RunWhileWaiting(actions: seq<Action>, mid: seq<Action>, k: nat)
    requires k < |Run(actions).requests| && CanCommit(Run(actions + mid), k)
    ensures CanCommit(Run(actions), k) && Waiting(Run(actions), Run(actions + mid), k)
    decreases |mid|
  {
    hide Run, Next, CanCommit, Lists, Provenance, Requests;
    if mid == [] {
      assert actions + mid == actions;
    } else {
      var init, a := mid[..|mid| - 1], mid[|mid| - 1];
      assert actions + mid == (actions + init) + [a];
      RunSnoc(actions + init, a);
      RequestsGrow(actions, init);
      RunInv(actions + init);
      StepWhileWaiting(Run(actions + init), a, k);
      RunWhileWaiting(actions, init, k);
    }
  }

  lemma LiveStory(w: World, live: FeedItem)
    requires Accepts(w.sel, live)
    ensures var v := Next(w, Live(live)); v.h.story == Enlivened(w.h.story, live) && v.requests == w.requests && v.sel == w.sel
  {
    hide MergedItems, CacheKey, Accepts;
  }

  lemma CommitStory(w: World, k: nat, items: seq<FeedItem>, next: Option<string>)
    requires Requests(w) && CanCommit(w, k) && w.requests[k].append
    ensures var z := Next(w, Settle(k, Page(items, next)));
            && z.h.story == Continued(w.h.story, Fetched(k, w.requests[k].cursor, next, items))
            && z.refs.cursor == next && z.sel == w.sel
            && CacheKey(z.sel) in z.cache && z.cache[CacheKey(z.sel)] == z.refs
  {
    hide MergedItems, CacheKey, Continued;
  }

  /** An ingredient with an id is listed under it. */
  lemma IngredientListed(w: World, item: FeedItem)
    requires Lists(w) && item in w.h.story.lives && item.id != ""
    ensures item.id in Ids(w.refs.items)
  {
    hide Normalize, Chained, Find, CacheKey;
    var all := Ingredients(w.h.story);
    FirstOccurrenceOrder(all);
    assert item in all;
    var i :| 0 <= i < |all| && all[i] == item;
    assert Ids(all)[i] == item.id;
  }

  lemma EndsWithTrans(a: seq<FeedItem>, b: seq<FeedItem>, x: FeedItem)
    requires EndsWith(a, b) && x in b
    ensures x in a
  {
    var i :| 0 <= i < |b| && b[i] == x;
    assert a[|a| - |b| + i] == a[|a| - |b|..][i];
  }

  lemma CommitKeepsIds(actions: seq<Action>, k: nat, items: seq<FeedItem>, next: Option<string>)
    requires CanCommit(Run(actions), k) && Run(actions).requests[k].append
    ensures Ids(Run(actions).refs.items) <= Ids(Next(Run(actions), Settle(k, Page(items, next))).refs.items)
  {
    hide Run, Next, Ids;
    AppendCommitsAtItsCursor(actions, k, items, next);
  }

  lemma AcceptedId(sel: Selection, item: FeedItem)
    requires Accepts(sel, item)
    ensures item.id != ""
  {
  }

  /**
   A live item taken in while "load more" is in flight survives its commit, whatever happens in between as
   long as the request stays current: more live items, load-more calls, late responses of others.  The
   list is then one merge with the live item in its place among the newer and the older ones, and the
   commit keeps every id at its position.
   */
  lemma LiveSurvivesAppend(actions: seq<Action>, live: FeedItem, mid: seq<Action>,
                           k: nat, items: seq<FeedItem>, next: Option<string>)
    requires k < |Run(actions).requests| && Run(actions).requests[k].append && Accepts(Run(actions).sel, live)
    requires CanCommit(Run(actions + [Live(live)] + mid), k)
    ensures var w, v := Run(actions), Run(actions + [Live(live)] + mid);
            var z := Next(v, Settle(k, Page(items, next)));
            && EndsWith(v.h.story.lives, [live] + w.h.story.lives)
            && z.refs.items == Normalize(v.h.story.lives + w.h.story.seed + (ItemsOf(w.h.story.pages) + items))
            && live.id in Ids(v.refs.items) && Ids(v.refs.items) <= Ids(z.refs.items)
            && z.refs.cursor == next && CacheKey(z.sel) in z.cache && z.cache[CacheKey(z.sel)] == z.refs
  {
    hide Run, Next, MergedItems, Normalize, CacheKey, Accepts, Ids, Lists, Provenance, Requests;
    var w, before := Run(actions), actions + [Live(live)];
    RunSnoc(actions, Live(live));
    LiveStory(w, live);
    RunWhileWaiting(before, mid, k);
    var v := Run(before + mid);
    RunInv(before + mid);
    assert live in [live] + w.h.story.lives;
    EndsWithTrans(v.h.story.lives, [live] + w.h.story.lives, live);
    AcceptedId(w.sel, live);
    IngredientListed(v, live);
    CommitStory(v, k, items, next);
    ItemsOfSnoc(v.h.story.pages, Fetched(k, v.requests[k].cursor, next, items));
    RunSnoc(before + mid, Settle(k, Page(items, next)));
    PagesChain(before + mid + [Settle(k, Page(items, next))]);
    CommitKeepsIds(before + mid, k, items, next);
  }

  /**
   No leak between keys.  Every item shown, and every item of a cache entry, is the merge of items that
   arrived under that very key; each arrival is the response to a request of the key, a live item that
   passed the checks under it, or a seed filtered from the all-projects list of the same privacy and
   limit.  While enabled, an existing entry for the active key equals what is shown.
   */
  lemma NoLeak(actions: seq<Action>)
    ensures var w := Run(actions);
            && AllTraceable(w.h.log, CacheKey(w.sel), w.refs.items)
            && (forall k | k in w.cache :: AllTraceable(w.h.log, k, w.cache[k].items))
            && (forall i | 0 <= i < |w.h.log| :: Justified(w.requests, w.h.log, i))
            && (w.enabled && CacheKey(w.sel) in w.cache ==> w.cache[CacheKey(w.sel)] == w.refs)
  {
    hide Requests, AllTraceable, Justified, Run, CacheKey, Told;
    RunInv(actions);
  }

  lemma CommitKeepsFlags(w: World, outcome: Outcome)
    requires w.requests != [] && outcome.Page?
    ensures var c := Commit(w, |w.requests| - 1, outcome.items, outcome.next);
            c.loading == w.loading && c.requests == w.requests && c.controller == w.controller
  {
    hide MergedItems, CacheKey;
  }

  /** `loading` is up exactly while the newest request is a foreground one still pending and not aborted. */
  lemma LoadingNeverStuck(actions: seq<Action>, outcome: Outcome)
    ensures var w := Run(actions);
            var n := |w.requests| - 1;
            && (w.loading <==> n >= 0 && w.requests[n].pending && !w.requests[n].aborted && !w.requests[n].background)
            && (n >= 0 ==> !Next(w, Settle(n, outcome)).loading)
  {
    hide Lists, Provenance, Run, Commit;
    RunInv(actions);
    if Run(actions).requests != [] && outcome.Page? {
      CommitKeepsFlags(Run(actions), outcome);
    }
  }

  // ---------------------------------------------------------------- what a cache key tells apart

  lemma {:induction false} SplitAtFirst(a: string, x: string, b: string, y: string, c: char)
    requires c !in a && c !in b && a + [c] + x == b + [c] + y
    ensures a == b && x == y
  {
    var s, t := a + [c] + x, b + [c] + y;
    assert s[0] == if a == [] then c else a[0];
    assert t[0] == if b == [] then c else b[0];
    if a == [] {
      assert s[1..] == x && t[1..] == y;
    } else {
      assert s[1..] == a[1..] + [c] + x && t[1..] == b[1..] + [c] + y;
      SplitAtFirst(a[1..], x, b[1..], y, c);
    }
  }

  /** A plain name is normal, and a slash or backslash behind it or a space in front does not show. */
  lemma NormalName(s: string, c: char)
    requires IsPlain(s) && (c == '/' || c == '\\')
    ensures NormalizeProjectKey(s) == s && NormalizeProjectKey(s + [c]) == s && NormalizeProjectKey([' '] + s) == s
  {
    hide Trim, ReplaceAll, StripTrailing;
    NothingToTrim(s);
    NothingToTrim(s + [c]);
    LeadingSpace(s);
    NoBackslash(s);
    NoBackslash(s + ['/']);
    BackslashLast(s);
    StripOne(s, '/');
  }

  lemma AllCharacters()
    ensures IsPlain(ALL)
  {
    assert forall i | 0 <= i < |ALL| :: ALL[i] != '\\';
  }

  lemma AllIsNormal()
    ensures NormalizeProjectKey(ALL) == ALL
  {
    AllCharacters();
    NormalName(ALL, '/');
  }

  lemma NoColon(n: int)
    ensures ':' !in Decimal(n)
  {
    var d := Digits(if n < 0 then -n else n);
    assert forall c | c in d :: c != ':';
  }

  /** Two selections share a cache entry exactly when privacy, limit and normalised project agree. */
  lemma CacheKeySeparates(a: Selection, b: Selection)
    ensures CacheKey(a) == CacheKey(b) <==>
              && a.includePrivate == b.includePrivate && a.limit == b.limit
              && NormalizeProjectKey(a.project) == NormalizeProjectKey(b.project)
  {
    hide NormalizeProjectKey, Decimal;
    AllIsNormal();
    if CacheKey(a) == CacheKey(b) {
      var pa := if a.includePrivate then "private" else "public";
      var pb := if b.includePrivate then "private" else "public";
      var na, nb := NormalizeProjectKey(a.project), NormalizeProjectKey(b.project);
      assert CacheKey(a) == pa + [':'] + (Decimal(a.limit) + [':'] + na);
      assert CacheKey(b) == pb + [':'] + (Decimal(b.limit) + [':'] + nb);
      SplitAtFirst(pa, Decimal(a.limit) + [':'] + na, pb, Decimal(b.limit) + [':'] + nb, ':');
      assert "private"[1] == 'r' && "public"[1] == 'u';
      NoColon(a.limit);
      NoColon(b.limit);
      SplitAtFirst(Decimal(a.limit), na, Decimal(b.limit), nb, ':');
      DecimalInjective(a.limit, b.limit);
    }
  }

  /** Another spelling of the all-projects selection: it has the same key, and is not "__all__" itself. */
  predicate OtherSpelling(project: string) {
    project != ALL && NormalizeProjectKey(project) == ALL
  }

  /**
   Sharing an entry does not always mean filtering alike.  The selections that share one and filter
   differently are exactly "__all__" together with any other spelling that normalises to it: only
   "__all__" itself lets every project through.
   */
  lemma SharedKeyFilters(a: Selection, b: Selection)
    ensures CacheKey(a) == CacheKey(b) && (exists p :: ProjectMatches(a.project, p) != ProjectMatches(b.project, p)) <==>
              && a.includePrivate == b.includePrivate && a.limit == b.limit
              && ((a.project == ALL && OtherSpelling(b.project)) || (b.project == ALL && OtherSpelling(a.project)))
  {
    hide NormalizeProjectKey, CacheKey;
    CacheKeySeparates(a, b);
    AllIsNormal();
    assert ProjectMatches(ALL, None);
    assert a.project != ALL ==> !ProjectMatches(a.project, None);
    assert b.project != ALL ==> !ProjectMatches(b.project, None);
    if a.project == b.project {
      assert forall p :: ProjectMatches(a.project, p) == ProjectMatches(b.project, p);
    }
  }

  /** There are such spellings: with a trailing slash or backslash, or a leading space. */
  lemma SpellingsOfAll()
    ensures OtherSpelling(ALL + ['/']) && OtherSpelling(ALL + ['\\']) && OtherSpelling([' '] + ALL)
  {
    hide NormalizeProjectKey;
    AllCharacters();
    NormalName(ALL, '/');
    NormalName(ALL, '\\');
    assert |ALL + ['/']| == |ALL + ['\\']| == |[' '] + ALL| == |ALL| + 1;
  }

  // ---------------------------------------------------------------- what each action does, field by field

  /** What is shown as the project of an item: its canonical project unless that is blank. */
  lemma ResolvedMeaning(item: FeedItem)
    ensures item.canonicalProject.Some? && (exists c | c in item.canonicalProject.value :: !IsSpace(c))
      ==> ResolvedProject(item) == item.canonicalProject
    ensures item.canonicalProject.None? || (forall c | c in item.canonicalProject.value :: IsSpace(c))
      ==> ResolvedProject(item) == item.project
  {
    if item.canonicalProject.Some? { TrimIsBlank(item.canonicalProject.value); }
  }

  /** The key of a project: slashes for backslashes, without white space around it and slashes behind it. */
  lemma NormalFormMeaning(value: string) returns (before: string, rest: string, after: string)
    ensures value == before + rest + after && Blank(before) && Blank(after)
    ensures rest != "" ==> !IsSpace(rest[0]) && !IsSpace(rest[|rest| - 1])
    ensures var r := NormalizeProjectKey(value);
      && |r| <= |rest| && (r != "" ==> r[|r| - 1] != '/')
      && (forall i | 0 <= i < |r| :: r[i] == if rest[i] == '\\' then '/' else rest[i])
      && (forall i | |r| <= i < |rest| :: rest[i] == '/' || rest[i] == '\\')
  {
    hide Trim, IsSpace, ReplaceAll, StripTrailing;
    rest := Trim(value);
    before, after := TrimParts(value);
    var replaced := ReplaceAll(rest, '\\', '/');
    assert forall i | |NormalizeProjectKey(value)| <= i < |rest| :: replaced[i] == '/';
  }

  ghost predicate PathAncestor(p: string, q: string) {
    exists rest :: q == p + "/" + rest
  }

  lemma StartsWithSlash(p: string, q: string)
    ensures StartsWith(q, p + "/") <==> PathAncestor(p, q)
  {
    if StartsWith(q, p + "/") {
      assert q == p + "/" + q[|p| + 1..];
    }
  }

  lemma EmptyKey()
    ensures NormalizeProjectKey("") == ""
  {
  }

  /** A selection shows a project if their keys are equal or one is an ancestor directory of the other. */
  lemma ProjectMatchesMeaning(selected: string, project: string)
    ensures ProjectMatches("__all__", Some(project)) && ProjectMatches("__all__", None)
    ensures selected != "__all__" ==> !ProjectMatches(selected, None)
    ensures var s, p := NormalizeProjectKey(selected), NormalizeProjectKey(project);
      selected != "__all__" ==>
        (ProjectMatches(selected, Some(project)) <==>
           s != "" && p != "" && (s == p || PathAncestor(s, p) || PathAncestor(p, s)))
  {
    hide NormalizeProjectKey, PathAncestor, StartsWith;
    var s, p := NormalizeProjectKey(selected), NormalizeProjectKey(project);
    StartsWithSlash(s, p);
    StartsWithSlash(p, s);
    if project == "" { EmptyKey(); }
  }

  lemma FilterStep(xs: seq<FeedItem>, project: string)
    ensures Filter(xs, project) == if xs == [] then [] else Filter([xs[0]], project) + Filter(xs[1..], project)
  {
    hide ProjectMatches, ResolvedProject;
    if xs != [] { assert Filter([xs[0]][1..], project) == []; }
  }

  /** A seed is the all-projects list without the items of projects that do not match, in its order. */
  lemma {:induction false} FilterAdds(xs: seq<FeedItem>, ys: seq<FeedItem>, project: string)
    ensures Filter(xs + ys, project) == Filter(xs, project) + Filter(ys, project)
  {
    hide ProjectMatches, ResolvedProject, Filter;
    FilterStep(xs, project);
    FilterStep(xs + ys, project);
    if xs == [] {
      assert xs + ys == ys;
    } else {
      FilterAdds(xs[1..], ys, project);
      assert (xs + ys)[1..] == xs[1..] + ys;
    }
  }

  lemma FilterOne(x: FeedItem, project: string)
    ensures Filter([x], project) == if ProjectMatches(project, ResolvedProject(x)) then [x] else []
  {
    assert Filter([x][1..], project) == [];
  }

  lemma ControllerFacts(actions: seq<Action>)
    ensures var w := Run(actions);
      && (w.controller.Some? ==>
            && w.enabled && w.controller.value == |w.requests| - 1
            && var r := w.requests[w.controller.value];
               r.pending && !r.aborted && r.sel == w.sel && (w.loading <==> !r.background))
      && (w.controller.None? ==> !w.loading)
      && (forall k | 0 <= k < |w.requests| && w.requests[k].pending && !w.requests[k].aborted :: w.controller == Some(k))
  {
    hide Lists, Provenance, Run;
    RunInv(actions);
  }

  /**
   Load-more, in every reachable state: with a further page to ask for and no request under way it issues
   one request, for the current cursor and selection, and raises `loading`; otherwise it does nothing.
   */
  lemma LoadMoreAsks(actions: seq<Action>)
    ensures var w, v := Run(actions), Run(actions + [LoadMore]);
      if w.refs.hasMore && w.refs.cursor.Some? && w.refs.cursor.value != "" && w.controller.None?
      then v == w.(requests := w.requests + [Request(w.sel, w.refs.cursor, true, false, false, true)],
                   controller := Some(|w.requests|), loading := true, error := "")
      else v == w
  {
    hide Run;
    RunSnoc(actions, LoadMore);
  }

  /** A response to the request under way: its page replaces the list, or continues it if it was asked for as more. */
  lemma PageArrives(actions: seq<Action>, items: seq<FeedItem>, next: Option<string>)
    requires Run(actions).controller.Some?
    ensures var w := Run(actions);
      var k := w.controller.value;
      var v := Run(actions + [Settle(k, Page(items, next))]);
      && k < |w.requests|
      && var r := w.requests[k];
      && v.h.story.pages == (if r.append then w.h.story.pages else []) + [Fetched(k, r.cursor, next, items)]
      && v.h.story.lives == (if r.append then w.h.story.lives else [])
      && v.refs.items == Normalize((if r.append then w.refs.items else []) + items)
      && v.refs.cursor == next && v.refs.hasMore == (next.Some? && next.value != "")
      && v == w.(refs := v.refs, cache := w.cache[CacheKey(w.sel) := v.refs], initialized := true, h := v.h,
                 controller := None, loading := false, requests := w.requests[k := r.(pending := false)])
  {
    hide Run, Normalize, CacheKey;
    ControllerFacts(actions);
    RunSnoc(actions, Settle(Run(actions).controller.value, Page(items, next)));
  }

  /** What can be read on screen is not changed by a page that comes in as more. */
  lemma ShownTextStays(actions: seq<Action>, items: seq<FeedItem>, next: Option<string>, k: nat, f: nat)
    requires var w := Run(actions); w.controller.Some? && w.requests != [] && w.requests[|w.requests| - 1].append
    requires f < 11 && k < |Run(actions).refs.items| && Shows(TextFields(Run(actions).refs.items[k])[f])
    ensures var w := Run(actions);
      var shown, v := w.refs.items[k], Run(actions + [Settle(w.controller.value, Page(items, next))]);
      && k < |v.refs.items| && v.refs.items[k].id == shown.id
      && TextFields(v.refs.items[k])[f] == TextFields(shown)[f]
  {
    hide Run, Normalize, TextFields, Shows, CacheKey, Requests, Provenance, WellFormed;
    ControllerFacts(actions);
    RunInv(actions);
    var w := Run(actions);
    ToldWellFormed(w.refs, w.h.story);
    PageArrives(actions, items, next);
    ShownTextSurvives(w.refs.items, items, k, f);
  }

  /** A failure of the request under way leaves the list, the cursor and the cache alone, so it can be asked for again. */
  lemma FailureArrives(actions: seq<Action>, message: string)
    requires Run(actions).controller.Some?
    ensures var w := Run(actions);
      var k := w.controller.value;
      && k < |w.requests|
      && Run(actions + [Settle(k, Failed(message))])
         == w.(error := message, initialized := true, controller := None, loading := false,
               requests := w.requests[k := w.requests[k].(pending := false)])
  {
    hide Run;
    ControllerFacts(actions);
    RunSnoc(actions, Settle(Run(actions).controller.value, Failed(message)));
  }

  /** Progress: load-more and the response to its request put the next page behind the pages shown so far. */
  lemma LoadMoreProgresses(actions: seq<Action>, items: seq<FeedItem>, next: Option<string>)
    requires var w := Run(actions);
      w.refs.hasMore && w.refs.cursor.Some? && w.refs.cursor.value != "" && w.controller.None?
    ensures var w := Run(actions);
      var k := |w.requests|;
      var v := Run(actions + [LoadMore] + [Settle(k, Page(items, next))]);
      && v.h.story.pages == w.h.story.pages + [Fetched(k, w.refs.cursor, next, items)]
      && v.refs.items == Normalize(w.refs.items + items)
      && v.refs.cursor == next && v.controller == None && !v.loading
  {
    hide Run, Normalize;
    LoadMoreAsks(actions);
    PageArrives(actions + [LoadMore], items, next);
  }

  /** The list of an all-projects entry that a selection without an entry of its own starts from. */
  ghost function SeedFor(cache: map<string, Entry>, sel: Selection): seq<FeedItem> {
    var key := CacheKey(Selection("__all__", sel.includePrivate, sel.limit));
    if sel.project != "__all__" && key in cache then Filter(cache[key].items, sel.project) else []
  }

  lemma FirstRequest(w: World, background: bool)
    ensures var rs := Abort(w.requests, w.controller);
      FetchPage(w, None, false, background)
      == w.(requests := rs + [Request(w.sel, None, false, background, false, true)], controller := Some(|rs|),
            loading := w.loading || !background, error := "")
  {
  }

  lemma EffectAsks(w: World)
    requires w.enabled && w.controller.None?
    ensures var key, seed := CacheKey(w.sel), SeedFor(w.cache, w.sel);
      var ready := key in w.cache || seed != [];
      var v := Effect(w);
      && v == w.(requests := w.requests + [Request(w.sel, None, false, ready, false, true)],
                 controller := Some(|w.requests|), loading := !ready, error := "", initialized := ready,
                 refs := v.refs, h := v.h)
      && v.refs == if key in w.cache then w.cache[key] else Entry(seed, None, !ready)
  {
    hide CacheKey, Effect, FetchPage, Filter;
    var seed := SeedFor(w.cache, w.sel);
    assert AllProjects(w.sel) == Selection("__all__", w.sel.includePrivate, w.sel.limit);
    assert SeedItems(w.cache, w.sel) == seed;
    if CacheKey(w.sel) in w.cache {
      EffectCached(w);
      FirstRequest(Show(w, w.cache[CacheKey(w.sel)], StoryOf(w.h, CacheKey(w.sel))), true);
    } else if seed != [] {
      EffectSeeded(w);
      FirstRequest(ShowSeed(w, seed), true);
    } else {
      EffectFresh(w);
      FirstRequest(ShowNothing(w), false);
    }
  }

  lemma ReadiedIs(actions: seq<Action>, enabled: bool, sel: Selection)
    ensures var w := Run(actions);
      var v := Readied(w, enabled, sel);
      && v == w.(enabled := enabled, sel := sel, controller := None, requests := v.requests)
      && |v.requests| == |w.requests|
      && (forall k | 0 <= k < |w.requests| ::
            v.requests[k] == w.requests[k].(aborted := w.requests[k].aborted || w.controller == Some(k)))
      && (forall k | 0 <= k < |w.requests| && v.requests[k].pending :: v.requests[k].aborted)
  {
    hide Run;
    ControllerFacts(actions);
  }

  /**
   Every enabled render, mount, switch or refresh aborts the request under way, shows the cached list of its
   selection, or else the seed, or else nothing, and asks once for the first page: in the background if there
   is something to show, else with `loading` up.
   */
  lemma RenderAsks(actions: seq<Action>, sel: Selection)
    ensures var w, v := Run(actions), Run(actions + [Render(true, sel)]);
      var key, seed := CacheKey(sel), SeedFor(w.cache, sel);
      var ready := key in w.cache || seed != [];
      && |v.requests| == |w.requests| + 1
      && v.requests[|w.requests|] == Request(sel, None, false, ready, false, true)
      && (forall k | 0 <= k < |w.requests| ::
            && v.requests[k] == w.requests[k].(aborted := v.requests[k].aborted)
            && (v.requests[k].aborted <==> w.requests[k].aborted || w.controller == Some(k))
            && (v.requests[k].pending ==> v.requests[k].aborted))
      && v == World(true, sel, v.refs, Some(|w.requests|), v.requests, w.cache, !ready, ready, "", v.h)
      && v.refs == if key in w.cache then w.cache[key] else Entry(seed, None, !ready)
  {
    hide Run, CacheKey, Effect, Readied, SeedFor;
    RunSnoc(actions, Render(true, sel));
    ReadiedIs(actions, true, sel);
    EffectAsks(Readied(Run(actions), true, sel));
  }

  /** A disabled render aborts the request under way and clears everything but the cache. */
  lemma RenderClears(actions: seq<Action>, sel: Selection)
    ensures var w, v := Run(actions), Run(actions + [Render(false, sel)]);
      && v == World(false, sel, Entry([], None, true), None, v.requests, w.cache, false, false, "", v.h)
      && |v.requests| == |w.requests|
      && (forall k | 0 <= k < |w.requests| ::
            && v.requests[k] == w.requests[k].(aborted := v.requests[k].aborted)
            && (v.requests[k].aborted <==> w.requests[k].aborted || w.controller == Some(k)))
  {
    hide Run, CacheKey, Effect, Readied;
    RunSnoc(actions, Render(false, sel));
    ReadiedIs(actions, false, sel);
    EffectOff(Readied(Run(actions), false, sel));
  }

  /**
   A live item is merged in at the front, on screen and in the cache, just if it has an id, belongs to the
   selected project, and is neither private nor sensitive unless those are shown.
   */
  lemma LiveArrives(actions: seq<Action>, item: FeedItem)
    ensures var w, v := Run(actions), Run(actions + [Live(item)]);
      var shows :=
        && item.id != "" && ProjectMatches(w.sel.project, ResolvedProject(item))
        && (w.sel.includePrivate || item.privacyTags.None?
            || ("private" !in item.privacyTags.value && "sensitive" !in item.privacyTags.value));
      if shows
      then && v.refs == w.refs.(items := Normalize([item] + w.refs.items))
           && v == w.(refs := v.refs, cache := w.cache[CacheKey(w.sel) := v.refs], h := v.h)
           && v.h.story == w.h.story.(lives := [item] + w.h.story.lives)
      else v == w
  {
    hide Run, Normalize, CacheKey, ProjectMatches, ResolvedProject;
    RunSnoc(actions, Live(item));
  }

  // ---------------------------------------------------------------- the hook itself

  lemma CleanupController(w: World)
    ensures Cleanup(w).controller == None
  {
  }

  lemma ControllerInRange(w: World)
    requires Inv(w)
    ensures w.controller.Some? ==> w.controller.value < |w.requests|
    ensures !w.enabled ==> w.controller == None
  {
    hide Lists, Provenance;
  }

  /** The refs, the module-level cache and the pending promises, updated in place. */
  class FeedHook {
    var enabled: bool
    var sel: Selection
    var rawItems: seq<FeedItem>
    var cursor: Option<string>
    var hasMore: bool
    var controller: Option<nat>
    var requestId: nat
    var requests: seq<Request>
    var feedCache: map<string, Entry>
    var loading: bool
    var initialized: bool
    var error: string
    ghost var h: History

    ghost function W(): World
      reads this
    {
      World(enabled, sel, Entry(rawItems, cursor, hasMore), controller, requests, feedCache, loading, initialized, error, h)
    }

    ghost predicate Valid()
      reads this
    {
      requestId == |requests| && Inv(W())
    }

    constructor ()
      ensures Valid() && W() == INIT
    {
      enabled, sel := false, Selection(ALL, false, 0);
      rawItems, cursor, hasMore := [], None, true;
      controller, requestId, requests, feedCache := None, 0, [], map[];
      loading, initialized, error := false, false, "";
      h := History([], NOTHING, map[], []);
      new;
      InitInv();
    }

    method AbortCurrent()
      requires controller.Some? ==> controller.value < |requests|
      modifies this`requests
      ensures requests == Abort(old(requests), controller) && |requests| == old(|requests|)
    {
      if controller.Some? {
        var c := controller.value;
        requests := requests[c := requests[c].(aborted := true)];
      }
    }

    method Fetch(nextCursor: Option<string>, append: bool, background: bool)
      requires requestId == |requests| && (controller.Some? ==> controller.value < |requests|)
      modifies this`requests, this`controller, this`requestId, this`loading, this`error
      ensures W() == FetchPage(old(W()), nextCursor, append, background)
      ensures requestId == |requests|
    {
      if Truthy(nextCursor) {
        if controller.Some? {
          return;
        }
      } else if controller.Some? {
        AbortCurrent();
      }
      controller := Some(requestId);
      requests := requests + [Request(sel, nextCursor, append, background, false, true)];
      requestId := requestId + 1;
      if !background {
        loading := true;
      }
      error := "";
    }

    method ApplyCacheEntry(entry: Entry, ghost story: Story)
      modifies this`rawItems, this`cursor, this`hasMore, this`error, this`loading, this`initialized, this`h
      ensures W() == Show(old(W()), entry, story)
    {
      rawItems := entry.items;
      cursor := entry.cursor;
      hasMore := entry.hasMore;
      error := "";
      loading := false;
      initialized := true;
      h := h.(story := story);
    }

    method CleanupEffect()
      requires controller.Some? ==> controller.value < |requests|
      modifies this`requests, this`controller
      ensures W() == Cleanup(old(W())) && |requests| == old(|requests|)
    {
      if controller.Some? {
        AbortCurrent();
        controller := None;
      }
    }

    method RunEffect()
      requires requestId == |requests| && (controller.Some? ==> controller.value < |requests|)
      modifies this
      ensures W() == Effect(old(W())) && requestId == |requests|
    {
      hide Effect, CacheKey, SeedItems, FetchPage, Cleanup, Show, ShowSeed, ShowNothing;
      ghost var w := W();
      if !enabled {
        EffectOff(w);
        ClearOut();
        return;
      }
      var cacheKey := CacheKey(sel);
      var seeded := SeedItems(feedCache, sel);
      if cacheKey in feedCache {
        EffectCached(w);
        ApplyCacheEntry(feedCache[cacheKey], StoryOf(h, cacheKey));
        Fetch(None, false, true);
      } else if seeded != [] {
        EffectSeeded(w);
        ApplySeed(seeded);
        Fetch(None, false, true);
      } else {
        EffectFresh(w);
        ApplyNothing();
        Fetch(None, false, false);
      }
    }

    /** The effect while disabled. */
    method ClearOut()
      requires controller.Some? ==> controller.value < |requests|
      modifies this
      ensures W() == Off(old(W())) && |requests| == old(|requests|) && requestId == old(requestId)
    {
      hide Cleanup, ShowNothing;
      CleanupEffect();
      ApplyNothing();
      loading := false;
      error := "";
    }

    method ApplySeed(seeded: seq<FeedItem>)
      modifies this`rawItems, this`cursor, this`hasMore, this`error, this`loading, this`initialized, this`h
      ensures W() == ShowSeed(old(W()), seeded)
    {
      ghost var log := h.log + [Arrival(Seed, sel, seeded)];
      ApplyCacheEntry(Entry(seeded, None, false), Story([], seeded, []));
      h := h.(log := log);
    }

    method ApplyNothing()
      modifies this`rawItems, this`cursor, this`hasMore, this`initialized, this`h
      ensures W() == ShowNothing(old(W())) && requests == old(requests)
    {
      rawItems, cursor, hasMore := [], None, true;
      initialized := false;
      h := h.(story := NOTHING);
    }

    method RenderEffect(newEnabled: bool, newSel: Selection)
      requires Valid()
      modifies this
      ensures Valid() && W() == Next(old(W()), Render(newEnabled, newSel))
    {
      hide Inv, Effect, Cleanup;
      StepKeepsInv(W(), Render(newEnabled, newSel));
      ControllerInRange(W());
      CleanupController(W());
      if enabled {
        CleanupEffect();
      }
      enabled, sel := newEnabled, newSel;
      RunEffect();
    }

    method LoadMore()
      requires Valid()
      modifies this
      ensures Valid() && W() == Next(old(W()), Action.LoadMore)
    {
      hide Inv;
      StepKeepsInv(W(), Action.LoadMore);
      ControllerInRange(W());
      if !hasMore || !Truthy(cursor) || controller.Some? {
        return;
      }
      Fetch(cursor, true, false);
    }

    method StorePage(k: nat, fetched: seq<FeedItem>, next: Option<string>)
      requires k < |requests|
      modifies this
      ensures W() == Stored(old(W()), k, fetched, next) && requestId == old(requestId)
    {
      hide CacheKey, MergedItems, Truthy;
      var r := requests[k];
      var items := MergeFeedItems(if r.append then rawItems else [], fetched, false);
      rawItems := items;
      cursor := next;
      hasMore := Truthy(next);
      initialized := true;
      feedCache := feedCache[CacheKey(r.sel) := Entry(items, next, Truthy(next))];
    }

    method CommitPage(k: nat, fetched: seq<FeedItem>, next: Option<string>)
      requires k < |requests|
      modifies this
      ensures W() == Commit(old(W()), k, fetched, next) && requestId == old(requestId) && requests == old(requests)
    {
      hide CacheKey, MergedItems, Continued, Truthy;
      var r := requests[k];
      ghost var story := Continued(if r.append then h.story else NOTHING, Fetched(k, r.cursor, next, fetched));
      StorePage(k, fetched, next);
      h := History(h.commits + [k], story, h.stories[CacheKey(r.sel) := story],
                   h.log + [Arrival(Response(k), r.sel, fetched)]);
    }

    method Finish(k: nat)
      requires requestId == |requests| && k < |requests|
      modifies this`requests, this`controller, this`loading
      ensures W() == Finally(old(W()), k) && |requests| == old(|requests|)
    {
      var r := requests[k];
      requests := requests[k := r.(pending := false)];
      if controller == Some(k) {
        controller := None;
      }
      if !r.background && k + 1 == requestId {
        loading := false;
      }
    }

    /** The continuation of `fetchPage` after its await: try, catch and finally. */
    method Settle(k: nat, outcome: Outcome)
      requires Valid() && k < |requests| && requests[k].pending
      modifies this
      ensures Valid() && W() == Next(old(W()), Action.Settle(k, outcome))
    {
      hide Inv, Commit, Finally;
      StepKeepsInv(W(), Action.Settle(k, outcome));
      var r := requests[k];
      if !r.aborted && k + 1 == requestId {
        match outcome {
          case Page(fetched, next) =>
            CommitPage(k, fetched, next);
          case Failed(message) =>
            error := message;
            initialized := true;
        }
      }
      Finish(k);
    }

    method PrependLiveItem(item: FeedItem)
      requires Valid()
      modifies this
      ensures Valid() && W() == Next(old(W()), Live(item))
    {
      hide Inv, CacheKey, MergedItems, ProjectMatches, Hidden;
      StepKeepsInv(W(), Live(item));
      if item.id == "" {
        return;
      }
      if !ProjectMatches(sel.project, ResolvedProject(item)) {
        return;
      }
      if !sel.includePrivate && Hidden(item) {
        return;
      }
      rawItems := MergeFeedItems(rawItems, [item], true);
      feedCache := feedCache[CacheKey(sel) := Entry(rawItems, cursor, hasMore)];
      ghost var story := Enlivened(h.story, item);
      h := h.(story := story, stories := h.stories[CacheKey(sel) := story], log := h.log + [Arrival(LiveItem, sel, [item])]);
    }
  }
}
