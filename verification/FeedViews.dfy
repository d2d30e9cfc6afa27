/**
 The feed views of harness-mem-ui/src/components/FeedPanel.tsx: the two passes that collapse runs of
 cards, and the grouping by session.
 */
module FeedViews {
  import opened JsText

  // A feed item as the views read it.  `eventType`, `title`, `platform`, `projectText` and `sessionText`
  // are normalised text (trimmed, lower case; the event type falls back to the card type), `project` is
  // the canonical project, the project or "", and `createdMs` is 0 for a missing or unreadable date.
  // `envelope` tells a system envelope prompt.  `merged` is the run a summary card stands for: it is not
  // in the source, only the theorems read it.
  datatype Card = Card(id: string, sessionId: Option<string>, eventType: string, title: string, envelope: bool,
                       platform: string, project: string, projectText: string, sessionText: string,
                       createdMs: int, merged: seq<Card>)

  datatype Language = English | Japanese

  datatype Pass = ToolUse | SameCard

  const GAP_MS: int := 3 * 60 * 1000

  function Threshold(pass: Pass): nat {
    if pass.ToolUse? then 4 else 2
  }

  function Gap(a: Card, b: Card): int {
    if a.createdMs < b.createdMs then b.createdMs - a.createdMs else a.createdMs - b.createdMs
  }

  predicate IsClaudeToolUse(c: Card) {
    Includes(c.platform, "claude") && c.eventType == "tool_use"
  }

  function SessionOrEmpty(c: Card): string {
    if c.sessionId.Some? then c.sessionId.value else ""
  }

  predicate ShouldCollapse(base: Card, next: Card) {
    && base.eventType != "" && base.title != ""
    && base.createdMs > 0 && next.createdMs > 0
    && base.eventType == next.eventType && base.title == next.title && base.platform == next.platform
    && base.projectText == next.projectText && base.sessionText == next.sessionText
    && Gap(base, next) <= GAP_MS
  }

  /** Whether `next` joins the run: compared with its head, but for tool use the gap is to its last card. */
  predicate Joins(pass: Pass, run: seq<Card>, next: Card)
    requires run != []
  {
    match pass
    case ToolUse =>
      && IsClaudeToolUse(run[0]) && IsClaudeToolUse(next)
      && next.project == run[0].project && SessionOrEmpty(next) == SessionOrEmpty(run[0])
      && !(Gap(run[|run| - 1], next) > 0 && Gap(run[|run| - 1], next) > GAP_MS)
    case SameCard => ShouldCollapse(run[0], next)
  }

  /** The summary card of a run, without its display text. */
  function Summarize(pass: Pass, run: seq<Card>, language: Language): Card
    requires run != []
  {
    var n := Decimal(|run|);
    var latest := run[0];
    match pass
    case ToolUse =>
      latest.(id := (if latest.id != "" then latest.id else "claude-tool-use") + "__grouped_" + n,
              platform := if latest.platform != "" then latest.platform else "claude",
              eventType := "tool_use",
              title := if language.Japanese? then "claude code ツール実行 " + n + "件" else "claude code tool use (" + n + ")",
              merged := run)
    case SameCard =>
      latest.(id := (if latest.id != "" then latest.id else "grouped") + "__same_card_" + n,
              title := latest.title + (if language.Japanese? then " (" + n + "件)" else " (" + n + ")"),
              merged := run)
  }

  // ---------------------------------------------------------------- the greedy partition

  /** Where the run that starts at `start` and reaches `cursor` ends. */
  function RunEnd(pass: Pass, items: seq<Card>, start: nat, cursor: nat): (e: nat)
    requires start < cursor <= |items|
    ensures cursor <= e <= |items|
    decreases |items| - cursor
  {
    if cursor < |items| && Joins(pass, items[start..cursor], items[cursor])
    then RunEnd(pass, items, start, cursor + 1) else cursor
  }

  function Runs(pass: Pass, items: seq<Card>, start: nat): seq<seq<Card>>
    requires start <= |items|
    decreases |items| - start
  {
    if start == |items| then []
    else
      var e := RunEnd(pass, items, start, start + 1);
      [items[start..e]] + Runs(pass, items, e)
  }

  function Shown(pass: Pass, run: seq<Card>, language: Language): seq<Card>
    requires run != []
  {
    if |run| >= Threshold(pass) then [Summarize(pass, run, language)] else run
  }

  function Collapsed(pass: Pass, items: seq<Card>, start: nat, language: Language): seq<Card>
    requires start <= |items|
    decreases |items| - start
  {
    if start == |items| then []
    else
      var e := RunEnd(pass, items, start, start + 1);
      Shown(pass, items[start..e], language) + Collapsed(pass, items, e, language)
  }

  lemma RunEndUnfold(pass: Pass, items: seq<Card>, start: nat, cursor: nat)
    requires start < cursor <= |items|
    ensures RunEnd(pass, items, start, cursor) ==
              if cursor < |items| && Joins(pass, items[start..cursor], items[cursor])
              then RunEnd(pass, items, start, cursor + 1) else cursor
  {
  }

  // One more run has been shown.
  lemma Advance(pass: Pass, items: seq<Card>, start: nat, language: Language, done: seq<Card>)
    requires start < |items|
    ensures var e := RunEnd(pass, items, start, start + 1);
            done + Collapsed(pass, items, start, language) ==
            (done + Shown(pass, items[start..e], language)) + Collapsed(pass, items, e, language)
  {
    hide Shown, Joins;
  }

  lemma ToolUseJoins(run: seq<Card>, next: Card)
    requires run != [] && IsClaudeToolUse(run[0])
    ensures Joins(ToolUse, run, next) <==>
              && IsClaudeToolUse(next)
              && next.project == run[0].project && SessionOrEmpty(next) == SessionOrEmpty(run[0])
              && !(Gap(run[|run| - 1], next) > 0 && Gap(run[|run| - 1], next) > GAP_MS)
  {
  }

  lemma NotToolUseIsAlone(items: seq<Card>, start: nat, language: Language, done: seq<Card>)
    requires start < |items| && !IsClaudeToolUse(items[start])
    ensures done + Collapsed(ToolUse, items, start, language) ==
            (done + [items[start]]) + Collapsed(ToolUse, items, start + 1, language)
  {
    hide IsClaudeToolUse, Summarize;
    assert items[start..start + 1] == [items[start]];
    Advance(ToolUse, items, start, language, done);
  }

  lemma CollapsedEnd(pass: Pass, items: seq<Card>, language: Language)
    ensures Collapsed(pass, items, |items|, language) == []
  {
  }

  method CollapseClaudeToolUseItems(items: seq<Card>, language: Language) returns (collapsed: seq<Card>)
    ensures collapsed == Collapsed(ToolUse, items, 0, language)
  {
    hide Summarize, IsClaudeToolUse, RunEnd, Collapsed, Joins, Gap, SessionOrEmpty;
    collapsed := [];
    var index := 0;
    ghost var whole := Collapsed(ToolUse, items, 0, language);
    while index < |items|
      invariant index <= |items|
      invariant collapsed + Collapsed(ToolUse, items, index, language) == whole
    {
      var current := items[index];
      if !IsClaudeToolUse(current) {
        NotToolUseIsAlone(items, index, language, collapsed);
        collapsed := collapsed + [current];
        index := index + 1;
        continue;
      }
      var run := [current];
      var cursor := index + 1;
      while cursor < |items|
        invariant index < cursor <= |items|
        invariant run == items[index..cursor]
        invariant RunEnd(ToolUse, items, index, index + 1) == RunEnd(ToolUse, items, index, cursor)
      {
        var next := items[cursor];
        RunEndUnfold(ToolUse, items, index, cursor);
        ToolUseJoins(run, next);
        if !IsClaudeToolUse(next) {
          break;
        }
        var sameProject := next.project == current.project;
        var sameSession := SessionOrEmpty(next) == SessionOrEmpty(current);
        var gapMs := Gap(run[|run| - 1], next);
        if !sameProject || !sameSession || (gapMs > 0 && gapMs > GAP_MS) {
          break;
        }
        run := run + [next];
        cursor := cursor + 1;
      }
      RunEndUnfold(ToolUse, items, index, cursor);
      Advance(ToolUse, items, index, language, collapsed);
      if |run| >= Threshold(ToolUse) {
        collapsed := collapsed + [Summarize(ToolUse, run, language)];
      } else {
        collapsed := collapsed + run;
      }
      index := cursor;
    }
    CollapsedEnd(ToolUse, items, language);
  }

  method CollapseConsecutiveSameCards(items: seq<Card>, language: Language) returns (collapsed: seq<Card>)
    ensures collapsed == Collapsed(SameCard, items, 0, language)
  {
    hide Summarize, ShouldCollapse, RunEnd, Collapsed;
    collapsed := [];
    var index := 0;
    ghost var whole := Collapsed(SameCard, items, 0, language);
    while index < |items|
      invariant index <= |items|
      invariant collapsed + Collapsed(SameCard, items, index, language) == whole
    {
      var current := items[index];
      var run := [current];
      var cursor := index + 1;
      while cursor < |items|
        invariant index < cursor <= |items|
        invariant run == items[index..cursor]
        invariant RunEnd(SameCard, items, index, index + 1) == RunEnd(SameCard, items, index, cursor)
      {
        var next := items[cursor];
        RunEndUnfold(SameCard, items, index, cursor);
        if !ShouldCollapse(current, next) {
          break;
        }
        run := run + [next];
        cursor := cursor + 1;
      }
      RunEndUnfold(SameCard, items, index, cursor);
      Advance(SameCard, items, index, language, collapsed);
      if |run| >= Threshold(SameCard) {
        collapsed := collapsed + [Summarize(SameCard, run, language)];
      } else {
        collapsed := collapsed + run;
      }
      index := cursor;
    }
    CollapsedEnd(SameCard, items, language);
  }

  // ---------------------------------------------------------------- what the partition is

  function Concat(runs: seq<seq<Card>>): seq<Card> {
    if runs == [] then [] else runs[0] + Concat(runs[1..])
  }

  ghost predicate Linked(pass: Pass, run: seq<Card>) {
    run != [] && forall k | 0 < k < |run| :: Joins(pass, run[..k], run[k])
  }

  /** Every run satisfies its pairing rule, and none can be extended by the first card of the next. */
  ghost predicate Greedy(pass: Pass, runs: seq<seq<Card>>) {
    && (forall j | 0 <= j < |runs| :: Linked(pass, runs[j]))
    && (forall j | 0 <= j < |runs| - 1 :: !Joins(pass, runs[j], runs[j + 1][0]))
  }

  lemma {:induction false} RunEndLinked(pass: Pass, items: seq<Card>, start: nat, cursor: nat)
    requires start < cursor <= |items| && Linked(pass, items[start..cursor])
    ensures var e := RunEnd(pass, items, start, cursor);
            && Linked(pass, items[start..e])
            && (e < |items| ==> !Joins(pass, items[start..e], items[e]))
    decreases |items| - cursor
  {
    hide Joins;
    if cursor < |items| && Joins(pass, items[start..cursor], items[cursor]) {
      var longer := items[start..cursor + 1];
      forall k | 0 < k < |longer| ensures Joins(pass, longer[..k], longer[k]) {
        assert longer[..k] == items[start..cursor][..k];
        if k == cursor - start {
          assert longer[..k] == items[start..cursor];
        }
      }
      RunEndLinked(pass, items, start, cursor + 1);
    }
  }

  lemma GreedyCons(pass: Pass, run: seq<Card>, rest: seq<seq<Card>>)
    requires Linked(pass, run) && Greedy(pass, rest)
    requires rest != [] ==> !Joins(pass, run, rest[0][0])
    ensures Greedy(pass, [run] + rest)
  {
    hide Joins;
    var runs := [run] + rest;
    forall j | 0 <= j < |runs| ensures Linked(pass, runs[j]) {
      assert runs[j] == if j == 0 then run else rest[j - 1];
    }
    forall j | 0 <= j < |runs| - 1 ensures !Joins(pass, runs[j], runs[j + 1][0]) {
      assert runs[j + 1] == rest[j] && (j > 0 ==> runs[j] == rest[j - 1]);
    }
  }

  /** The first card of a partition. */
  lemma FirstCard(pass: Pass, runs: seq<seq<Card>>)
    requires Greedy(pass, runs) && runs != []
    ensures runs[0] != [] && Concat(runs) != [] && Concat(runs)[0] == runs[0][0]
  {
    hide Joins;
    assert Concat(runs) == runs[0] + Concat(runs[1..]);
  }

  lemma OneCardLinked(pass: Pass, run: seq<Card>)
    requires |run| == 1
    ensures Linked(pass, run)
  {
  }

  lemma NoRunsGreedy(pass: Pass)
    ensures Greedy(pass, [])
  {
  }

  lemma {:induction false} RunsGreedy(pass: Pass, items: seq<Card>, start: nat)
    requires start <= |items|
    ensures Concat(Runs(pass, items, start)) == items[start..] && Greedy(pass, Runs(pass, items, start))
    decreases |items| - start
  {
    hide Joins, Linked, Greedy;
    if start == |items| {
      NoRunsGreedy(pass);
    } else {
      OneCardLinked(pass, items[start..start + 1]);
      RunEndLinked(pass, items, start, start + 1);
      var e := RunEnd(pass, items, start, start + 1);
      RunsGreedy(pass, items, e);
      var run, rest := items[start..e], Runs(pass, items, e);
      assert ([run] + rest)[1..] == rest;
      assert items[start..] == run + items[e..];
      if rest != [] {
        FirstCard(pass, rest);
        assert items[e..][0] == items[e];
      }
      GreedyCons(pass, run, rest);
    }
  }

  // The scan of the source stops exactly where the first run of any greedy partition does.
  lemma {:induction false} ScanFindsRun(pass: Pass, items: seq<Card>, start: nat, runs: seq<seq<Card>>, cursor: nat)
    requires start <= |items| && runs != [] && Concat(runs) == items[start..] && Greedy(pass, runs)
    requires start < cursor <= start + |runs[0]| <= |items|
    ensures RunEnd(pass, items, start, cursor) == start + |runs[0]|
    decreases |items| - cursor
  {
    hide Joins;
    var run := runs[0];
    assert items[start..] == run + Concat(runs[1..]);
    assert run == items[start..][..|run|] == items[start..start + |run|];
    if cursor < start + |run| {
      assert items[start..cursor] == run[..cursor - start] && items[cursor] == run[cursor - start];
      ScanFindsRun(pass, items, start, runs, cursor + 1);
    } else if |runs| > 1 {
      assert items[cursor] == Concat(runs[1..])[0] == runs[1][0];
      assert items[start..cursor] == run;
    } else {
      assert Concat(runs[1..]) == [];
    }
  }

  lemma GreedyTail(pass: Pass, a: seq<seq<Card>>)
    requires Greedy(pass, a) && a != []
    ensures Greedy(pass, a[1..])
  {
    hide Joins;
    var t := a[1..];
    forall j | 0 <= j < |t| - 1 ensures !Joins(pass, t[j], t[j + 1][0]) {
      assert t[j] == a[j + 1] && t[j + 1] == a[j + 2];
    }
  }

  /** The first run of a partition is the run that the scan finds. */
  lemma FirstRun(pass: Pass, items: seq<Card>, start: nat, runs: seq<seq<Card>>)
    requires start <= |items| && Concat(runs) == items[start..] && Greedy(pass, runs) && runs != []
    ensures var e := start + |runs[0]|;
      && start < e <= |items| && runs[0] == items[start..e] && Concat(runs[1..]) == items[e..]
      && RunEnd(pass, items, start, start + 1) == e
  {
    hide Joins, RunEnd;
    var run := runs[0];
    assert items[start..] == run + Concat(runs[1..]);
    assert run == items[start..][..|run|];
    assert Concat(runs[1..]) == items[start..][|run|..];
    ScanFindsRun(pass, items, start, runs, start + 1);
  }

  /** There is only one such partition: any contiguous one that obeys the rules is the one computed. */
  lemma {:induction false} GreedyUnique(pass: Pass, items: seq<Card>, start: nat, runs: seq<seq<Card>>)
    requires start <= |items| && Concat(runs) == items[start..] && Greedy(pass, runs)
    ensures runs == Runs(pass, items, start)
    decreases |runs|
  {
    hide Joins, Linked, Greedy, RunEnd;
    if runs == [] {
    } else {
      FirstRun(pass, items, start, runs);
      GreedyTail(pass, runs);
      GreedyUnique(pass, items, start + |runs[0]|, runs[1..]);
      assert runs == [runs[0]] + runs[1..];
    }
  }

  function ShowAll(pass: Pass, runs: seq<seq<Card>>, language: Language): seq<Card> {
    if runs == [] then []
    else (if runs[0] == [] then [] else Shown(pass, runs[0], language)) + ShowAll(pass, runs[1..], language)
  }

  lemma {:induction false} CollapsedShowsRuns(pass: Pass, items: seq<Card>, start: nat, language: Language)
    requires start <= |items|
    ensures Collapsed(pass, items, start, language) == ShowAll(pass, Runs(pass, items, start), language)
    decreases |items| - start
  {
    hide Joins, Shown;
    if start < |items| {
      var e := RunEnd(pass, items, start, start + 1);
      CollapsedShowsRuns(pass, items, e, language);
      assert Runs(pass, items, start)[1..] == Runs(pass, items, e);
    }
  }

  // ---------------------------------------------------------------- nothing is lost

  function PlainAll(cards: seq<Card>): seq<Card>
    decreases cards
  {
    if cards == [] then [] else Plain(cards[0]) + PlainAll(cards[1..])
  }

  /** The plain cards a card stands for. */
  function Plain(c: Card): seq<Card>
    decreases c, 0
  {
    if c.merged == [] then [c] else PlainAll(c.merged)
  }

  lemma {:induction false} PlainConcat(xs: seq<Card>, ys: seq<Card>)
    ensures PlainAll(xs + ys) == PlainAll(xs) + PlainAll(ys)
    decreases |xs|
  {
    hide Plain;
    if xs == [] {
      assert xs + ys == ys;
    } else {
      assert (xs + ys)[1..] == xs[1..] + ys;
      PlainConcat(xs[1..], ys);
    }
  }

  lemma ShownPlain(pass: Pass, run: seq<Card>, language: Language)
    requires run != []
    ensures PlainAll(Shown(pass, run, language)) == PlainAll(run)
  {
    if |run| >= Threshold(pass) {
      var s := Summarize(pass, run, language);
      assert s.merged == run;
      assert PlainAll([s]) == Plain(s) + PlainAll([s][1..]);
      assert PlainAll([s][1..]) == [];
    }
  }

  lemma {:induction false} CollapsedPlain(pass: Pass, items: seq<Card>, start: nat, language: Language)
    requires start <= |items|
    ensures PlainAll(Collapsed(pass, items, start, language)) == PlainAll(items[start..])
    decreases |items| - start
  {
    hide Joins, Shown, PlainAll;
    if start < |items| {
      var e := RunEnd(pass, items, start, start + 1);
      ShownPlain(pass, items[start..e], language);
      CollapsedPlain(pass, items, e, language);
      PlainConcat(Shown(pass, items[start..e], language), Collapsed(pass, items, e, language));
      PlainConcat(items[start..e], items[e..]);
      assert items[start..] == items[start..e] + items[e..];
    } else {
      assert items[start..] == [];
    }
  }

  /** Both passes in a row, as the panel runs them, keep every card, in order and once. */
  lemma CollapseLossless(items: seq<Card>, language: Language)
    ensures PlainAll(Collapsed(SameCard, Collapsed(ToolUse, items, 0, language), 0, language)) == PlainAll(items)
  {
    hide Joins, Collapsed, PlainAll;
    var tools := Collapsed(ToolUse, items, 0, language);
    CollapsedPlain(ToolUse, items, 0, language);
    CollapsedPlain(SameCard, tools, 0, language);
    assert items[0..] == items && tools[0..] == tools;
  }

  /** The output of a pass is its unique greedy partition, long runs summarised and short ones verbatim. */
  lemma CollapseMeaning(pass: Pass, items: seq<Card>, runs: seq<seq<Card>>, language: Language)
    requires Concat(runs) == items && Greedy(pass, runs)
    ensures Collapsed(pass, items, 0, language) == ShowAll(pass, runs, language)
  {
    hide Joins, Shown;
    assert items[0..] == items;
    GreedyUnique(pass, items, 0, runs);
    CollapsedShowsRuns(pass, items, 0, language);
  }

  // ---------------------------------------------------------------- what is collapsed, field by field

  /** Two Claude tool-use cards of one project and session, at most three minutes apart. */
  ghost predicate ToolUseLink(a: Card, b: Card) {
    && Includes(a.platform, "claude") && a.eventType == "tool_use"
    && Includes(b.platform, "claude") && b.eventType == "tool_use"
    && a.project == b.project
    && (a.sessionId == b.sessionId || (a.sessionId in {None, Some("")} && b.sessionId in {None, Some("")}))
    && -180000 <= a.createdMs - b.createdMs <= 180000
  }

  /** Two dated cards that say the same, at most three minutes apart. */
  ghost predicate SameCardLink(a: Card, b: Card) {
    && a.eventType == b.eventType != "" && a.title == b.title != "" && a.platform == b.platform
    && a.projectText == b.projectText && a.sessionText == b.sessionText
    && a.createdMs > 0 && b.createdMs > 0
    && -180000 <= a.createdMs - b.createdMs <= 180000
  }

  /** A run of tool use links each card to the one before it, a run of the same card links each to its head. */
  ghost predicate LinkedCards(pass: Pass, run: seq<Card>) {
    match pass
    case ToolUse => forall k | 0 < k < |run| :: ToolUseLink(run[k - 1], run[k])
    case SameCard => forall k | 0 < k < |run| :: SameCardLink(run[0], run[k])
  }

  /** The next card cannot be linked to the run. */
  ghost predicate EndsAt(pass: Pass, run: seq<Card>, next: Card)
    requires run != []
  {
    match pass
    case ToolUse => !ToolUseLink(run[|run| - 1], next)
    case SameCard => !SameCardLink(run[0], next)
  }

  /** In a run of tool use all cards are like its head. */
  lemma LikeTheHead(run: seq<Card>, k: nat)
    requires Linked(ToolUse, run) && k < |run|
    requires |run| > 1
    ensures IsClaudeToolUse(run[k]) && run[k].project == run[0].project && SessionOrEmpty(run[k]) == SessionOrEmpty(run[0])
  {
    hide IsClaudeToolUse;
    assert Joins(ToolUse, run[..1], run[1]);
    if k > 0 {
      assert Joins(ToolUse, run[..k], run[k]);
    }
  }

  lemma SessionOrEmptyMeaning(a: Card, b: Card)
    ensures SessionOrEmpty(a) == SessionOrEmpty(b)
       <==> a.sessionId == b.sessionId || (a.sessionId in {None, Some("")} && b.sessionId in {None, Some("")})
  {
  }

  lemma LinkedIsThere(pass: Pass, run: seq<Card>)
    requires Linked(pass, run)
    ensures run != []
  {
  }

  lemma ToolUseJoinsLast(run: seq<Card>, next: Card)
    requires Linked(ToolUse, run)
    ensures Joins(ToolUse, run, next) <==> ToolUseLink(run[|run| - 1], next)
  {
    hide SessionOrEmpty, Linked;
    LinkedIsThere(ToolUse, run);
    var last := run[|run| - 1];
    SessionOrEmptyMeaning(last, next);
    SessionOrEmptyMeaning(run[0], next);
    if |run| > 1 {
      LikeTheHead(run, 0);
      LikeTheHead(run, |run| - 1);
    }
  }

  lemma SameCardJoinsHead(run: seq<Card>, next: Card)
    requires run != []
    ensures Joins(SameCard, run, next) <==> SameCardLink(run[0], next)
  {
  }

  lemma LinkedPrefix(pass: Pass, run: seq<Card>, k: nat)
    requires Linked(pass, run) && 0 < k <= |run|
    ensures Linked(pass, run[..k])
  {
    hide Joins;
    forall j | 0 < j < k ensures Joins(pass, run[..k][..j], run[..k][j]) {
      assert run[..k][..j] == run[..j];
    }
  }

  lemma LinkedMeaning(pass: Pass, run: seq<Card>)
    requires Linked(pass, run)
    ensures LinkedCards(pass, run)
    ensures forall next :: Joins(pass, run, next) <==> !EndsAt(pass, run, next)
  {
    hide Joins, ToolUseLink, SameCardLink;
    LinkedIsThere(pass, run);
    forall k | 0 < k < |run|
      ensures pass.ToolUse? ==> ToolUseLink(run[k - 1], run[k])
      ensures pass.SameCard? ==> SameCardLink(run[0], run[k])
    {
      LinkedPrefix(pass, run, k);
      assert Joins(pass, run[..k], run[k]);
      if pass.ToolUse? { ToolUseJoinsLast(run[..k], run[k]); } else { SameCardJoinsHead(run[..k], run[k]); }
    }
    forall next ensures Joins(pass, run, next) <==> !EndsAt(pass, run, next) {
      if pass.ToolUse? { ToolUseJoinsLast(run, next); } else { SameCardJoinsHead(run, next); }
    }
  }

  /** A card that stands for a run has the session, the project and the date of its head, and is of its type. */
  ghost predicate StandsFor(x: Card, run: seq<Card>)
    requires run != []
  {
    && x.merged == run && x.sessionId == run[0].sessionId && x.project == run[0].project
    && x.createdMs == run[0].createdMs && x.eventType == run[0].eventType
  }

  /** Runs of at least `least` cards are each shown as one card that stands for them, the others card by card. */
  ghost predicate Displays(shown: seq<Card>, runs: seq<seq<Card>>, least: nat)
    decreases |runs|
  {
    if runs == [] then shown == []
    else if runs[0] != [] && |runs[0]| >= least then
      shown != [] && StandsFor(shown[0], runs[0]) && Displays(shown[1..], runs[1..], least)
    else
      runs[0] <= shown && Displays(shown[|runs[0]|..], runs[1..], least)
  }

  lemma HeadIsToolUse(run: seq<Card>)
    requires Linked(ToolUse, run) && |run| > 1
    ensures run[0].eventType == "tool_use"
  {
    LikeTheHead(run, 0);
  }

  lemma SummaryStandsFor(pass: Pass, run: seq<Card>, language: Language)
    requires Linked(pass, run) && |run| > 1
    ensures StandsFor(Summarize(pass, run, language), run)
  {
    hide IsClaudeToolUse;
    if pass.ToolUse? { HeadIsToolUse(run); }
  }

  /** The names of a summary card tell which card it replaces and how many. */
  lemma SummaryNames(run: seq<Card>)
    requires run != [] && run[0].id != "" && run[0].platform != ""
    ensures var n := Decimal(|run|);
      && (forall language :: Summarize(SameCard, run, language).id == run[0].id + "__same_card_" + n)
      && (forall language :: Summarize(ToolUse, run, language).id == run[0].id + "__grouped_" + n)
      && Summarize(SameCard, run, English).title == run[0].title + " (" + n + ")"
      && Summarize(SameCard, run, Japanese).title == run[0].title + " (" + n + "件)"
      && Summarize(ToolUse, run, English).title == "claude code tool use (" + n + ")"
      && Summarize(ToolUse, run, Japanese).title == "claude code ツール実行 " + n + "件"
      && (forall pass, language :: Summarize(pass, run, language).platform == run[0].platform)
  {
    hide Decimal;
  }

  lemma ShownDisplays(pass: Pass, run: seq<Card>, language: Language, rest: seq<Card>, runs: seq<seq<Card>>)
    requires Linked(pass, run) && Displays(rest, runs, if pass.ToolUse? then 4 else 2)
    ensures Displays(Shown(pass, run, language) + rest, [run] + runs, if pass.ToolUse? then 4 else 2)
  {
    hide Linked, Summarize, StandsFor;
    LinkedIsThere(pass, run);
    var shown := Shown(pass, run, language) + rest;
    assert ([run] + runs)[1..] == runs;
    if |run| >= Threshold(pass) {
      SummaryStandsFor(pass, run, language);
      assert shown[1..] == rest;
    } else {
      assert shown[|run|..] == rest;
    }
  }

  lemma NothingDisplayed(least: nat)
    ensures Displays([], [], least)
  {
  }

  lemma {:induction false} ShowAllDisplays(pass: Pass, runs: seq<seq<Card>>, language: Language)
    requires forall j | 0 <= j < |runs| :: Linked(pass, runs[j])
    ensures Displays(ShowAll(pass, runs, language), runs, if pass.ToolUse? then 4 else 2)
  {
    hide Linked, Shown, Displays;
    if runs == [] {
      assert Displays([], [], if pass.ToolUse? then 4 else 2) by { NothingDisplayed(if pass.ToolUse? then 4 else 2); }
    } else {
      LinkedIsThere(pass, runs[0]);
      ShowAllDisplays(pass, runs[1..], language);
      ShownDisplays(pass, runs[0], language, ShowAll(pass, runs[1..], language), runs[1..]);
      assert [runs[0]] + runs[1..] == runs;
    }
  }

  /**
   What a pass shows.  The list falls into runs that are linked and cannot be extended; a run of four tool-use
   cards or two same cards, or more, becomes one card that stands for it, and shorter runs stay as they are.
   */
  lemma CollapseInFields(pass: Pass, items: seq<Card>, language: Language) returns (runs: seq<seq<Card>>)
    ensures Concat(runs) == items
    ensures forall j | 0 <= j < |runs| :: runs[j] != [] && LinkedCards(pass, runs[j])
    ensures forall j | 0 <= j < |runs| - 1 :: EndsAt(pass, runs[j], runs[j + 1][0])
    ensures Displays(Collapsed(pass, items, 0, language), runs, if pass.ToolUse? then 4 else 2)
  {
    hide Joins, Linked, LinkedCards, EndsAt, Displays, ShowAll, Collapsed, Runs;
    runs := Runs(pass, items, 0);
    assert items[0..] == items;
    RunsGreedy(pass, items, 0);
    CollapsedShowsRuns(pass, items, 0, language);
    forall j | 0 <= j < |runs| ensures runs[j] != [] && LinkedCards(pass, runs[j]) {
      LinkedIsThere(pass, runs[j]);
      LinkedMeaning(pass, runs[j]);
    }
    forall j | 0 <= j < |runs| - 1 ensures EndsAt(pass, runs[j], runs[j + 1][0]) {
      LinkedMeaning(pass, runs[j]);
    }
    ShowAllDisplays(pass, runs, language);
  }

  lemma {:induction false} DisplayedCard(shown: seq<Card>, runs: seq<seq<Card>>, least: nat, x: Card)
    requires Displays(shown, runs, least) && x in shown
    ensures exists j :: 0 <= j < |runs| && (x in runs[j] || (runs[j] != [] && |runs[j]| >= least && StandsFor(x, runs[j])))
    decreases |runs|
  {
    hide StandsFor;
    if runs != [] {
      var one := runs[0] != [] && |runs[0]| >= least;
      var rest := shown[if one then 1 else |runs[0]|..];
      assert shown == (if one then [shown[0]] else runs[0]) + rest;
      if x in rest {
        DisplayedCard(rest, runs[1..], least, x);
        var j :| 0 <= j < |runs[1..]| &&
          (x in runs[1..][j] || (runs[1..][j] != [] && |runs[1..][j]| >= least && StandsFor(x, runs[1..][j])));
        assert runs[j + 1] == runs[1..][j];
      } else {
        assert x in runs[0] || (one && StandsFor(x, runs[0]));
      }
    }
  }

  lemma {:induction false} ConcatMembers(runs: seq<seq<Card>>, j: nat, x: Card)
    requires j < |runs| && x in runs[j]
    ensures x in Concat(runs)
  {
    if j > 0 { ConcatMembers(runs[1..], j - 1, x); }
  }

  /**
   Every card on screen is one of the list, or stands for at least four tool-use cards of one project and
   session, each at most three minutes from the one before, or for at least two cards that say the same, each
   at most three minutes from the first.
   */
  lemma SummaryMeaning(pass: Pass, items: seq<Card>, language: Language, x: Card)
    requires x in Collapsed(pass, items, 0, language)
    ensures x in items
      || (|x.merged| >= (if pass.ToolUse? then 4 else 2) && StandsFor(x, x.merged) && LinkedCards(pass, x.merged)
          && forall c | c in x.merged :: c in items)
  {
    hide LinkedCards, EndsAt, Displays, Collapsed, Concat;
    var runs := CollapseInFields(pass, items, language);
    DisplayedCard(Collapsed(pass, items, 0, language), runs, if pass.ToolUse? then 4 else 2, x);
    forall j, c | 0 <= j < |runs| && c in runs[j] ensures c in items {
      ConcatMembers(runs, j, c);
    }
  }

  // ---------------------------------------------------------------- grouping by session

  const NO_SESSION := "__no_session__"

  function SessionKey(c: Card): string {
    if c.sessionId.Some? && c.sessionId.value != "" then c.sessionId.value else NO_SESSION
  }

  datatype Group = Group(sessionId: Option<string>, platform: string, items: seq<Card>)

  /** The key an open group is compared under: unlike `SessionKey`, it keeps an empty session id. */
  function OpenKey(g: Group): string {
    if g.sessionId.Some? then g.sessionId.value else NO_SESSION
  }

  function Push(gs: seq<Group>, c: Card): seq<Group> {
    if gs != [] && OpenKey(gs[|gs| - 1]) == SessionKey(c)
    then gs[..|gs| - 1] + [gs[|gs| - 1].(items := gs[|gs| - 1].items + [c])]
    else gs + [Group(c.sessionId, c.platform, [c])]
  }

  function Grouped(items: seq<Card>): seq<Group>
    decreases |items|
  {
    if items == [] then [] else Push(Grouped(items[..|items| - 1]), items[|items| - 1])
  }

  lemma GroupedSnoc(items: seq<Card>, c: Card)
    ensures Grouped(items + [c]) == Push(Grouped(items), c)
  {
    assert (items + [c])[..|items|] == items;
  }

  lemma NoGroups()
    ensures Grouped([]) == []
  {
  }

  method GroupBySession(items: seq<Card>) returns (groups: seq<Group>)
    ensures groups == Grouped(items)
  {
    hide Grouped, SessionKey, OpenKey;
    groups := [];
    NoGroups();
    for i := 0 to |items|
      invariant groups == Grouped(items[..i])
    {
      var c := items[i];
      GroupedSnoc(items[..i], c);
      assert items[..i + 1] == items[..i] + [c];
      var key := SessionKey(c);
      if groups != [] && OpenKey(groups[|groups| - 1]) == key {
        var g := groups[|groups| - 1];
        groups := groups[..|groups| - 1] + [g.(items := g.items + [c])];
      } else {
        groups := groups + [Group(c.sessionId, c.platform, [c])];
      }
    }
    assert items[..|items|] == items;
  }

  function FlattenGroups(gs: seq<Group>): seq<Card>
    decreases |gs|
  {
    if gs == [] then [] else FlattenGroups(gs[..|gs| - 1]) + gs[|gs| - 1].items
  }

  ghost predicate Shape(g: Group) {
    && g.items != [] && g.sessionId == g.items[0].sessionId && g.platform == g.items[0].platform
    && (forall c | c in g.items :: SessionKey(c) == SessionKey(g.items[0]))
    && (g.sessionId == Some("") ==> |g.items| == 1)
  }

  lemma OpenKeyMatches(g: Group, c: Card)
    requires Shape(g) && OpenKey(g) == SessionKey(c)
    ensures Shape(g.(items := g.items + [c])) && SessionKey(g.items[0]) == SessionKey(c)
  {
    assert SessionKey(c) != "";
  }

  lemma PushKeeps(gs: seq<Group>, c: Card)
    requires forall g | g in gs :: Shape(g)
    ensures FlattenGroups(Push(gs, c)) == FlattenGroups(gs) + [c]
    ensures forall g | g in Push(gs, c) :: Shape(g)
  {
    hide SessionKey;
    var all := Push(gs, c);
    if gs != [] && OpenKey(gs[|gs| - 1]) == SessionKey(c) {
      var last := gs[|gs| - 1];
      assert last in gs;
      OpenKeyMatches(last, c);
      assert all[..|all| - 1] == gs[..|gs| - 1];
      assert FlattenGroups(all) == FlattenGroups(gs[..|gs| - 1]) + (last.items + [c]);
    } else {
      assert all[..|all| - 1] == gs;
    }
  }

  /** Grouping loses nothing, and a group never mixes sessions. */
  lemma {:induction false} GroupsFlatten(items: seq<Card>)
    ensures FlattenGroups(Grouped(items)) == items
    ensures forall g | g in Grouped(items) :: Shape(g)
    decreases |items|
  {
    hide Push, Shape;
    if items == [] {
    } else {
      var init, c := items[..|items| - 1], items[|items| - 1];
      GroupsFlatten(init);
      PushKeeps(Grouped(init), c);
      assert items == init + [c];
    }
  }

  /** The session of a group, as its cards are keyed. */
  function HeadKey(g: Group): string {
    if g.items == [] then NO_SESSION else SessionKey(g.items[0])
  }

  ghost predicate AdjacentDiffer(gs: seq<Group>) {
    forall i | 0 < i < |gs| :: HeadKey(gs[i - 1]) != HeadKey(gs[i])
  }

  predicate OpensEmpty(items: seq<Card>, i: nat)
    requires i < |items|
  {
    items[i].sessionId == Some("") && (i == 0 || SessionKey(items[i - 1]) != NO_SESSION)
  }

  /** A card with an empty session id opens a run of at least two cards without a session. */
  predicate EmptyIdOpensRun(items: seq<Card>, i: nat)
    requires i < |items|
  {
    i + 1 < |items| && OpensEmpty(items, i) && SessionKey(items[i + 1]) == NO_SESSION
  }

  // The last group of a prefix: its session is the last card's, and it is a lone card with an empty id
  // exactly when that card opens a stretch without a session.
  ghost predicate LastGroup(items: seq<Card>, gs: seq<Group>) {
    && gs != [] && items != []
    && HeadKey(gs[|gs| - 1]) == SessionKey(items[|items| - 1])
    && (gs[|gs| - 1].sessionId == Some("") ==> SessionKey(items[|items| - 1]) == NO_SESSION)
    && (AdjacentDiffer(gs) ==> (gs[|gs| - 1].sessionId == Some("") <==> OpensEmpty(items, |items| - 1)))
  }

  lemma FirstLastGroup(c: Card)
    ensures LastGroup([c], Push([], c))
  {
  }

  lemma KeyCases(c: Card)
    ensures SessionKey(c) != ""
    ensures c.sessionId == Some("") || c.sessionId == None ==> SessionKey(c) == NO_SESSION
    ensures c.sessionId.Some? && c.sessionId.value != "" ==> SessionKey(c) == c.sessionId.value
  {
  }

  lemma SameHeads(gs: seq<Group>, all: seq<Group>)
    requires |gs| == |all| && forall i | 0 <= i < |gs| :: HeadKey(all[i]) == HeadKey(gs[i])
    ensures AdjacentDiffer(gs) <==> AdjacentDiffer(all)
  {
    hide HeadKey;
    forall i | 0 < i < |gs| ensures (HeadKey(gs[i - 1]) != HeadKey(gs[i])) == (HeadKey(all[i - 1]) != HeadKey(all[i])) {
      assert HeadKey(all[i - 1]) == HeadKey(gs[i - 1]);
    }
  }

  lemma AdjacentSnoc(gs: seq<Group>, g: Group)
    requires gs != []
    ensures AdjacentDiffer(gs + [g]) <==> AdjacentDiffer(gs) && HeadKey(gs[|gs| - 1]) != HeadKey(g)
  {
    hide HeadKey;
    var all := gs + [g];
    assert forall i | 0 <= i < |gs| :: all[i] == gs[i];
    assert all[|gs|] == g && all[|gs| - 1] == gs[|gs| - 1];
    if AdjacentDiffer(all) {
      assert HeadKey(all[|gs| - 1]) != HeadKey(all[|gs|]);
      forall i | 0 < i < |gs| ensures HeadKey(gs[i - 1]) != HeadKey(gs[i]) {
        assert HeadKey(all[i - 1]) != HeadKey(all[i]);
      }
    }
  }

  lemma NextLastGroup(init: seq<Card>, gs: seq<Group>, c: Card)
    requires LastGroup(init, gs) && forall g | g in gs :: Shape(g)
    ensures LastGroup(init + [c], Push(gs, c))
    ensures AdjacentDiffer(Push(gs, c)) <==>
              AdjacentDiffer(gs) && !(gs[|gs| - 1].sessionId == Some("") && SessionKey(c) == NO_SESSION)
  {
    hide SessionKey;
    KeyCases(c);
    var items, all, last := init + [c], Push(gs, c), gs[|gs| - 1];
    assert last in gs;
    KeyCases(last.items[0]);
    if OpenKey(last) == SessionKey(c) {
      OpenKeyMatches(last, c);
      assert all == gs[..|gs| - 1] + [last.(items := last.items + [c])];
      assert forall i | 0 <= i < |gs| :: HeadKey(all[i]) == HeadKey(gs[i]);
      SameHeads(gs, all);
    } else {
      assert all == gs + [Group(c.sessionId, c.platform, [c])];
      assert HeadKey(all[|gs|]) == SessionKey(c);
      AdjacentSnoc(gs, all[|gs|]);
    }
  }

  lemma OpensStep(init: seq<Card>, c: Card)
    requires init != []
    ensures (forall i | 0 <= i < |init + [c]| :: !EmptyIdOpensRun(init + [c], i)) <==>
              && (forall i | 0 <= i < |init| :: !EmptyIdOpensRun(init, i))
              && !(OpensEmpty(init, |init| - 1) && SessionKey(c) == NO_SESSION)
  {
    hide SessionKey;
    var items, n := init + [c], |init|;
    assert forall i | 0 <= i < n - 1 :: EmptyIdOpensRun(items, i) == EmptyIdOpensRun(init, i);
    assert EmptyIdOpensRun(items, n - 1) <==> OpensEmpty(init, n - 1) && SessionKey(c) == NO_SESSION;
    assert !EmptyIdOpensRun(init, n - 1) && !EmptyIdOpensRun(items, n);
  }

  lemma SingleGroup(c: Card)
    ensures AdjacentDiffer(Push([], c)) && !EmptyIdOpensRun([c], 0)
  {
  }

  lemma LastGroupOpens(items: seq<Card>, gs: seq<Group>)
    requires LastGroup(items, gs)
    ensures gs != []
    ensures AdjacentDiffer(gs) ==> (gs[|gs| - 1].sessionId == Some("") <==> OpensEmpty(items, |items| - 1))
  {
  }

  /**
   Adjacent groups have different sessions exactly when no empty session id opens a run of two or more
   cards without a session: the key of a card reads "" as no session, the key of an open group does not.
   */
  lemma {:induction false} AdjacentGroupsDiffer(items: seq<Card>)
    ensures items != [] ==> LastGroup(items, Grouped(items))
    ensures AdjacentDiffer(Grouped(items)) <==> forall i | 0 <= i < |items| :: !EmptyIdOpensRun(items, i)
    decreases |items|
  {
    hide Push, SessionKey, Shape, LastGroup;
    if items == [] {
    } else {
      var init, c := items[..|items| - 1], items[|items| - 1];
      assert items == init + [c];
      if init == [] {
        FirstLastGroup(c);
        assert items == [c] && Grouped(items) == Push([], c);
        SingleGroup(c);
      } else {
        AdjacentGroupsDiffer(init);
        GroupsFlatten(init);
        NextLastGroup(init, Grouped(init), c);
        LastGroupOpens(init, Grouped(init));
        OpensStep(init, c);
      }
    }
  }
}
