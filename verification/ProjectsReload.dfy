/**
 Single-flight reloading of the project list (harness-mem-ui/src/app/App.tsx): a load that is asked for
 while another runs is remembered, and one more load follows.  Time is a counter of the observed events.
 */
module ProjectsReload {
  // `requests` and `starts` count, `lastRequest` and `lastStart` date, and `running` counts the loads
  // awaited at once; only the theorems read them.
  datatype History = History(clock: nat, requests: nat, starts: nat, lastRequest: nat, lastStart: nat, running: nat)

  // The three refs, the loading flag of the list, and the argument of the load being awaited.
  datatype World = World(inFlight: bool, pending: bool, timer: bool, loading: bool, background: bool, h: History)

  datatype Action =
    | Schedule            // a stream event: `scheduleProjectsLoad`
    | Call(background: bool)  // `runProjectsLoad` called directly
    | TimerFires
    | LoadEnds            // the awaited load settles; `loadProjects` never throws

  function Asked(h: History): History {
    h.(clock := h.clock + 1, requests := h.requests + 1, lastRequest := h.clock + 1)
  }

  function Started(w: World, background: bool): World {
    w.(inFlight := true, pending := false, background := background,
       loading := w.loading || !background,
       h := w.h.(clock := w.h.clock + 1, starts := w.h.starts + 1, lastStart := w.h.clock + 1, running := w.h.running + 1))
  }

  function RunLoad(w: World, background: bool): World {
    if w.inFlight then w.(pending := true) else Started(w, background)
  }

  function Ended(w: World): World {
    w.(loading := w.loading && w.background, h := w.h.(running := if w.h.running > 0 then w.h.running - 1 else 0))
  }

  function Next(w: World, a: Action): World {
    match a
    case Schedule => w.(pending := true, timer := true, h := Asked(w.h))
    case Call(background) => RunLoad(w.(h := Asked(w.h)), background)
    case TimerFires => if w.timer then RunLoad(w.(timer := false), true) else w
    case LoadEnds =>
      if !w.inFlight then w
      else if w.pending then Started(Ended(w), true)
      else Ended(w).(inFlight := false)
  }

  const INIT := World(false, false, false, false, false, History(0, 0, 0, 0, 0, 0))

  function Run(actions: seq<Action>): World
    decreases |actions|
  {
    if actions == [] then INIT else Next(Run(actions[..|actions| - 1]), actions[|actions| - 1])
  }

  /** A request no load has started after. */
  predicate Unserved(w: World) {
    w.h.lastRequest > w.h.lastStart
  }

  function Due(w: World): nat {
    (if w.timer then 1 else 0) + (if w.inFlight && w.pending then 1 else 0)
  }

  ghost predicate Inv(w: World) {
    && w.h.running == (if w.inFlight then 1 else 0)
    && (Unserved(w) ==> w.timer || (w.inFlight && w.pending))
    && w.h.lastRequest <= w.h.clock && w.h.lastStart <= w.h.clock
    && (w.loading <==> w.inFlight && !w.background)
    && w.h.starts + Due(w) <= 2 * w.h.requests
  }

  lemma StepKeepsInv(w: World, a: Action)
    requires Inv(w)
    ensures Inv(Next(w, a))
  {
    match a
    case Schedule =>
    case Call(background) =>
    case TimerFires =>
    case LoadEnds =>
  }

  lemma InitInv()
    ensures Inv(INIT)
  {
  }

  lemma {:induction false} RunInv(actions: seq<Action>)
    ensures Inv(Run(actions))
    decreases |actions|
  {
    hide Inv, Next;
    if actions == [] {
      InitInv();
    } else {
      RunInv(actions[..|actions| - 1]);
      StepKeepsInv(Run(actions[..|actions| - 1]), actions[|actions| - 1]);
    }
  }

  /**
   In every run at most one load is awaited at a time, and no request is forgotten: one that no load
   started after leaves the timer set, or a running load that will be followed by another.  The loading
   flag is up exactly while a foreground load runs.
   */
  lemma NoRequestLost(actions: seq<Action>)
    ensures var w := Run(actions);
            && w.h.running <= 1
            && (Unserved(w) ==> w.timer || (w.inFlight && w.pending))
            && (!w.timer && !w.inFlight ==> !Unserved(w))
            && (w.loading <==> w.inFlight && !w.background)
  {
    hide Run;
    RunInv(actions);
  }

  /** Coalescing: however requests interleave with loads, at most two loads start per request. */
  lemma LoadsBounded(actions: seq<Action>)
    ensures Run(actions).h.starts <= 2 * Run(actions).h.requests
  {
    hide Run;
    RunInv(actions);
  }

  predicate Internal(a: Action) {
    a.TimerFires? || a.LoadEnds?
  }

  predicate Occurs(w: World, a: Action) {
    (a.TimerFires? && w.timer) || (a.LoadEnds? && w.inFlight)
  }

  function Work(w: World): nat {
    (if w.timer then 2 else 0) + (if !w.inFlight then 0 else if w.pending then 2 else 1)
  }

  ghost predicate AllOccur(actions: seq<Action>, more: seq<Action>) {
    forall i | 0 <= i < |more| :: Internal(more[i]) && Occurs(Run(actions + more[..i]), more[i])
  }

  lemma RunSnoc(actions: seq<Action>, a: Action)
    ensures Run(actions + [a]) == Next(Run(actions), a)
  {
    hide Next;
    assert (actions + [a])[..|actions|] == actions;
  }

  /**
   Once requests cease, every timer that fires and every load that ends brings rest nearer: after at most
   four such steps nothing is left, and by then the last load has started after the last request.
   */
  lemma {:induction false} Settles(actions: seq<Action>, more: seq<Action>)
    requires AllOccur(actions, more)
    ensures |more| + Work(Run(actions + more)) <= Work(Run(actions)) <= 4
    ensures Work(Run(actions + more)) == 0 ==> !Unserved(Run(actions + more)) && !Run(actions + more).loading
    ensures Work(Run(actions + more)) > 0 ==> exists a :: Internal(a) && Occurs(Run(actions + more), a)
    decreases |more|
  {
    hide Run;
    if more == [] {
      assert actions + more == actions;
    } else {
      var init, a := more[..|more| - 1], more[|more| - 1];
      assert forall i | 0 <= i < |init| :: init[..i] == more[..i] && init[i] == more[i];
      Settles(actions, init);
      assert actions + more == (actions + init) + [a];
      RunSnoc(actions + init, a);
      assert Occurs(Run(actions + init), a);
    }
    RunInv(actions + more);
    var w := Run(actions + more);
    if w.timer {
      assert Internal(TimerFires) && Occurs(w, TimerFires);
    } else if w.inFlight {
      assert Internal(LoadEnds) && Occurs(w, LoadEnds);
    }
  }

  /**
   Only a direct foreground call shows the loading state: a load that the timer starts and one that follows
   another run in the background, and neither they nor a stream event raise `loading`.
   */
  lemma OnlyCallsShowLoading(actions: seq<Action>, a: Action)
    ensures var w, v := Run(actions), Run(actions + [a]);
      && (a.TimerFires? || a.LoadEnds? || a.Schedule? ==> (v.loading ==> w.loading))
      && (a.TimerFires? && w.timer && !w.inFlight ==> v.inFlight && v.background && !v.loading)
      && (a.LoadEnds? && w.inFlight && w.pending ==> v.inFlight && v.background && !v.loading)
      && (a == Call(false) && !w.inFlight ==> v.inFlight && !v.background && v.loading)
      && (a == Call(true) && !w.inFlight ==> v.inFlight && v.background && !v.loading)
      && (a.LoadEnds? && w.inFlight && !w.pending ==> !v.inFlight && !v.loading)
  {
    hide Run;
    RunInv(actions);
    RunSnoc(actions, a);
  }

  /**
   A stream event, a call or a due timer during a load makes another start as soon as that one ends; at rest
   a call starts one at once, and a stream event sets the timer, which starts one when it fires.
   */
  lemma RequestsAreAnswered(actions: seq<Action>, a: Action)
    requires a.Schedule? || a.Call? || (a.TimerFires? && Run(actions).timer)
    ensures var w, v, u := Run(actions), Run(actions + [a]), Run(actions + [a] + [LoadEnds]);
      && (v.timer <==> a.Schedule? || (w.timer && a.Call?))
      && (w.inFlight ==> v.inFlight && v.h.starts == w.h.starts && u.inFlight && u.background && u.h.starts == w.h.starts + 1)
      && (!w.inFlight && !a.Schedule? ==> v.inFlight && v.h.starts == w.h.starts + 1)
      && (!w.inFlight && a.Schedule? ==> !v.inFlight && v.h.starts == w.h.starts)
  {
    hide Run;
    RunSnoc(actions, a);
    RunSnoc(actions + [a], LoadEnds);
  }

  // ---------------------------------------------------------------- the component

  class App {
    var projectsReloadInFlight: bool
    var projectsReloadPending: bool
    var projectsReloadTimer: bool
    var projectsLoading: bool
    var awaitedBackground: bool
    ghost var h: History

    ghost function W(): World
      reads this
    {
      World(projectsReloadInFlight, projectsReloadPending, projectsReloadTimer, projectsLoading, awaitedBackground, h)
    }

    ghost predicate Valid()
      reads this
    {
      Inv(W())
    }

    constructor ()
      ensures Valid() && W() == INIT
    {
      projectsReloadInFlight, projectsReloadPending, projectsReloadTimer := false, false, false;
      projectsLoading, awaitedBackground := false, false;
      h := History(0, 0, 0, 0, 0, 0);
    }

    /** One pass of the do-while: from clearing the pending ref to the await. */
    method StartLoad(background: bool)
      modifies this
      ensures W() == Started(old(W()), background)
    {
      projectsReloadInFlight := true;
      projectsReloadPending := false;
      awaitedBackground := background;
      if !background {
        projectsLoading := true;
      }
      h := h.(clock := h.clock + 1, starts := h.starts + 1, lastStart := h.clock + 1, running := h.running + 1);
    }

    method RunProjectsLoad(background: bool)
      modifies this
      ensures W() == RunLoad(old(W()), background)
    {
      if projectsReloadInFlight {
        projectsReloadPending := true;
        return;
      }
      StartLoad(background);
    }

    method CallRunProjectsLoad(background: bool)
      requires Valid()
      modifies this
      ensures Valid() && W() == Next(old(W()), Call(background))
    {
      h := Asked(h);
      RunProjectsLoad(background);
    }

    method ScheduleProjectsLoad()
      requires Valid()
      modifies this
      ensures Valid() && W() == Next(old(W()), Schedule)
    {
      h := Asked(h);
      projectsReloadPending := true;
      if projectsReloadTimer {
        return;
      }
      projectsReloadTimer := true;
    }

    method TimerFired()
      requires Valid() && projectsReloadTimer
      modifies this
      ensures Valid() && W() == Next(old(W()), TimerFires)
    {
      projectsReloadTimer := false;
      RunProjectsLoad(true);
    }

    /** The continuation after the await: the loop test, then another pass or the `finally`. */
    method LoadSettled()
      requires Valid() && projectsReloadInFlight
      modifies this
      ensures Valid() && W() == Next(old(W()), LoadEnds)
    {
      if !awaitedBackground {
        projectsLoading := false;
      }
      h := h.(running := h.running - 1);
      if projectsReloadPending {
        StartLoad(true);
      } else {
        projectsReloadInFlight := false;
      }
    }
  }
}
