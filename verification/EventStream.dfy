/**
 The event stream: the recorder's bounded buffer (memory-server/src/core/event-recorder.ts) and one
 `/v1/stream` connection polling it (memory-server/src/server.ts).  `log` is everything ever appended;
 the recorder retains the last 600 events of it, so a connection that falls further behind loses some.
 */
module EventStream {
  import opened JsText

  datatype Json = JString(text: string) | JList(items: seq<Json>) | JOther(source: string)

  type Payload = map<string, Json>

  datatype Event = Event(id: int, kind: string, data: Payload)

  // One server-sent chunk, before encoding.
  datatype Chunk = Chunk(event: string, data: Payload, id: Option<int>)

  // `members`: the expanded project selection, if any.  `canonical` stands for `getCanonicalProjectName`.
  datatype Query = Query(includePrivate: bool, members: Option<set<string>>, typeFilter: string,
                         canonical: string -> string)

  const RETENTION: nat := 600
  const BATCH: nat := 200

  // ---------------------------------------------------------------- recorder

  function Dropped(n: nat): nat {
    if n > RETENTION then n - RETENTION else 0
  }

  ghost predicate Numbered(log: seq<Event>) {
    forall i | 0 <= i < |log| :: log[i].id == i + 1
  }

  function After(events: seq<Event>, last: int): seq<Event> {
    if events == [] then [] else (if events[0].id > last then [events[0]] else []) + After(events[1..], last)
  }

  function Take(events: seq<Event>, n: nat): seq<Event> {
    if |events| <= n then events else events[..n]
  }

  /** `clampLimit(limit, 100, 1, 500)` on a finite limit. */
  function ClampLimit(limit: int): nat {
    if limit < 1 then 1 else if limit > 500 then 500 else limit
  }

  function Since(events: seq<Event>, last: int, limit: int): seq<Event> {
    Take(After(events, last), ClampLimit(limit))
  }

  class EventRecorder {
    var counter: nat
    var events: seq<Event>
    ghost var log: seq<Event>

    ghost predicate Valid()
      reads this
    {
      && counter == |log| && Numbered(log)
      && events == log[Dropped(|log|)..]
    }

    constructor ()
      ensures Valid() && log == []
    {
      counter, events, log := 0, [], [];
    }

    method Append(kind: string, data: Payload) returns (event: Event)
      requires Valid()
      modifies this
      ensures Valid() && log == old(log) + [event] && event == Event(|old(log)| + 1, kind, data)
    {
      counter := counter + 1;
      event := Event(counter, kind, data);
      events := events + [event];
      log := log + [event];
      if |events| > RETENTION {
        events := events[|events| - RETENTION..];
      }
    }

    method LatestId() returns (id: int)
      requires Valid()
      ensures id == |log|
    {
      id := if events != [] then events[|events| - 1].id else counter;
    }
  }

  // ---------------------------------------------------------------- filter

  function Text(data: Payload, key: string): string {
    if key in data && data[key].JString? then data[key].text else ""
  }

  predicate Tagged(data: Payload, tag: string) {
    "privacy_tags" in data && data["privacy_tags"].JList? && JString(tag) in data["privacy_tags"].items
  }

  predicate ShouldSkip(q: Query, e: Event) {
    || (!q.includePrivate && (Tagged(e.data, "private") || Tagged(e.data, "sensitive")))
    || (q.members.Some? && Text(e.data, "project") != "" && Text(e.data, "project") !in q.members.value)
    || (q.typeFilter != "" &&
        if e.kind == "observation.created" then Text(e.data, "event_type") != q.typeFilter
        else e.kind == "session.finalized" && q.typeFilter !in {"session_end", "session_summary", "session.finalized"})
  }

  function Render(q: Query, e: Event): Chunk {
    var data :=
      if "project" in e.data && e.data["project"].JString? && "canonical_project" !in e.data
      then e.data["canonical_project" := JString(q.canonical(e.data["project"].text))]
      else e.data;
    Chunk(e.kind, data, Some(e.id))
  }

  /** The chunks of the events the filter lets through, in order. */
  function EmitAll(q: Query, events: seq<Event>): seq<Chunk>
    decreases |events|
  {
    if events == [] then []
    else
      var e := events[|events| - 1];
      EmitAll(q, events[..|events| - 1]) + (if ShouldSkip(q, e) then [] else [Render(q, e)])
  }

  // ---------------------------------------------------------------- connection

  datatype Conn = Conn(q: Query, start: int, last: int, closed: bool, health: string, out: seq<Chunk>)

  function Emit(c: Conn, retained: seq<Event>): Conn {
    var events := Since(retained, c.last, BATCH);
    if events == [] then c
    else c.(last := events[|events| - 1].id, out := c.out + EmitAll(c.q, events))
  }

  function Health(c: Conn, signature: string, data: Payload): Conn {
    if signature == c.health then c
    else c.(health := signature, out := c.out + [Chunk("health.changed", data, None)])
  }

  function StartCursor(requested: int, replay: bool, latest: int): int {
    if !replay && requested <= 0 then latest else requested
  }

  function Beat(c: Conn, signature: string, health: Payload, ping: Payload): Conn {
    if c.closed then c
    else
      var c1 := Health(c, signature, health);
      c1.(out := c1.out + [Chunk("ping", ping, None)])
  }

  function Opened(log: seq<Event>, q: Query, requested: int, replay: bool, ready: Payload, signature: string, health: Payload): Conn {
    var start := StartCursor(requested, replay, |log|);
    var c := Conn(q, start, start, false, "", [Chunk("ready", ready, None)]);
    Emit(Health(c, signature, health), log[Dropped(|log|)..])
  }

  lemma EmitSnoc(q: Query, events: seq<Event>, e: Event)
    ensures EmitAll(q, events + [e]) == EmitAll(q, events) + (if ShouldSkip(q, e) then [] else [Render(q, e)])
    ensures EmitAll(q, []) == []
  {
    hide ShouldSkip, Render;
    assert (events + [e])[..|events|] == events;
  }

  class StreamConnection {
    const recorder: EventRecorder
    const q: Query
    var lastEventId: int
    var streamClosed: bool
    var pollTimer: bool
    var heartbeatTimer: bool
    var controllerClosed: bool
    var healthSignature: string
    var out: seq<Chunk>
    ghost const start: int

    ghost function C(): Conn
      reads this
    {
      Conn(q, start, lastEventId, streamClosed, healthSignature, out)
    }

    /** Both timers run while the stream is open and neither after; only an open stream's controller is open. */
    ghost predicate Valid()
      reads this
    {
      pollTimer == heartbeatTimer == !streamClosed && (controllerClosed ==> streamClosed)
    }

    constructor (recorder: EventRecorder, q: Query, requested: int, replay: bool, ready: Payload, signature: string, health: Payload)
      requires recorder.Valid()
      ensures this.recorder == recorder && this.q == q
      ensures Valid() && C() == Opened(recorder.log, q, requested, replay, ready, signature, health)
    {
      var latest := recorder.LatestId();
      this.recorder, this.q := recorder, q;
      lastEventId := StartCursor(requested, replay, latest);
      start := StartCursor(requested, replay, latest);
      streamClosed, healthSignature := false, "";
      pollTimer, heartbeatTimer, controllerClosed := false, false, false;
      out := [Chunk("ready", ready, None)];
      new;
      EmitHealthChange(signature, health);
      EmitEvents();
      pollTimer := true;
      heartbeatTimer := true;
    }

    method EmitHealthChange(signature: string, data: Payload)
      modifies this`healthSignature, this`out
      ensures C() == Health(old(C()), signature, data)
    {
      if signature == healthSignature {
        return;
      }
      healthSignature := signature;
      out := out + [Chunk("health.changed", data, None)];
    }

    method EmitEvents()
      requires recorder.Valid()
      modifies this`lastEventId, this`out
      ensures C() == Emit(old(C()), recorder.log[Dropped(|recorder.log|)..])
    {
      hide ShouldSkip, Render, Since;
      var events := Since(recorder.events, lastEventId, BATCH);
      ghost var before := out;
      for i := 0 to |events|
        invariant out == before + EmitAll(q, events[..i])
        invariant lastEventId == if i == 0 then old(lastEventId) else events[i - 1].id
      {
        EmitSnoc(q, events[..i], events[i]);
        assert events[..i + 1] == events[..i] + [events[i]];
        lastEventId := events[i].id;
        if ShouldSkip(q, events[i]) {
          continue;
        }
        out := out + [Render(q, events[i])];
      }
      assert events[..|events|] == events;
    }

    method PollTick()
      requires recorder.Valid()
      modifies this`lastEventId, this`out
      ensures C() == if old(C()).closed then old(C()) else Emit(old(C()), recorder.log[Dropped(|recorder.log|)..])
    {
      if streamClosed {
        return;
      }
      EmitEvents();
    }

    method HeartbeatTick(signature: string, health: Payload, ping: Payload)
      modifies this`healthSignature, this`out
      ensures C() == Beat(old(C()), signature, health, ping)
    {
      if streamClosed {
        return;
      }
      EmitHealthChange(signature, health);
      out := out + [Chunk("ping", ping, None)];
    }

    /** The client went away: the timers stop, and the controller is closed once. */
    method Close()
      requires Valid()
      modifies this`streamClosed, this`pollTimer, this`heartbeatTimer, this`controllerClosed
      ensures Valid() && C() == old(C()).(closed := true)
      ensures controllerClosed == (old(controllerClosed) || !old(streamClosed))
    {
      if streamClosed {
        return;
      }
      streamClosed := true;
      if pollTimer {
        pollTimer := false;
      }
      if heartbeatTimer {
        heartbeatTimer := false;
      }
      controllerClosed := true;
    }

    /** The reader cancelled the stream: the same, but its controller is not closed again. */
    method Cancel()
      requires Valid()
      modifies this`streamClosed, this`pollTimer, this`heartbeatTimer
      ensures Valid() && C() == old(C()).(closed := true)
    {
      streamClosed := true;
      if pollTimer {
        pollTimer := false;
      }
      if heartbeatTimer {
        heartbeatTimer := false;
      }
    }
  }

  // ---------------------------------------------------------------- runs

  datatype Action = Append(kind: string, data: Payload) | Poll | Heartbeat(signature: string, health: Payload, ping: Payload) | Close

  // A recorder log and one connection on it.
  datatype World = World(log: seq<Event>, conn: Conn)

  function Next(w: World, a: Action): World {
    match a
    case Append(kind, data) => w.(log := w.log + [Event(|w.log| + 1, kind, data)])
    case Poll => if w.conn.closed then w else w.(conn := Emit(w.conn, w.log[Dropped(|w.log|)..]))
    case Heartbeat(signature, health, ping) => w.(conn := Beat(w.conn, signature, health, ping))
    case Close => w.(conn := w.conn.(closed := true))
  }

  function Run(w: World, actions: seq<Action>): World
    decreases |actions|
  {
    if actions == [] then w else Next(Run(w, actions[..|actions| - 1]), actions[|actions| - 1])
  }

  /** The chunks that carry an id: the delivered events. */
  function Delivered(out: seq<Chunk>): seq<Chunk>
    decreases |out|
  {
    if out == [] then []
    else Delivered(out[..|out| - 1]) + (if out[|out| - 1].id.Some? then [out[|out| - 1]] else [])
  }

  function Clamp(x: int, n: nat): nat
    ensures Clamp(x, n) <= n
  {
    if x < 0 then 0 else if x > n then n else x
  }

  /** The events with `a < id <= b`. */
  function Slice(log: seq<Event>, a: int, b: int): seq<Event> {
    if Clamp(a, |log|) <= Clamp(b, |log|) then log[Clamp(a, |log|)..Clamp(b, |log|)] else []
  }

  /** The events already evicted that the cursor `c` has not passed yet. */
  function Evicted(log: seq<Event>, c: int): seq<Event> {
    Slice(log, c, Dropped(|log|))
  }

  /** A poll now would lose nothing the filter lets through. */
  predicate Covered(w: World) {
    w.conn.closed || EmitAll(w.conn.q, Evicted(w.log, w.conn.last)) == []
  }

  lemma SliceMeaning(log: seq<Event>, a: int, b: int, e: Event)
    requires Numbered(log)
    ensures e in Slice(log, a, b) <==> e in log && a < e.id <= b
  {
    var from, s := Clamp(a, |log|), Slice(log, a, b);
    if e in s {
      var k :| 0 <= k < |s| && s[k] == e;
      assert log[from + k] == e && log[from + k].id == from + k + 1;
    }
    if e in log && a < e.id <= b {
      var i :| 0 <= i < |log| && log[i] == e;
      assert log[i].id == i + 1;
      hide Numbered;
      assert s[i - from] == e;
    }
  }

  lemma SliceSplit(log: seq<Event>, a: int, b: int, c: int)
    requires a <= b <= c
    ensures Slice(log, a, c) == Slice(log, a, b) + Slice(log, b, c)
  {
  }

  lemma SliceGrows(log: seq<Event>, more: seq<Event>, a: int, b: int)
    requires b <= |log| || b <= a
    ensures Slice(log + more, a, b) == Slice(log, a, b)
  {
  }

  lemma EmitSnocEmpty(q: Query)
    ensures EmitAll(q, []) == []
  {
  }

  lemma {:induction false} EmitConcat(q: Query, xs: seq<Event>, ys: seq<Event>)
    ensures EmitAll(q, xs + ys) == EmitAll(q, xs) + EmitAll(q, ys)
    decreases |ys|
  {
    hide ShouldSkip, Render, EmitAll;
    if ys == [] {
      assert xs + ys == xs;
      EmitSnocEmpty(q);
    } else {
      var init, y := ys[..|ys| - 1], ys[|ys| - 1];
      assert xs + ys == (xs + init) + [y] && ys == init + [y];
      EmitConcat(q, xs, init);
      EmitSnoc(q, xs + init, y);
      EmitSnoc(q, init, y);
    }
  }

  // What one poll reads, in closed form.
  lemma {:induction false} AfterNumbered(log: seq<Event>, from: nat, last: int)
    requires Numbered(log) && from <= |log|
    ensures After(log[from..], last) == if last < from then log[from..] else log[Clamp(last, |log|)..]
    decreases |log| - from
  {
    if from < |log| {
      assert log[from..][1..] == log[from + 1..];
      AfterNumbered(log, from + 1, last);
    }
  }

  /** The first batch of what follows a cursor is a slice, and it ends with the event numbered by its end. */
  lemma TakeSlice(log: seq<Event>, lo: nat, hi: nat, n: nat)
    requires Numbered(log) && n > 0 && hi == if lo + n < |log| then lo + n else |log|
    ensures Take(log[Clamp(lo, |log|)..], n) == Slice(log, lo, hi)
    ensures lo >= |log| <==> Slice(log, lo, hi) == []
    ensures lo < |log| ==> Slice(log, lo, hi)[|Slice(log, lo, hi)| - 1].id == hi
  {
    if lo + n < |log| {
      assert log[Clamp(lo, |log|)..][..n] == log[lo..hi];
    }
    if lo < |log| {
      assert log[lo..hi][hi - lo - 1] == log[hi - 1];
    }
  }

  /** A read returns the oldest of the last 600 events that follow the cursor, as many as the limit, from 1 to 500, allows. */
  lemma RecorderReads(log: seq<Event>, last: int, limit: int)
    requires Numbered(log)
    ensures var d := if |log| > 600 then |log| - 600 else 0;
            var n := if limit < 1 then 1 else if limit > 500 then 500 else limit;
            var lo := if last < d then d else last;
            var hi := if lo + n < |log| then lo + n else |log|;
            d == Dropped(|log|) && Since(log[d..], last, limit) == Slice(log, lo, hi) &&
            (last >= |log| || log == [] <==> Slice(log, lo, hi) == []) &&
            (last < |log| && log != [] ==> Slice(log, lo, hi)[|Slice(log, lo, hi)| - 1].id == hi)
  {
    hide After, Slice;
    var d := Dropped(|log|);
    AfterNumbered(log, d, last);
    var n := ClampLimit(limit);
    var lo := if last < d then d else last;
    var hi := if lo + n < |log| then lo + n else |log|;
    assert After(log[d..], last) == log[Clamp(lo, |log|)..];
    TakeSlice(log, lo, hi, n);
  }

  lemma PollReads(log: seq<Event>, last: int)
    requires Numbered(log)
    ensures var d := Dropped(|log|);
            var lo := if last < d then d else last;
            var hi := if lo + 200 < |log| then lo + 200 else |log|;
            Since(log[d..], last, BATCH) == Slice(log, lo, hi) &&
            (last >= |log| || log == [] <==> Slice(log, lo, hi) == []) &&
            (last < |log| && log != [] ==> Slice(log, lo, hi)[|Slice(log, lo, hi)| - 1].id == hi)
  {
    hide Since, Slice;
    RecorderReads(log, last, BATCH);
  }

  lemma {:induction false} DeliveredConcat(xs: seq<Chunk>, ys: seq<Chunk>)
    ensures Delivered(xs + ys) == Delivered(xs) + Delivered(ys)
    decreases |ys|
  {
    if ys == [] {
      assert xs + ys == xs;
    } else {
      assert (xs + ys)[..|xs + ys| - 1] == xs + ys[..|ys| - 1];
      DeliveredConcat(xs, ys[..|ys| - 1]);
    }
  }

  lemma {:induction false} DeliveredEmit(q: Query, events: seq<Event>)
    ensures Delivered(EmitAll(q, events)) == EmitAll(q, events)
    decreases |events|
  {
    hide ShouldSkip;
    if events == [] {
    } else {
      var init, e := events[..|events| - 1], events[|events| - 1];
      DeliveredEmit(q, init);
      DeliveredConcat(EmitAll(q, init), if ShouldSkip(q, e) then [] else [Render(q, e)]);
      assert [Render(q, e)][..0] == [];
    }
  }

  // ---------------------------------------------------------------- invariant of a run

  /** Ids present, in `(lo, hi]`, strictly increasing. */
  ghost predicate Increasing(chunks: seq<Chunk>, lo: int, hi: int) {
    && (forall i | 0 <= i < |chunks| :: chunks[i].id.Some? && lo < chunks[i].id.value <= hi)
    && (forall i, j | 0 <= i < j < |chunks| :: chunks[i].id.value < chunks[j].id.value)
  }

  lemma IncreasingConcat(xs: seq<Chunk>, ys: seq<Chunk>, a: int, b: int, c: int, d: int)
    requires Increasing(xs, a, b) && Increasing(ys, c, d) && a <= b <= c <= d
    ensures Increasing(xs + ys, a, d)
  {
  }

  ghost predicate Inv(w: World, lost: seq<Chunk>) {
    var c := w.conn;
    && Numbered(w.log)
    && c.start <= c.last && (c.last <= |w.log| || c.last == c.start)
    && var due := EmitAll(c.q, Slice(w.log, c.start, c.last));
       && |due| == |Delivered(c.out)| + |lost|
       && (lost == [] ==> Delivered(c.out) == due)
       && (forall ch | ch in Delivered(c.out) :: ch in due)
       && Increasing(Delivered(c.out), c.start, c.last)
  }

  /** Every emitted chunk renders an event of the slice that the filter lets through. */
  lemma {:induction false} EmitMembers(q: Query, events: seq<Event>)
    ensures forall ch :: ch in EmitAll(q, events) <==> exists e :: e in events && !ShouldSkip(q, e) && ch == Render(q, e)
    decreases |events|
  {
    hide ShouldSkip, Render;
    if events == [] {
    } else {
      var init, y := events[..|events| - 1], events[|events| - 1];
      EmitMembers(q, init);
      assert events == init + [y];
    }
  }

  lemma {:induction false} EmitIncreasing(q: Query, log: seq<Event>, a: nat, b: nat)
    requires Numbered(log) && a <= b <= |log|
    ensures var r := EmitAll(q, log[a..b]);
            Increasing(r, a, b)
    decreases b
  {
    hide ShouldSkip;
    if a < b {
      assert log[a..b] == log[a..b - 1] + [log[b - 1]];
      EmitIncreasing(q, log, a, b - 1);
      EmitSnoc(q, log[a..b - 1], log[b - 1]);
    } else {
      assert log[a..b] == [];
    }
  }

  lemma EvictedNone(log: seq<Event>, c: int)
    requires c >= Dropped(|log|) || Dropped(|log|) == 0
    ensures Evicted(log, c) == []
  {
  }

  lemma EvictedGap(log: seq<Event>, c: int, lo: int)
    requires lo == if c < Dropped(|log|) then Dropped(|log|) else c
    ensures Evicted(log, c) == Slice(log, c, lo)
  {
  }

  lemma Bounds(q: Query, log: seq<Event>, a: int, b: int)
    requires Numbered(log) && a <= b && (b <= |log| || a == b)
    ensures var r := EmitAll(q, Slice(log, a, b));
            Increasing(r, a, b)
  {
    hide EmitAll;
    EmitSnocEmpty(q);
    if a < b && 0 <= b {
      EmitIncreasing(q, log, Clamp(a, |log|), Clamp(b, |log|));
    } else {
      assert Slice(log, a, b) == [];
    }
  }

  lemma EmitKeepsInv(w: World, lost: seq<Chunk>) returns (lost': seq<Chunk>)
    requires Inv(w, lost)
    ensures lost' == lost + EmitAll(w.conn.q, Evicted(w.log, w.conn.last))
    ensures Inv(w.(conn := Emit(w.conn, w.log[Dropped(|w.log|)..])), lost')
  {
    hide ShouldSkip, Render, Since, EmitAll, Delivered, Slice, Increasing, Evicted;
    var c, log := w.conn, w.log;
    var d := Dropped(|log|);
    var lo := if c.last < d then d else c.last;
    var hi := if lo + BATCH < |log| then lo + BATCH else |log|;
    PollReads(log, c.last);
    lost' := lost + EmitAll(c.q, Evicted(log, c.last));
    EmitSnocEmpty(c.q);
    if c.last >= |log| || log == [] {
      EvictedNone(log, c.last);
    } else {
      var gap, read := Slice(log, c.last, lo), Slice(log, lo, hi);
      var before, added := Delivered(c.out), EmitAll(c.q, read);
      EvictedGap(log, c.last, lo);
      SliceSplit(log, c.start, c.last, hi);
      SliceSplit(log, c.last, lo, hi);
      EmitConcat(c.q, Slice(log, c.start, c.last), Slice(log, c.last, hi));
      EmitConcat(c.q, gap, read);
      DeliveredConcat(c.out, added);
      DeliveredEmit(c.q, read);
      Bounds(c.q, log, c.start, c.last);
      Bounds(c.q, log, lo, hi);
      assert EmitAll(c.q, Slice(log, c.start, hi)) == EmitAll(c.q, Slice(log, c.start, c.last)) + (EmitAll(c.q, gap) + added);
      IncreasingConcat(before, added, c.start, c.last, lo, hi);
      forall ch | ch in before + added ensures ch in EmitAll(c.q, Slice(log, c.start, hi)) {
      }
    }
  }

  // ---------------------------------------------------------------- whole runs

  /** A connection before its first poll; opening it performs one. */
  function Connected(log: seq<Event>, q: Query, requested: int, replay: bool, ready: Payload, signature: string, health: Payload): World {
    var start := StartCursor(requested, replay, |log|);
    World(log, Health(Conn(q, start, start, false, "", [Chunk("ready", ready, None)]), signature, health))
  }

  lemma NoIds(ch: Chunk)
    requires ch.id == None
    ensures Delivered([ch]) == []
  {
    var s := [ch];
    assert s[..|s| - 1] == [] && Delivered([]) == [];
    assert Delivered(s) == Delivered([]) + [];
  }

  lemma HealthKeeps(c: Conn, signature: string, data: Payload)
    ensures var h := Health(c, signature, data);
            h.closed == c.closed && h.q == c.q && h.start == c.start && h.last == c.last && Delivered(h.out) == Delivered(c.out)
  {
    DeliveredConcat(c.out, [Chunk("health.changed", data, None)]);
    NoIds(Chunk("health.changed", data, None));
  }

  lemma OpeningPolls(log: seq<Event>, q: Query, requested: int, replay: bool, ready: Payload, signature: string, health: Payload)
    ensures World(log, Opened(log, q, requested, replay, ready, signature, health))
         == Run(Connected(log, q, requested, replay, ready, signature, health), [Poll])
  {
    hide Emit, Health;
    var start := StartCursor(requested, replay, |log|);
    var w := Connected(log, q, requested, replay, ready, signature, health);
    var s := [Poll];
    assert s[..|s| - 1] == [] && Run(w, []) == w;
    assert Run(w, s) == Next(w, Poll);
    HealthKeeps(Conn(q, start, start, false, "", [Chunk("ready", ready, None)]), signature, health);
  }

  /** A fresh connection: nothing delivered, cursor at its start. */
  ghost predicate Fresh(w: World) {
    Numbered(w.log) && !w.conn.closed && w.conn.last == w.conn.start && Delivered(w.conn.out) == []
  }

  lemma ConnectedFresh(log: seq<Event>, q: Query, requested: int, replay: bool, ready: Payload, signature: string, health: Payload)
    requires Numbered(log)
    ensures Fresh(Connected(log, q, requested, replay, ready, signature, health))
  {
    hide Health;
    var start := StartCursor(requested, replay, |log|);
    var w := Connected(log, q, requested, replay, ready, signature, health);
    NoIds(Chunk("ready", ready, None));
    HealthKeeps(Conn(q, start, start, false, "", [Chunk("ready", ready, None)]), signature, health);
  }

  /** What the polls of a run found evicted although the filter lets it through. */
  function Lost(w: World, actions: seq<Action>): seq<Chunk>
    decreases |actions|
  {
    if actions == [] then []
    else
      var init := actions[..|actions| - 1];
      var v := Run(w, init);
      Lost(w, init) +
      (if actions[|actions| - 1].Poll? && !v.conn.closed then EmitAll(v.conn.q, Evicted(v.log, v.conn.last)) else [])
  }

  lemma FreshInv(w: World)
    requires Fresh(w)
    ensures Inv(w, [])
  {
    hide EmitAll, Delivered;
    EmitSnocEmpty(w.conn.q);
    assert Slice(w.log, w.conn.start, w.conn.last) == [];
  }

  lemma EmitKeepsQuery(c: Conn, retained: seq<Event>)
    ensures Emit(c, retained).q == c.q && Emit(c, retained).start == c.start && Emit(c, retained).closed == c.closed
  {
    hide Since, EmitAll;
  }

  lemma BeatKeeps(c: Conn, signature: string, health: Payload, ping: Payload)
    ensures var b := Beat(c, signature, health, ping);
            b.closed == c.closed && b.q == c.q && b.start == c.start && b.last == c.last && Delivered(b.out) == Delivered(c.out)
  {
    hide Health, Delivered;
    if !c.closed {
      HealthKeeps(c, signature, health);
      DeliveredConcat(Health(c, signature, health).out, [Chunk("ping", ping, None)]);
      NoIds(Chunk("ping", ping, None));
    }
  }

  lemma {:induction false} RunInv(w: World, actions: seq<Action>)
    requires Fresh(w)
    ensures Inv(Run(w, actions), Lost(w, actions))
    ensures Run(w, actions).conn.q == w.conn.q && Run(w, actions).conn.start == w.conn.start
    ensures w.log <= Run(w, actions).log
    decreases |actions|
  {
    hide EmitAll, Delivered, Slice, Evicted, Emit, Increasing, Beat;
    if actions == [] {
      FreshInv(w);
    } else {
      var init, a := actions[..|actions| - 1], actions[|actions| - 1];
      RunInv(w, init);
      var v := Run(w, init);
      match a
      case Append(kind, data) =>
        var e := Event(|v.log| + 1, kind, data);
        SliceGrows(v.log, [e], v.conn.start, v.conn.last);
      case Poll =>
        if !v.conn.closed {
          var _ := EmitKeepsInv(v, Lost(w, init));
          EmitKeepsQuery(v.conn, v.log[Dropped(|v.log|)..]);
        }
      case Heartbeat(signature, health, ping) =>
        BeatKeeps(v.conn, signature, health, ping);
      case Close =>
    }
  }

  /** Every poll of the run was covered. */
  ghost predicate AllCovered(w: World, actions: seq<Action>) {
    forall i | 0 <= i < |actions| && actions[i].Poll? :: Covered(Run(w, actions[..i]))
  }

  lemma {:induction false} LostNothing(w: World, actions: seq<Action>)
    ensures Lost(w, actions) == [] <==> AllCovered(w, actions)
    decreases |actions|
  {
    hide EmitAll, Evicted, Run;
    if actions == [] {
    } else {
      var init := actions[..|actions| - 1];
      LostNothing(w, init);
      assert forall i | 0 <= i < |init| :: init[i] == actions[i] && init[..i] == actions[..i];
      assert init == actions[..|actions| - 1];
    }
  }

  /**
   One connection, over any run of appends, polls, heartbeats and a close: every delivered event lies in
   `(start, last]` and passes the filter, ids strictly increase, so each is delivered once.  The delivery
   is complete exactly when every poll was covered: nothing the filter lets through had been evicted
   before the cursor reached it.
   */
  lemma Delivery(w: World, actions: seq<Action>)
    requires Fresh(w)
    ensures var v := Run(w, actions);
            && Increasing(Delivered(v.conn.out), v.conn.start, v.conn.last)
            && (forall ch | ch in Delivered(v.conn.out) ::
                  exists e :: e in v.log && v.conn.start < e.id <= v.conn.last && !ShouldSkip(v.conn.q, e) && ch == Render(v.conn.q, e))
            && (Delivered(v.conn.out) == EmitAll(v.conn.q, Slice(v.log, v.conn.start, v.conn.last)) <==>
                  AllCovered(w, actions))
  {
    hide Run, EmitAll, Delivered, Slice, Increasing, ShouldSkip, Render, Covered;
    RunInv(w, actions);
    LostNothing(w, actions);
    var v := Run(w, actions);
    var range := Slice(v.log, v.conn.start, v.conn.last);
    EmitMembers(v.conn.q, range);
    forall ch | ch in Delivered(v.conn.out)
      ensures exists e :: e in v.log && v.conn.start < e.id <= v.conn.last && !ShouldSkip(v.conn.q, e) && ch == Render(v.conn.q, e)
    {
      assert ch in EmitAll(v.conn.q, range);
      var e :| e in range && !ShouldSkip(v.conn.q, e) && ch == Render(v.conn.q, e);
      SliceMeaning(v.log, v.conn.start, v.conn.last, e);
    }
  }

  // ---------------------------------------------------------------- what is delivered, field by field

  /**
   What a query lets through: tagged neither private nor sensitive unless those are asked for; of a selected
   project, if it names one; and of the type asked for, if it is an observation or the end of a session.
   */
  ghost predicate MaySee(q: Query, kind: string, data: Payload) {
    && (!q.includePrivate && "privacy_tags" in data && data["privacy_tags"].JList? ==>
          JString("private") !in data["privacy_tags"].items && JString("sensitive") !in data["privacy_tags"].items)
    && (q.members.Some? && "project" in data && data["project"].JString? && data["project"].text != "" ==>
          data["project"].text in q.members.value)
    && (q.typeFilter != "" && kind == "observation.created" ==>
          "event_type" in data && data["event_type"] == JString(q.typeFilter))
    && (q.typeFilter != "" && kind == "session.finalized" ==>
          q.typeFilter == "session_end" || q.typeFilter == "session_summary" || q.typeFilter == "session.finalized")
  }

  /** The event itself, with the canonical name of its project added where it had none. */
  ghost predicate Carries(q: Query, ch: Chunk, e: Event) {
    && ch.id == Some(e.id) && ch.event == e.kind
    && (forall key | key in e.data :: key in ch.data && ch.data[key] == e.data[key])
    && (forall key | key in ch.data :: key in e.data || key == "canonical_project")
    && ("canonical_project" !in e.data ==>
          if "project" in e.data && e.data["project"].JString?
          then "canonical_project" in ch.data && ch.data["canonical_project"] == JString(q.canonical(e.data["project"].text))
          else "canonical_project" !in ch.data)
  }

  lemma SkippedIsHidden(q: Query, e: Event)
    ensures ShouldSkip(q, e) <==> !MaySee(q, e.kind, e.data)
  {
  }

  lemma RenderCarries(q: Query, e: Event)
    ensures Carries(q, Render(q, e), e)
  {
  }

  /** Rendering adds no field that a filter looks at. */
  lemma CarriedMaySee(q: Query, ch: Chunk, e: Event)
    requires Carries(q, ch, e) && MaySee(q, e.kind, e.data)
    ensures MaySee(q, ch.event, ch.data)
  {
    var added := "canonical_project";
    assert |added| == 17 && |"privacy_tags"| == 12 && |"project"| == 7 && |"event_type"| == 10;
  }

  /** In every run, each delivered chunk is one the client may see, and carries an event of the range. */
  lemma OnlyVisibleDelivered(w: World, actions: seq<Action>, ch: Chunk)
    requires Fresh(w) && ch in Delivered(Run(w, actions).conn.out)
    ensures var v := Run(w, actions);
            && MaySee(w.conn.q, ch.event, ch.data)
            && exists e ::
              && e in v.log && w.conn.start < e.id <= v.conn.last
              && MaySee(w.conn.q, e.kind, e.data) && Carries(w.conn.q, ch, e)
  {
    hide Run, Delivered, Slice, Increasing, ShouldSkip, Render, AllCovered, MaySee, Carries;
    var v := Run(w, actions);
    RunInv(w, actions);
    Delivery(w, actions);
    var e :| e in v.log && v.conn.start < e.id <= v.conn.last && !ShouldSkip(v.conn.q, e) && ch == Render(v.conn.q, e);
    SkippedIsHidden(v.conn.q, e);
    RenderCarries(v.conn.q, e);
    CarriedMaySee(v.conn.q, ch, e);
  }

  lemma CompleteDelivery(w: World, actions: seq<Action>)
    requires Fresh(w) && AllCovered(w, actions)
    ensures var v := Run(w, actions);
            && Delivered(v.conn.out) == EmitAll(w.conn.q, Slice(v.log, w.conn.start, v.conn.last))
            && Increasing(Delivered(v.conn.out), w.conn.start, v.conn.last)
            && Numbered(v.log) && w.log <= v.log
            && w.conn.start <= v.conn.last && (v.conn.last <= |v.log| || v.conn.last == w.conn.start)
  {
    hide Run, EmitAll, Delivered, Slice, Increasing, Fresh, AllCovered;
    RunInv(w, actions);
    LostNothing(w, actions);
  }

  /** If every poll was covered, each event of the range that the client may see is delivered with all its fields. */
  lemma VisibleIsDelivered(w: World, actions: seq<Action>, e: Event)
    requires Fresh(w) && AllCovered(w, actions)
    requires var v := Run(w, actions); e in v.log && w.conn.start < e.id <= v.conn.last
    requires MaySee(w.conn.q, e.kind, e.data)
    ensures exists ch :: ch in Delivered(Run(w, actions).conn.out) && Carries(w.conn.q, ch, e)
  {
    hide Run, EmitAll, Delivered, Slice, Increasing, ShouldSkip, Render, AllCovered, Fresh, MaySee, Carries, Numbered;
    var v, q := Run(w, actions), w.conn.q;
    CompleteDelivery(w, actions);
    SliceMeaning(v.log, w.conn.start, v.conn.last, e);
    EmitMembers(q, Slice(v.log, w.conn.start, v.conn.last));
    SkippedIsHidden(q, e);
    RenderCarries(q, e);
    assert Render(q, e) in Delivered(v.conn.out);
  }

  lemma IdsArePositive(log: seq<Event>, e: Event)
    requires Numbered(log) && e in log
    ensures e.id > 0
  {
  }

  /** A poll loses nothing exactly when no event the client may see was dropped from the last 600 unread. */
  lemma CoveredMeaning(w: World)
    requires Numbered(w.log)
    ensures var gone := set e | e in w.log && w.conn.last < e.id <= |w.log| - 600;
            Covered(w) <==> w.conn.closed || forall e | e in gone :: !MaySee(w.conn.q, e.kind, e.data)
  {
    hide EmitAll, Slice, ShouldSkip, Render, MaySee, Numbered;
    var q, gone := w.conn.q, Evicted(w.log, w.conn.last);
    EmitMembers(q, gone);
    forall e ensures e in gone <==> e in w.log && w.conn.last < e.id <= |w.log| - 600 {
      SliceMeaning(w.log, w.conn.last, Dropped(|w.log|), e);
      if e in w.log { IdsArePositive(w.log, e); }
    }
    forall e ensures ShouldSkip(q, e) <==> !MaySee(q, e.kind, e.data) {
      SkippedIsHidden(q, e);
    }
    if EmitAll(q, gone) != [] {
      assert EmitAll(q, gone)[0] in EmitAll(q, gone);
    }
    if e :| e in gone && MaySee(q, e.kind, e.data) {
      assert Render(q, e) in EmitAll(q, gone);
    }
  }

  /** Where a connection starts, and what it sends before its first poll. */
  lemma ConnectedMeaning(log: seq<Event>, q: Query, requested: int, replay: bool, ready: Payload, signature: string, health: Payload)
    ensures var c := Connected(log, q, requested, replay, ready, signature, health).conn;
            && c.q == q && !c.closed && c.last == c.start && c.health == signature
            && c.start == (if requested > 0 || replay then requested else |log|)
            && c.out == [Chunk("ready", ready, None)] + if signature == "" then [] else [Chunk("health.changed", health, None)]
  {
    assert [Chunk("ready", ready, None)] + [] == [Chunk("ready", ready, None)];
  }

  /** A heartbeat of an open stream reports the health if it changed, and pings. */
  lemma HeartbeatMeaning(w: World, signature: string, health: Payload, ping: Payload)
    ensures var changed := if signature == w.conn.health then [] else [Chunk("health.changed", health, None)];
            Next(w, Heartbeat(signature, health, ping))
            == if w.conn.closed then w
               else w.(conn := w.conn.(health := signature, out := w.conn.out + changed + [Chunk("ping", ping, None)]))
  {
    assert w.conn.out + [] == w.conn.out;
  }

  /** Nothing is sent on a closed connection, whatever follows. */
  lemma {:induction false} ClosedIsSilent(w: World, actions: seq<Action>)
    requires w.conn.closed
    ensures Run(w, actions).conn == w.conn
    decreases |actions|
  {
    hide Emit;
    if actions == [] {
    } else {
      ClosedIsSilent(w, actions[..|actions| - 1]);
    }
  }

  function Polls(n: nat): seq<Action> {
    if n == 0 then [] else Polls(n - 1) + [Poll]
  }

  lemma {:induction false} PollCount(n: nat)
    ensures |Polls(n)| == n
  {
    if n == 0 {
    } else {
      PollCount(n - 1);
    }
  }

  lemma PollsStep(w: World, n: nat)
    ensures Run(w, Polls(n + 1)) == Next(Run(w, Polls(n)), Poll)
    ensures Run(w, Polls(0)) == w
  {
    hide Next;
    PollCount(n);
    assert Polls(n + 1)[..n] == Polls(n);
  }

  /** One poll delivers the next batch of the retained events. */
  lemma PollDelivers(w: World)
    requires Numbered(w.log) && !w.conn.closed && w.log != [] && w.conn.last <= |w.log|
    ensures var d := Dropped(|w.log|);
            var lo := if w.conn.last < d then d else w.conn.last;
            var hi := if lo + 200 < |w.log| then lo + 200 else |w.log|;
            var v := Next(w, Poll);
            && v.log == w.log && v.conn.q == w.conn.q && !v.conn.closed && v.conn.last == hi
            && Delivered(v.conn.out) == Delivered(w.conn.out) + EmitAll(w.conn.q, w.log[lo..hi])
  {
    hide EmitAll, Since, Delivered, Numbered;
    PollReads(w.log, w.conn.last);
    var d := Dropped(|w.log|);
    var lo := if w.conn.last < d then d else w.conn.last;
    var hi := if lo + 200 < |w.log| then lo + 200 else |w.log|;
    assert Slice(w.log, lo, hi) == w.log[lo..hi];
    DeliveredConcat(w.conn.out, EmitAll(w.conn.q, w.log[lo..hi]));
    DeliveredEmit(w.conn.q, w.log[lo..hi]);
    EmitSnocEmpty(w.conn.q);
  }

  /** Polling from before the first retained event delivers the retained events in batches of 200. */
  lemma {:induction false} ReplayInBatches(w: World, n: nat)
    requires Fresh(w) && w.conn.start == 0 && w.log != [] && n > 0
    ensures var v := Run(w, Polls(n));
            var d := Dropped(|w.log|);
            var hi := if d + 200 * n < |w.log| then d + 200 * n else |w.log|;
            && v.log == w.log && v.conn.q == w.conn.q && !v.conn.closed && v.conn.last == hi
            && Delivered(v.conn.out) == EmitAll(w.conn.q, w.log[d..hi])
  {
    hide EmitAll, Delivered, Run, Polls, Next, Numbered;
    PollsStep(w, n - 1);
    if n == 1 {
      PollDelivers(w);
    } else {
      ReplayInBatches(w, n - 1);
      var v, d := Run(w, Polls(n - 1)), Dropped(|w.log|);
      PollDelivers(v);
      var mid, hi := v.conn.last, if v.conn.last + 200 < |w.log| then v.conn.last + 200 else |w.log|;
      EmitConcat(w.conn.q, w.log[d..mid], w.log[mid..hi]);
      assert w.log[d..mid] + w.log[mid..hi] == w.log[d..hi];
    }
  }

  /** With replay on and no id to resume from, three polls deliver all retained events the filter lets through. */
  lemma ReplayFromFirstRetained(log: seq<Event>, q: Query, ready: Payload, signature: string, health: Payload)
    requires Numbered(log) && log != []
    ensures var v := Run(Connected(log, q, 0, true, ready, signature, health), Polls(3));
            && Delivered(v.conn.out) == EmitAll(q, if |log| > 600 then log[|log| - 600..] else log)
            && v.conn.last == |log|
  {
    hide Run, EmitAll, Delivered, Numbered, Polls;
    var w := Connected(log, q, 0, true, ready, signature, health);
    ConnectedFresh(log, q, 0, true, ready, signature, health);
    ConnectedMeaning(log, q, 0, true, ready, signature, health);
    ReplayInBatches(w, 3);
    var d := Dropped(|log|);
    assert log[d..|log|] == log[d..] && log[0..] == log;
  }

  /** A connection that polls before falling more than the retention behind is covered. */
  lemma KeepingUpIsCovered(w: World)
    requires w.conn.closed || |w.log| - w.conn.last <= 600
    ensures Covered(w)
  {
    hide EmitAll;
    EmitSnocEmpty(w.conn.q);
    if !w.conn.closed {
      EvictedNone(w.log, w.conn.last);
    }
  }

  /** Appending 601 events the filter lets through between two polls does lose the first of them. */
  lemma FallingBehindLoses(w: World, data: Payload, kind: string)
    requires Fresh(w) && w.conn.start == |w.log|
    requires MaySee(w.conn.q, kind, data)
    ensures var log := w.log + seq(601, i requires 0 <= i < 601 => Event(|w.log| + 1 + i, kind, data));
            !Covered(w.(log := log))
  {
    var more := seq(601, i requires 0 <= i < 601 => Event(|w.log| + 1 + i, kind, data));
    var log := w.log + more;
    assert Evicted(log, |w.log|) == [log[|w.log|]];
    hide MaySee;
    SkippedIsHidden(w.conn.q, log[|w.log|]);
    EmitSnoc(w.conn.q, [], log[|w.log|]);
    assert [] + [log[|w.log|]] == [log[|w.log|]];
  }

  // ---------------------------------------------------------------- reconnecting

  /** The client's last event id: that of the last chunk carrying one. */
  function LastId(out: seq<Chunk>): Option<int> {
    var d := Delivered(out);
    if d == [] then None else d[|d| - 1].id
  }

  // Nothing was due between the last delivered event and the cursor.
  lemma NothingAfterLast(q: Query, log: seq<Event>, start: int, last: int, d: int)
    requires Numbered(log) && start <= d <= last <= |log|
    requires var due := EmitAll(q, Slice(log, start, last)); due != [] && due[|due| - 1].id == Some(d)
    ensures EmitAll(q, Slice(log, d, last)) == []
    ensures EmitAll(q, Slice(log, start, last)) == EmitAll(q, Slice(log, start, d))
  {
    hide EmitAll, Slice;
    SliceSplit(log, start, d, last);
    EmitConcat(q, Slice(log, start, d), Slice(log, d, last));
    var head, tail := EmitAll(q, Slice(log, start, d)), EmitAll(q, Slice(log, d, last));
    assert tail != [] ==> (head + tail)[|head + tail| - 1] == tail[|tail| - 1];
    Bounds(q, log, d, last);
  }

  lemma ReconnectRanges(q: Query, log1: seq<Event>, log2: seq<Event>, start: int, last1: int, d: int, last2: int)
    requires Numbered(log1) && log1 <= log2 && start <= d <= last1 <= |log1| && d <= last2
    requires var due := EmitAll(q, Slice(log1, start, last1)); due != [] && due[|due| - 1].id == Some(d)
    ensures EmitAll(q, Slice(log1, start, last1)) + EmitAll(q, Slice(log2, d, last2)) == EmitAll(q, Slice(log2, start, last2))
  {
    hide EmitAll, Slice;
    NothingAfterLast(q, log1, start, last1, d);
    SliceGrows(log1, log2[|log1|..], start, d);
    assert log1 + log2[|log1|..] == log2;
    SliceSplit(log2, start, d, last2);
    EmitConcat(q, Slice(log2, start, d), Slice(log2, d, last2));
  }

  lemma EmptySlice(log: seq<Event>, a: int)
    ensures Slice(log, a, a) == []
  {
  }

  lemma LastDelivered(out: seq<Chunk>, start: int, last: int)
    requires Increasing(Delivered(out), start, last) && LastId(out).Some?
    ensures start < LastId(out).value <= last
    ensures Delivered(out) != [] && Delivered(out)[|Delivered(out)| - 1].id == LastId(out)
  {
  }

  /**
   Reconnecting with the same filter and the last delivered id: the two deliveries concatenate to exactly
   what one complete delivery over the whole range would have been.
   */
  lemma Reconnect(w1: World, run1: seq<Action>, w2: World, run2: seq<Action>, replay: bool)
    requires Fresh(w1) && Fresh(w2)
    requires var v1 := Run(w1, run1);
             && v1.log <= w2.log && w2.conn.q == w1.conn.q
             && LastId(v1.conn.out).Some? && LastId(v1.conn.out).value > 0
             && w2.conn.start == StartCursor(LastId(v1.conn.out).value, replay, |w2.log|)
    requires AllCovered(w1, run1)
    requires AllCovered(w2, run2)
    ensures var v1, v2 := Run(w1, run1), Run(w2, run2);
            Delivered(v1.conn.out) + Delivered(v2.conn.out) == EmitAll(w1.conn.q, Slice(v2.log, w1.conn.start, v2.conn.last))
  {
    hide Run, EmitAll, Delivered, Slice, Fresh, AllCovered, LastId, Increasing, Numbered;
    var v1, v2 := Run(w1, run1), Run(w2, run2);
    CompleteDelivery(w1, run1);
    CompleteDelivery(w2, run2);
    LastDelivered(v1.conn.out, w1.conn.start, v1.conn.last);
    EmptySlice(v1.log, w1.conn.start);
    EmitSnocEmpty(w1.conn.q);
    ReconnectRanges(w1.conn.q, v1.log, v2.log, w1.conn.start, v1.conn.last, LastId(v1.conn.out).value, v2.conn.last);
  }

  /**
   A client that received no event reconnects without an id.  With history replay off its cursor jumps to
   the newest event, so the delivery stays complete exactly when the filter lets nothing of the range in
   between through.
   */
  lemma ReconnectWithoutId(w1: World, run1: seq<Action>, w2: World, run2: seq<Action>)
    requires Fresh(w1) && Fresh(w2)
    requires var v1 := Run(w1, run1);
             && v1.log <= w2.log && w2.conn.q == w1.conn.q && w1.conn.start <= |w2.log|
             && LastId(v1.conn.out) == None && Delivered(v1.conn.out) == []
             && w2.conn.start == StartCursor(0, false, |w2.log|)
    requires AllCovered(w2, run2)
    ensures var v1, v2 := Run(w1, run1), Run(w2, run2);
            Delivered(v1.conn.out) + Delivered(v2.conn.out) == EmitAll(w1.conn.q, Slice(v2.log, w1.conn.start, v2.conn.last)) <==>
            EmitAll(w1.conn.q, Slice(w2.log, w1.conn.start, |w2.log|)) == []
  {
    hide Run, EmitAll, Delivered, Slice, Fresh, AllCovered, Increasing, Numbered;
    var v2, q, n := Run(w2, run2), w2.conn.q, |w2.log|;
    CompleteDelivery(w2, run2);
    SliceGrows(w2.log, v2.log[n..], w1.conn.start, n);
    assert w2.log + v2.log[n..] == v2.log;
    SliceSplit(v2.log, w1.conn.start, n, v2.conn.last);
    EmitConcat(q, Slice(v2.log, w1.conn.start, n), Slice(v2.log, n, v2.conn.last));
  }

  // ---------------------------------------------------------------- progress

  lemma {:induction false} RunConcat(w: World, xs: seq<Action>, ys: seq<Action>)
    ensures Run(w, xs + ys) == Run(Run(w, xs), ys)
    decreases |ys|
  {
    hide Next;
    if ys == [] {
      assert xs + ys == xs;
    } else {
      assert (xs + ys)[..|xs + ys| - 1] == xs + ys[..|ys| - 1];
      RunConcat(w, xs, ys[..|ys| - 1]);
    }
  }

  /** A poll of an open stream moves a cursor that is behind by a full batch, or to the end of the log. */
  lemma PollAdvances(w: World)
    requires Numbered(w.log) && !w.conn.closed
    ensures var v := Next(w, Poll);
            && v.log == w.log && !v.conn.closed
            && (w.conn.last >= |w.log| || w.log == [] ==> v.conn.last == w.conn.last)
            && (w.conn.last < |w.log| && w.log != [] ==> v.conn.last == |w.log| || w.conn.last + 200 <= v.conn.last < |w.log|)
  {
    hide Since, Slice, EmitAll;
    PollReads(w.log, w.conn.last);
  }

  /** Enough polls of an open stream bring its cursor to the end of the log. */
  lemma {:induction false} PollsCatchUp(w: World, n: nat)
    requires Numbered(w.log) && !w.conn.closed
    ensures var v := Run(w, Polls(n));
            && v.log == w.log && !v.conn.closed
            && (w.conn.last >= |w.log| || w.log == [] ==> v.conn.last == w.conn.last)
            && (w.conn.last < |w.log| && w.log != [] ==> v.conn.last == |w.log| || w.conn.last + 200 * n <= v.conn.last < |w.log|)
            && (|w.log| - w.conn.last <= 200 * n && w.log != [] ==> v.conn.last >= |w.log|)
  {
    hide Next;
    if n == 0 {
    } else {
      PollsCatchUp(w, n - 1);
      assert Polls(n)[..n - 1] == Polls(n - 1) by { PollCount(n - 1); }
      PollCount(n - 1);
      PollAdvances(Run(w, Polls(n - 1)));
    }
  }

  lemma NoEventsNoSlice(a: int, b: int)
    ensures Slice([], a, b) == [] == Slice([], a, 0)
  {
  }

  /** So once appends cease, a covered connection that is left open has delivered every due event of the log. */
  lemma CaughtUp(w: World, actions: seq<Action>, n: nat)
    requires Fresh(w) && w.conn.start <= |w.log|
    requires AllCovered(w, actions + Polls(n))
    requires var v := Run(w, actions); !v.conn.closed && |v.log| - v.conn.last <= 200 * n
    ensures var v := Run(w, actions + Polls(n));
            && v.log == Run(w, actions).log
            && Delivered(v.conn.out) == EmitAll(w.conn.q, Slice(v.log, w.conn.start, |v.log|))
  {
    hide Run, EmitAll, Delivered, Slice, Fresh, AllCovered, Increasing, Numbered;
    RunInv(w, actions);
    RunConcat(w, actions, Polls(n));
    PollsCatchUp(Run(w, actions), n);
    CompleteDelivery(w, actions + Polls(n));
    NoEventsNoSlice(w.conn.start, Run(w, actions + Polls(n)).conn.last);
  }
}
