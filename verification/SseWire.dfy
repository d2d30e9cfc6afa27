/**
 The wire format of the event stream.  `ToSseChunk` is the encoder (memory-server/src/server.ts);
 `Interpret` is the decoder of sections 9.2.5 and 9.2.6 of the WHATWG HTML Living Standard, on text.
 */
module SseWire {
  import opened JsText
  import opened EventStream

  /** The lines the encoder pushes for a chunk with JSON text `json`, before the closing empty one. */
  function FieldLines(event: string, json: string, id: Option<int>): seq<string> {
    (if id.Some? then ["id: " + Decimal(id.value)] else []) + ["event: " + event, "data: " + json]
  }

  function Encoded(event: string, json: string, id: Option<int>): string {
    JoinLines(FieldLines(event, json, id) + [""]) + "\n"
  }

  method ToSseChunk(event: string, json: string, id: Option<int>) returns (text: string)
    ensures text == Encoded(event, json, id)
  {
    var lines: seq<string> := [];
    if id.Some? {
      lines := lines + ["id: " + Decimal(id.value)];
    }
    lines := lines + ["event: " + event];
    lines := lines + ["data: " + json];
    lines := lines + [""];
    assert lines == FieldLines(event, json, id) + [""];
    text := JoinLines(lines) + "\n";
  }

  // ---------------------------------------------------------------- decoder

  datatype Message = Message(event: string, data: string, lastId: string)

  // `data` and `event` are the buffers; `lastId` is the last event ID string of the event source.
  datatype Reader = Reader(data: string, event: string, idBuffer: string, lastId: string, got: seq<Message>)

  /** Index of the first line terminator at or after `i`, or the length of the text. */
  function LineEnd(text: string, i: nat): (e: nat)
    requires i <= |text|
    ensures i <= e <= |text|
    ensures forall k | i <= k < e :: text[k] != '\n' && text[k] != '\r'
    ensures e < |text| ==> text[e] == '\n' || text[e] == '\r'
    decreases |text| - i
  {
    if i == |text| || text[i] == '\n' || text[i] == '\r' then i else LineEnd(text, i + 1)
  }

  function Colon(line: string): (i: nat)
    ensures i <= |line| && (i < |line| ==> line[i] == ':') && forall k | 0 <= k < i :: line[k] != ':'
  {
    if line == [] || line[0] == ':' then 0 else 1 + Colon(line[1..])
  }

  function Field(r: Reader, name: string, value: string): Reader {
    if name == "event" then r.(event := value)
    else if name == "data" then r.(data := r.data + value + "\n")
    else if name == "id" then if '\0' in value then r else r.(idBuffer := value)
    else r  // "retry" only sets the reconnection time
  }

  function Dispatch(r: Reader): Reader {
    var s := r.(lastId := r.idBuffer);
    if s.data == "" then s.(data := "", event := "")
    else
      var data := if s.data[|s.data| - 1] == '\n' then s.data[..|s.data| - 1] else s.data;
      var event := if s.event == "" then "message" else s.event;
      s.(data := "", event := "", got := s.got + [Message(event, data, s.lastId)])
  }

  function Line(r: Reader, line: string): Reader {
    if line == "" then Dispatch(r)
    else
      var c := Colon(line);
      if c == 0 then r
      else if c == |line| then Field(r, line, "")
      else
        var value := line[c + 1..];
        Field(r, line[..c], if value != "" && value[0] == ' ' then value[1..] else value)
  }

  /** Consumes every terminated line; what follows the last terminator is discarded at end of file. */
  function Interpret(r: Reader, text: string): Reader
    decreases |text|
  {
    var e := LineEnd(text, 0);
    if e == |text| then r
    else
      var next := if text[e] == '\r' && e + 1 < |text| && text[e + 1] == '\n' then e + 2 else e + 1;
      Interpret(Line(r, text[..e]), text[next..])
  }

  const CONNECTED := Reader("", "", "", "", [])

  // ---------------------------------------------------------------- round trip

  predicate OneLine(s: string) {
    '\n' !in s && '\r' !in s
  }

  lemma LineEndPrefix(line: string, rest: string, i: nat)
    requires OneLine(line) && i <= |line|
    ensures LineEnd(line + "\n" + rest, i) == |line|
    decreases |line| - i
  {
    var text := line + "\n" + rest;
    if i < |line| {
      assert text[i] == line[i] && line[i] in line;
      LineEndPrefix(line, rest, i + 1);
    } else {
      assert text[i] == '\n';
    }
  }

  lemma InterpretLine(r: Reader, line: string, rest: string)
    requires OneLine(line)
    ensures Interpret(r, line + "\n" + rest) == Interpret(Line(r, line), rest)
  {
    hide Line;
    var text := line + "\n" + rest;
    LineEndPrefix(line, rest, 0);
    assert text[..|line|] == line && text[|line| + 1..] == rest && text[|line|] == '\n';
  }

  lemma {:induction false} ColonAt(name: string, value: string)
    requires ':' !in name
    ensures Colon(name + ": " + value) == |name|
    decreases |name|
  {
    var line := name + ": " + value;
    if name != [] {
      assert line[0] == name[0] && line[1..] == name[1..] + ": " + value;
      ColonAt(name[1..], value);
    } else {
      assert line[0] == ':';
    }
  }

  lemma FieldLine(r: Reader, name: string, value: string)
    requires name != "" && ':' !in name
    ensures Line(r, name + ": " + value) == Field(r, name, value)
  {
    hide Field;
    var line := name + ": " + value;
    ColonAt(name, value);
    assert line[..|name|] == name && line[|name| + 1..] == " " + value;
    assert (" " + value)[1..] == value;
  }

  function Fields(event: string, json: string, rest: string): string {
    ("event: " + event) + "\n" + (("data: " + json) + "\n" + ("" + "\n" + rest))
  }

  lemma IdField(r: Reader, id: int)
    ensures Field(r, "id", Decimal(id)) == r.(idBuffer := Decimal(id))
  {
  }

  lemma EmptyLine(r: Reader)
    ensures Line(r, "") == Dispatch(r)
  {
  }

  // The lines of a chunk after its id line.
  lemma ThreeLines(r: Reader, event: string, json: string, rest: string)
    requires OneLine(event) && OneLine(json) && r.data == "" && r.event == ""
    ensures Interpret(r, Fields(event, json, rest)) ==
            Interpret(Reader("", "", r.idBuffer, r.idBuffer,
                             r.got + [Message(if event == "" then "message" else event, json, r.idBuffer)]), rest)
  {
    hide Interpret, Line;
    var ev, dt := "event: " + event, "data: " + json;
    var r1 := r.(event := event);
    var r2 := r1.(data := json + "\n");
    assert ev == "event" + ": " + event && dt == "data" + ": " + json;
    InterpretLine(r, ev, dt + "\n" + ("" + "\n" + rest));
    FieldLine(r, "event", event);
    InterpretLine(r1, dt, "" + "\n" + rest);
    FieldLine(r1, "data", json);
    assert "" + json == json;
    InterpretLine(r2, "", rest);
    EmptyLine(r2);
    assert (json + "\n")[..|json|] == json;
  }

  lemma JoinThree(a: string, b: string)
    ensures JoinLines([a, b, ""]) == a + "\n" + (b + "\n")
  {
    assert [a, b, ""][1..] == [b, ""] && [b, ""][1..] == [""];
    assert JoinLines([b, ""]) == b + "\n" + "" == b + "\n";
  }

  lemma EncodedText(event: string, json: string, id: Option<int>, rest: string)
    ensures Encoded(event, json, None) + rest == Fields(event, json, rest)
    ensures id.Some? ==> Encoded(event, json, id) + rest == ("id: " + Decimal(id.value)) + "\n" + Fields(event, json, rest)
  {
    hide Decimal;
    var ev, dt := "event: " + event, "data: " + json;
    var two := FieldLines(event, json, None) + [""];
    JoinThree(ev, dt);
    assert two == [ev, dt, ""];
    assert Encoded(event, json, None) + rest == Fields(event, json, rest);
    if id.Some? {
      var line := "id: " + Decimal(id.value);
      var all := FieldLines(event, json, id) + [""];
      assert all == [line, ev, dt, ""] && all[1..] == two;
      assert Encoded(event, json, id) == line + "\n" + JoinLines(two) + "\n";
      assert Encoded(event, json, id) + rest == line + "\n" + (Encoded(event, json, None) + rest);
    }
  }

  /** Decoding one encoded chunk dispatches it, and moves the last event id only if it carried one. */
  lemma ChunkRoundTrip(r: Reader, event: string, json: string, id: Option<int>, rest: string)
    requires OneLine(event) && OneLine(json) && r.data == "" && r.event == ""
    ensures var lastId := if id.Some? then Decimal(id.value) else r.idBuffer;
            Interpret(r, Encoded(event, json, id) + rest) ==
            Interpret(Reader("", "", lastId, lastId,
                             r.got + [Message(if event == "" then "message" else event, json, lastId)]), rest)
  {
    hide Interpret, Dispatch, Field, Encoded, Decimal, Fields;
    EncodedText(event, json, id, rest);
    if id.Some? {
      var tail := Fields(event, json, rest);
      InterpretLine(r, "id: " + Decimal(id.value), tail);
      assert "id: " + Decimal(id.value) == "id" + ": " + Decimal(id.value);
      FieldLine(r, "id", Decimal(id.value));
      IdField(r, id.value);
      ThreeLines(r.(idBuffer := Decimal(id.value)), event, json, rest);
    } else {
      ThreeLines(r, event, json, rest);
    }
  }

  // ---------------------------------------------------------------- a whole connection on the wire

  // `stringify` stands for `JSON.stringify`, whose output has no line break.
  function WireText(stringify: Payload -> string, out: seq<Chunk>): string {
    if out == [] then ""
    else Encoded(out[0].event, stringify(out[0].data), out[0].id) + WireText(stringify, out[1..])
  }

  ghost predicate Sendable(stringify: Payload -> string, out: seq<Chunk>) {
    forall ch | ch in out :: OneLine(ch.event) && ch.event != "" && OneLine(stringify(ch.data))
  }

  /** What the client should have received when its last event id was `lastId` before. */
  function Received(stringify: Payload -> string, out: seq<Chunk>, lastId: string): seq<Message> {
    if out == [] then []
    else
      var id := if out[0].id.Some? then Decimal(out[0].id.value) else lastId;
      [Message(out[0].event, stringify(out[0].data), id)] + Received(stringify, out[1..], id)
  }

  function IdAfter(out: seq<Chunk>, lastId: string): string
    decreases |out|
  {
    if out == [] then lastId
    else if out[|out| - 1].id.Some? then Decimal(out[|out| - 1].id.value)
    else IdAfter(out[..|out| - 1], lastId)
  }

  lemma InterpretEmpty(r: Reader)
    ensures Interpret(r, "") == r
  {
  }

  lemma {:induction false} IdAfterCons(ch: Chunk, rest: seq<Chunk>, lastId: string)
    ensures IdAfter([ch] + rest, lastId) == IdAfter(rest, if ch.id.Some? then Decimal(ch.id.value) else lastId)
    decreases |rest|
  {
    hide Decimal;
    if rest == [] {
      assert [ch] + rest == [ch] && [ch][..0] == [];
    } else {
      assert ([ch] + rest)[..|rest|] == [ch] + rest[..|rest| - 1];
      IdAfterCons(ch, rest[..|rest| - 1], lastId);
    }
  }

  /**
   Decoding the concatenation of any chunks gives back the same (event, data) sequence, and the client's
   last event id is that of the last chunk that carried one.
   */
  lemma {:induction false} WireRoundTrip(stringify: Payload -> string, out: seq<Chunk>, lastId: string, got: seq<Message>)
    requires Sendable(stringify, out)
    ensures Interpret(Reader("", "", lastId, lastId, got), WireText(stringify, out)) ==
            Reader("", "", IdAfter(out, lastId), IdAfter(out, lastId), got + Received(stringify, out, lastId))
    decreases |out|
  {
    hide Encoded, Decimal, Interpret, OneLine;
    var r := Reader("", "", lastId, lastId, got);
    if out == [] {
      assert got + [] == got;
      InterpretEmpty(r);
    } else {
      var ch, rest := out[0], out[1..];
      var id := if ch.id.Some? then Decimal(ch.id.value) else lastId;
      var m := Message(ch.event, stringify(ch.data), id);
      assert ch in out && forall c | c in rest :: c in out;
      ChunkRoundTrip(r, ch.event, stringify(ch.data), ch.id, WireText(stringify, rest));
      WireRoundTrip(stringify, rest, id, got + [m]);
      assert got + [m] + Received(stringify, rest, id) == got + ([m] + Received(stringify, rest, id));
      IdAfterCons(ch, rest, lastId);
      assert [ch] + rest == out;
    }
  }

  /** Pings, health changes and the ready chunk do not move the client's last event id: only deliveries do. */
  lemma {:induction false} ClientIdIsLastDelivered(out: seq<Chunk>)
    ensures IdAfter(out, "") == if LastId(out).Some? then Decimal(LastId(out).value) else ""
    decreases |out|
  {
    hide Decimal;
    if out == [] {
    } else {
      var init, ch := out[..|out| - 1], out[|out| - 1];
      ClientIdIsLastDelivered(init);
    }
  }

  // ---------------------------------------------------------------- what the client of a connection learns

  /** The messages that move the client's last event id, `lastId` before the first. */
  function Moving(got: seq<Message>, lastId: string): seq<Message> {
    if got == [] then []
    else (if got[0].lastId != lastId then [got[0]] else []) + Moving(got[1..], got[0].lastId)
  }

  /** The messages that carry delivered chunks. */
  function Carrying(stringify: Payload -> string, delivered: seq<Chunk>): seq<Message>
    requires forall ch | ch in delivered :: ch.id.Some?
  {
    if delivered == [] then []
    else
      [Message(delivered[0].event, stringify(delivered[0].data), Decimal(delivered[0].id.value))]
      + Carrying(stringify, delivered[1..])
  }

  /** The last event id of a client that has seen nothing yet, or has seen event `known`. */
  function IdText(known: Option<int>): string {
    if known.Some? then Decimal(known.value) else ""
  }

  lemma DecimalIsText(n: int)
    ensures Decimal(n) != ""
  {
  }

  lemma {:induction false} DeliveredCons(ch: Chunk, rest: seq<Chunk>)
    ensures Delivered([ch] + rest) == (if ch.id.Some? then [ch] else []) + Delivered(rest)
  {
    DeliveredConcat([ch], rest);
    assert [ch][..0] == [] && Delivered([]) == [];
    assert Delivered([ch]) == Delivered([ch][..0]) + (if ch.id.Some? then [ch] else []);
  }

  lemma {:induction false} DeliveredHaveIds(out: seq<Chunk>)
    ensures forall ch | ch in Delivered(out) :: ch.id.Some?
    decreases |out|
  {
    if out == [] {
    } else {
      DeliveredHaveIds(out[..|out| - 1]);
    }
  }

  lemma IncreasingTail(ch: Chunk, rest: seq<Chunk>, lo: int, hi: int)
    requires Increasing([ch] + rest, lo, hi)
    ensures ch.id.Some? && lo < ch.id.value && Increasing(rest, ch.id.value, hi)
  {
    var all := [ch] + rest;
    assert all[0] == ch;
    forall i | 0 <= i < |rest| ensures rest[i].id.Some? && ch.id.value < rest[i].id.value <= hi {
      assert all[i + 1] == rest[i];
    }
    forall i, j | 0 <= i < j < |rest| ensures rest[i].id.value < rest[j].id.value {
      assert all[i + 1] == rest[i] && all[j + 1] == rest[j];
    }
  }

  lemma NothingDelivered()
    ensures Delivered([]) == []
  {
  }

  lemma DifferentIds(known: Option<int>, id: int)
    requires known.Some? ==> known.value < id
    ensures IdText(known) != Decimal(id)
  {
    DecimalIsText(id);
    if known.Some? && Decimal(known.value) == Decimal(id) {
      DecimalInjective(known.value, id);
    }
  }

  /** Deliveries are just the messages that move the id, as their ids strictly increase. */
  lemma {:induction false} MovingIsDelivered(stringify: Payload -> string, out: seq<Chunk>, known: Option<int>, lo: int, hi: int)
    requires Increasing(Delivered(out), lo, hi) && (known.Some? ==> known.value <= lo)
    requires forall ch | ch in Delivered(out) :: ch.id.Some?
    ensures Moving(Received(stringify, out, IdText(known)), IdText(known)) == Carrying(stringify, Delivered(out))
  {
    hide Decimal, Delivered;
    if out == [] {
      NothingDelivered();
    } else {
      var ch, rest := out[0], out[1..];
      assert out == [ch] + rest;
      DeliveredCons(ch, rest);
      var tail := Received(stringify, rest, IdText(if ch.id.Some? then ch.id else known));
      var m := Message(ch.event, stringify(ch.data), IdText(if ch.id.Some? then ch.id else known));
      assert Received(stringify, out, IdText(known)) == [m] + tail && ([m] + tail)[1..] == tail;
      if ch.id.Some? {
        assert Delivered(out) == [ch] + Delivered(rest) && ([ch] + Delivered(rest))[1..] == Delivered(rest);
        IncreasingTail(ch, Delivered(rest), lo, hi);
        DifferentIds(known, ch.id.value);
        MovingIsDelivered(stringify, rest, ch.id, ch.id.value, hi);
      } else {
        assert Delivered(out) == Delivered(rest);
        MovingIsDelivered(stringify, rest, known, lo, hi);
      }
    }
  }

  /** A client starting to read with `lastId`. */
  function Listening(lastId: string, got: seq<Message>): Reader {
    Reader("", "", lastId, lastId, got)
  }

  /**
   Producer, wire and parser together: a client that reads a covered connection takes from the messages that
   move its last event id exactly the due events, in order, once each, with their ids.
   */
  lemma ClientReceivesDueEvents(stringify: Payload -> string, w: World, actions: seq<Action>, known: Option<int>)
    requires Fresh(w) && AllCovered(w, actions) && (known.Some? ==> known.value <= w.conn.start)
    requires Sendable(stringify, Run(w, actions).conn.out)
    ensures var v := Run(w, actions);
            var due := EmitAll(w.conn.q, Slice(v.log, w.conn.start, v.conn.last));
            && (forall ch | ch in due :: ch.id.Some?)
            && Moving(Interpret(Listening(IdText(known), []), WireText(stringify, v.conn.out)).got, IdText(known))
               == Carrying(stringify, due)
  {
    hide Run, EmitAll, Delivered, Slice, Fresh, AllCovered, Increasing, Interpret, WireText, Sendable, Decimal;
    var v := Run(w, actions);
    CompleteDelivery(w, actions);
    DeliveredHaveIds(v.conn.out);
    WireRoundTrip(stringify, v.conn.out, IdText(known), []);
    assert [] + Received(stringify, v.conn.out, IdText(known)) == Received(stringify, v.conn.out, IdText(known));
    MovingIsDelivered(stringify, v.conn.out, known, w.conn.start, v.conn.last);
  }

  lemma {:induction false} MovingConcat(stringify: Payload -> string, out: seq<Chunk>, lastId: string, more: seq<Message>)
    ensures Moving(Received(stringify, out, lastId) + more, lastId)
         == Moving(Received(stringify, out, lastId), lastId) + Moving(more, IdAfter(out, lastId))
  {
    hide Decimal;
    var got := Received(stringify, out, lastId);
    if out == [] {
      assert got + more == more;
    } else {
      var ch, rest := out[0], out[1..];
      var id := if ch.id.Some? then Decimal(ch.id.value) else lastId;
      assert out == [ch] + rest;
      IdAfterCons(ch, rest, lastId);
      assert (got + more)[1..] == got[1..] + more && got[1..] == Received(stringify, rest, id);
      MovingConcat(stringify, rest, id, more);
    }
  }

  lemma {:induction false} CarryingConcat(stringify: Payload -> string, xs: seq<Chunk>, ys: seq<Chunk>)
    requires forall ch | ch in xs :: ch.id.Some?
    requires forall ch | ch in ys :: ch.id.Some?
    ensures (forall ch | ch in xs + ys :: ch.id.Some?)
         && Carrying(stringify, xs + ys) == Carrying(stringify, xs) + Carrying(stringify, ys)
  {
    hide Decimal;
    if xs == [] {
      assert xs + ys == ys;
    } else {
      assert (xs + ys)[1..] == xs[1..] + ys;
      CarryingConcat(stringify, xs[1..], ys);
    }
  }

  /**
   A reconnecting client sends back the last event id it parsed.  If both connections are covered, the
   messages that moved its id over both are exactly the due events of the whole range: none lost or repeated.
   */
  lemma ClientResumes(stringify: Payload -> string, w1: World, run1: seq<Action>, w2: World, run2: seq<Action>, replay: bool)
    requires Fresh(w1) && Fresh(w2) && AllCovered(w1, run1) && AllCovered(w2, run2)
    requires Sendable(stringify, Run(w1, run1).conn.out) && Sendable(stringify, Run(w2, run2).conn.out)
    requires var v1 := Run(w1, run1);
             && v1.log <= w2.log && w2.conn.q == w1.conn.q && LastId(v1.conn.out).Some? && LastId(v1.conn.out).value > 0
             && var lastId := Interpret(Listening("", []), WireText(stringify, v1.conn.out)).lastId;
                w2.conn.start == StartCursor(ParseInteger(lastId, 0), replay, |w2.log|)
    ensures var v1, v2 := Run(w1, run1), Run(w2, run2);
            var r1 := Interpret(Listening("", []), WireText(stringify, v1.conn.out));
            var r2 := Interpret(Listening(r1.lastId, r1.got), WireText(stringify, v2.conn.out));
            var due := EmitAll(w1.conn.q, Slice(v2.log, w1.conn.start, v2.conn.last));
            && (forall ch | ch in due :: ch.id.Some?)
            && Moving(r2.got, "") == Carrying(stringify, due)
  {
    hide Run, EmitAll, Delivered, Slice, Fresh, AllCovered, Increasing, Interpret, WireText, Sendable, Decimal, LastId, ParseInteger, Moving, Carrying;
    var v1, v2 := Run(w1, run1), Run(w2, run2);
    var last := LastId(v1.conn.out).value;
    WireRoundTrip(stringify, v1.conn.out, "", []);
    ClientIdIsLastDelivered(v1.conn.out);
    ParseDecimal(last, 0);
    Reconnect(w1, run1, w2, run2, replay);
    var got1, got2 := Received(stringify, v1.conn.out, ""), Received(stringify, v2.conn.out, Decimal(last));
    assert [] + got1 == got1;
    WireRoundTrip(stringify, v2.conn.out, Decimal(last), got1);
    MovingConcat(stringify, v1.conn.out, "", got2);
    CompleteDelivery(w1, run1);
    CompleteDelivery(w2, run2);
    DeliveredHaveIds(v1.conn.out);
    DeliveredHaveIds(v2.conn.out);
    MovingIsDelivered(stringify, v1.conn.out, None, w1.conn.start, v1.conn.last);
    MovingIsDelivered(stringify, v2.conn.out, Some(last), w2.conn.start, v2.conn.last);
    CarryingConcat(stringify, Delivered(v1.conn.out), Delivered(v2.conn.out));
  }
}
