/** The app-server client of src/codex.rs: a socket read in chunks and given up
    at deadlines, a message reader over it, and a JSON-RPC router with a queue of
    notifications. What the socket delivers and when a deadline passes is the
    `net` field; writes always complete. JSON is a function of the bytes. */
module AppServer {
  import opened Basics
  import opened Frames
  import opened Stream

  /** One wait for bytes: some arrived (none means the peer hung up), or the
      caller's deadline passed first and the read was dropped. */
  datatype Arrival = Arrived(bytes: Bytes) | DeadlinePassed

  datatype Id = NoId | IntId(n: int) | OtherId

  /** A parsed message: whether it has a `method`, its `id`, and the rest. */
  datatype Value = Value(hasMethod: bool, id: Id, body: Bytes)

  predicate IsNotification(v: Value) { v.hasMethod && v.id.NoId? }

  datatype Filled = Full | HungUp | GaveUp

  datatype Heard =
    | Spoke(value: Value)
    | Garbled
    | Refused(why: Result)
    | Ended
    | TimedOut

  /** What the client writes: a call of its own, a reply to a ping, or the
      refusal of a request the server made. */
  datatype Out = Call(id: int, params: Bytes) | PongOut(payload: Bytes) | Decline(to: Id)

  predicate IsServerRequest(v: Value) { v.hasMethod && !v.id.NoId? }

  type Json = Bytes -> Option<Value>

  /** The notifications and the replies owed for one event. */
  function NoteOf(json: Json, e: Event): seq<Value> {
    if e.Message? && json(e.bytes).Some? && IsNotification(json(e.bytes).value) then [json(e.bytes).value] else []
  }

  function DueFor(json: Json, e: Event): seq<Out> {
    match e
    case Pong(p) => [PongOut(p)]
    case Message(m) =>
      if json(m).Some? && IsServerRequest(json(m).value) then [Decline(json(m).value.id)] else []
    case _ => []
  }

  function Notifications(json: Json, es: seq<Event>): seq<Value> {
    if es == [] then [] else NoteOf(json, es[0]) + Notifications(json, es[1..])
  }

  function Due(json: Json, es: seq<Event>): seq<Out> {
    if es == [] then [] else DueFor(json, es[0]) + Due(json, es[1..])
  }

  lemma {:induction false} EventsAdd(json: Json, a: seq<Event>, b: seq<Event>)
    ensures Notifications(json, a + b) == Notifications(json, a) + Notifications(json, b)
    ensures Due(json, a + b) == Due(json, a) + Due(json, b)
    decreases |a|
  {
    hide NoteOf, DueFor;
    if a == [] {
      assert a + b == b;
    } else {
      assert (a + b)[1..] == a[1..] + b;
      EventsAdd(json, a[1..], b);
    }
  }

  function PongOuts(ps: seq<Bytes>): (r: seq<Out>)
    ensures |r| == |ps|
  {
    seq(|ps|, i requires 0 <= i < |ps| => PongOut(ps[i]))
  }

  lemma {:induction false} PongsOnly(json: Json, ps: seq<Bytes>)
    ensures Notifications(json, Pongs(ps)) == [] && Due(json, Pongs(ps)) == PongOuts(ps)
    decreases |ps|
  {
    if ps == [] {
    } else {
      assert Pongs(ps)[1..] == Pongs(ps[1..]);
      assert PongOuts(ps) == [PongOut(ps[0])] + PongOuts(ps[1..]);
      PongsOnly(json, ps[1..]);
    }
  }

  /** What one call of `read_message` adds to the notifications and the replies. */
  lemma ReadAdds(json: Json, r: Read)
    ensures var note := if r.result.Got? then NoteOf(json, Message(r.result.bytes)) else [];
            var due := if r.result.Got? then DueFor(json, Message(r.result.bytes)) else [];
            && Notifications(json, EventsOf(r)) == note
            && Due(json, EventsOf(r)) == PongOuts(r.pongs) + due
  {
    EventsAdd(json, Pongs(r.pongs), Outcome(r.result));
    PongsOnly(json, r.pongs);
    OutcomeAdds(json, r.result);
    hide Notifications, Due, Pongs, Outcome, NoteOf, DueFor;
  }

  lemma OutcomeAdds(json: Json, result: Result)
    ensures var note := if result.Got? then NoteOf(json, Message(result.bytes)) else [];
            var due := if result.Got? then DueFor(json, Message(result.bytes)) else [];
            Notifications(json, Outcome(result)) == note && Due(json, Outcome(result)) == due
  {
    assert Notifications(json, []) == [] && Due(json, []) == [];
    var es := Outcome(result);
    if es != [] {
      assert es[1..] == [];
    }
  }

  /** The replies among what was written. */
  function Replies(outs: seq<Out>): seq<Out> {
    if outs == [] then [] else (if outs[0].Call? then [] else [outs[0]]) + Replies(outs[1..])
  }

  lemma {:induction false} RepliesAdd(a: seq<Out>, b: seq<Out>)
    ensures Replies(a + b) == Replies(a) + Replies(b)
    decreases |a|
  {
    if a == [] {
      assert a + b == b;
    } else {
      assert (a + b)[1..] == a[1..] + b;
      RepliesAdd(a[1..], b);
    }
  }

  lemma {:induction false} PongsReply(ps: seq<Bytes>)
    ensures Replies(PongOuts(ps)) == PongOuts(ps)
    decreases |ps|
  {
    if ps == [] {
    } else {
      assert PongOuts(ps)[1..] == PongOuts(ps[1..]);
      PongsReply(ps[1..]);
    }
  }

  // ------------------------------------------------- a read under way --

  function Prefixed(ps: seq<Bytes>, r: Read): Read { r.(pongs := ps + r.pongs) }

  /** The reader is part-way: it started with `b0` and `p0`, answered `ps`, and
      holds `b` and `p`. Whatever else arrives, finishing from here is finishing
      from the start. */
  ghost predicate Underway(b0: Bytes, p0: Bytes, ps: seq<Bytes>, b: Bytes, p: Bytes) {
    forall more: Bytes :: NextRead(b0 + more, p0) == Prefixed(ps, NextRead(b + more, p))
  }

  lemma UnderwayStart(b: Bytes, p: Bytes)
    ensures Underway(b, p, [], b, p)
  {
    hide NextRead;
    forall more: Bytes ensures NextRead(b + more, p) == Prefixed([], NextRead(b + more, p)) {
      var r := NextRead(b + more, p);
      assert [] + r.pongs == r.pongs;
    }
  }

  lemma UnderwayFill(b0: Bytes, p0: Bytes, ps: seq<Bytes>, b: Bytes, p: Bytes, chunk: Bytes)
    requires Underway(b0, p0, ps, b, p)
    ensures Underway(b0 + chunk, p0, ps, b + chunk, p)
  {
    hide NextRead, Prefixed;
    forall more: Bytes
      ensures NextRead(b0 + chunk + more, p0) == Prefixed(ps, NextRead(b + chunk + more, p))
    {
      assert b0 + chunk + more == b0 + (chunk + more) && b + chunk + more == b + (chunk + more);
    }
  }

  lemma UnderwayFrame(b0: Bytes, p0: Bytes, ps: seq<Bytes>, b: Bytes, p: Bytes)
    requires Underway(b0, p0, ps, b, p) && Parse(b).Whole? && Passes(Handle(Parse(b).frame, p))
    ensures var f := Parse(b).frame;
            var ps' := if f.opcode == 9 then ps + [f.payload] else ps;
            Underway(b0, p0, ps', b[Parse(b).total..], Handle(f, p).partial)
  {
    hide Parse;
    var f := Parse(b).frame;
    var rest := b[Parse(b).total..];
    var ps' := if f.opcode == 9 then ps + [f.payload] else ps;
    forall more: Bytes
      ensures NextRead(b0 + more, p0) == Prefixed(ps', NextRead(rest + more, Handle(f, p).partial))
    {
      ParseIsStable(b, more);
      assert (b + more)[Parse(b).total..] == rest + more;
      var r := NextRead(rest + more, Handle(f, p).partial);
      assert ps + ([f.payload] + r.pongs) == ps + [f.payload] + r.pongs;
      assert NextRead(b0 + more, p0) == Prefixed(ps, NextRead(b + more, p));
    }
  }

  lemma UnderwayEnd(b0: Bytes, p0: Bytes, ps: seq<Bytes>, b: Bytes, p: Bytes)
    requires Underway(b0, p0, ps, b, p)
    ensures NextRead(b0, p0) == Prefixed(ps, NextRead(b, p))
  {
    hide NextRead, Prefixed;
    assert b0 + [] == b0 && b + [] == b;
  }

  /** How the result of a read reaches the caller. */
  ghost predicate Tells(json: Json, result: Result, r: Heard) {
    match result
    case Waiting => r.Ended? || r.TimedOut?
    case Got(m) => r == (match json(m) case Some(v) => Spoke(v) case None => Garbled)
    case _ => r == Refused(result)
  }

  lemma WaitingHere(b: Bytes, p: Bytes)
    requires Parse(b).NeedMore?
    ensures NextRead(b, p) == Read([], Waiting, b, p)
  {
    hide Parse;
  }

  lemma LongHere(b: Bytes, p: Bytes)
    requires Parse(b).TooLong?
    ensures NextRead(b, p) == Read([], FrameTooLong(Parse(b).len), b, p)
  {
    hide Parse;
  }

  /** A frame that ends the read. */
  lemma FrameHere(b: Bytes, p: Bytes)
    requires Parse(b).Whole? && !Passes(Handle(Parse(b).frame, p))
    ensures var h := Handle(Parse(b).frame, p);
            var r := NextRead(b, p);
            && !h.events[0].Pong?
            && r.pongs == [] && r.buf == b[Parse(b).total..] && r.partial == h.partial
            && r.result == (match h.events[0] case Message(m) => Got(m) case Closed => PeerClosed case _ => TooBig)
  {
    hide Parse;
  }

  lemma Finish(b0: Bytes, p0: Bytes, ps: seq<Bytes>, b: Bytes, p: Bytes)
    requires Underway(b0, p0, ps, b, p)
    ensures var r := NextRead(b, p);
            NextRead(b0, p0) == r.(pongs := ps + r.pongs)
  {
    hide NextRead, Underway;
    UnderwayEnd(b0, p0, ps, b, p);
  }

  /** A finished read keeps produced-plus-buffered in step with received. */
  lemma Advance(r0: Bytes, b0: Bytes, p0: Bytes, es: seq<Event>, r1: Bytes, from: Bytes)
    requires r0 <= r1 && from == b0 + r1[|r0|..]
    requires StreamInStep(r0, es, b0, p0)
    ensures var n := NextRead(from, p0);
            StreamInStep(r1, es + EventsOf(n), n.buf, n.partial)
  {
    hide Drain, NextRead, EventsOf;
    var more := r1[|r0|..];
    assert r1 == r0 + more;
    DrainInTwo(r0, [], more);
    DrainInTwo(b0, p0, more);
    NextThenDrain(from, p0, []);
    var n := NextRead(from, p0);
    assert from + [] == from && n.buf + [] == n.buf;
    var d := Drain(b0, p0);
    var e := Drain(d.buf + more, d.partial);
    var rest := Drain(n.buf, n.partial);
    assert es + (d.events + e.events) == es + d.events + e.events;
    assert es + (EventsOf(n) + rest.events) == es + EventsOf(n) + rest.events;
  }

  /** Only notifications are ever queued. */
  lemma {:induction false} AllNotify(json: Json, es: seq<Event>)
    ensures forall v <- Notifications(json, es) :: IsNotification(v)
    decreases |es|
  {
    if es == [] {
    } else {
      AllNotify(json, es[1..]);
    }
  }

  // -------------------------------------------------------- the accounts --

  /** What has been produced, then what is still buffered, is the one-shot
      reading of everything received. */
  ghost predicate StreamInStep(received: Bytes, events: seq<Event>, buf: Bytes, partial: Bytes) {
    var rest := Drain(buf, partial);
    Drain(received, []) == rest.(events := events + rest.events)
  }

  /** Every notification of the stream so far was handed out, is queued or is in
      `note`, once and in order; every ping and every server request was
      answered, once and in order. */
  ghost predicate AllAccounted(json: Json, es: seq<Event>, returned: seq<Value>, pending: seq<Value>,
                               written: seq<Out>, note: seq<Value>) {
    && returned + pending + note == Notifications(json, es)
    && Replies(written) == Due(json, es)
  }

  function NoteIn(r: Heard): seq<Value> { if r.Spoke? && IsNotification(r.value) then [r.value] else [] }

  function DeclineIn(r: Heard): seq<Out> { if r.Spoke? && IsServerRequest(r.value) then [Decline(r.value.id)] else [] }

  lemma OneReply(o: Out)
    ensures Replies([o]) == if o.Call? then [] else [o]
  {
    assert [o][1..] == [];
  }

  lemma AccountRead(json: Json, es: seq<Event>, returned: seq<Value>, pending: seq<Value>, written: seq<Out>,
                    n: Read, r: Heard)
    requires AllAccounted(json, es, returned, pending, written, []) && Tells(json, n.result, r)
    ensures AllAccounted(json, es + EventsOf(n), returned, pending,
                         written + PongOuts(n.pongs) + DeclineIn(r), NoteIn(r))
  {
    hide Notifications, Due, EventsOf, PongOuts, Replies;
    ReadAdds(json, n);
    EventsAdd(json, es, EventsOf(n));
    NoteTold(json, n.result, r);
    RepliesWith(written, PongOuts(n.pongs), DeclineIn(r));
    PongsReply(n.pongs);
    RepliesToOne(r);
    hide NoteIn, DeclineIn, NoteOf, DueFor, Tells;
    assert returned + pending + [] == returned + pending;
    assert Due(json, es) + (PongOuts(n.pongs) + DeclineIn(r)) == Due(json, es) + PongOuts(n.pongs) + DeclineIn(r);
  }

  lemma RepliesWith(a: seq<Out>, b: seq<Out>, c: seq<Out>)
    ensures Replies(a + b + c) == Replies(a) + Replies(b) + Replies(c)
  {
    hide Replies;
    RepliesAdd(a, b);
    RepliesAdd(a + b, c);
  }

  lemma RepliesToOne(r: Heard)
    ensures Replies(DeclineIn(r)) == DeclineIn(r)
  {
    if DeclineIn(r) != [] {
      OneReply(DeclineIn(r)[0]);
    }
  }

  /** What a message adds is what its reader is told. */
  lemma NoteTold(json: Json, result: Result, r: Heard)
    requires Tells(json, result, r)
    ensures (if result.Got? then NoteOf(json, Message(result.bytes)) else []) == NoteIn(r)
    ensures (if result.Got? then DueFor(json, Message(result.bytes)) else []) == DeclineIn(r)
  {
  }

  lemma AccountCall(json: Json, es: seq<Event>, returned: seq<Value>, pending: seq<Value>, written: seq<Out>,
                    id: int, params: Bytes)
    requires AllAccounted(json, es, returned, pending, written, [])
    ensures AllAccounted(json, es, returned, pending, written + [Call(id, params)], [])
  {
    RepliesAdd(written, [Call(id, params)]);
    OneReply(Call(id, params));
  }

  lemma AccountQueued(json: Json, es: seq<Event>, returned: seq<Value>, pending: seq<Value>, written: seq<Out>,
                      v: Value)
    requires AllAccounted(json, es, returned, pending, written, [v])
    ensures AllAccounted(json, es, returned, pending + [v], written, [])
    ensures pending == [] ==> AllAccounted(json, es, returned + [v], [], written, [])
  {
    assert returned + (pending + [v]) + [] == returned + pending + [v];
    assert pending == [] ==> returned + [v] + [] + [] == returned + pending + [v];
  }

  lemma AccountPopped(json: Json, es: seq<Event>, returned: seq<Value>, pending: seq<Value>, written: seq<Out>)
    requires AllAccounted(json, es, returned, pending, written, []) && pending != []
    ensures IsNotification(pending[0])
    ensures AllAccounted(json, es, returned + [pending[0]], pending[1..], written, [])
  {
    AllNotify(json, es);
    assert Notifications(json, es)[|returned|] == pending[0];
    assert returned + [pending[0]] + pending[1..] + [] == returned + pending + [];
  }

  // ------------------------------------------------------------ the client --

  /** A frame, or why there is none yet. */
  datatype FrameIn = Cut(why: Filled) | Long(len: nat) | OneFrame(frame: Frame)

  /** Bytes went from the socket to the end of the buffer, and nowhere else. */
  ghost predicate Grown(b0: Bytes, r0: Bytes, b: Bytes, r: Bytes) {
    r0 <= r && b == b0 + r[|r0|..]
  }

  lemma GrownTrans(b0: Bytes, r0: Bytes, b1: Bytes, r1: Bytes)
    requires Grown(b0, r0, b1, r1)
    ensures forall b2: Bytes, r2: Bytes :: Grown(b1, r1, b2, r2) ==> Grown(b0, r0, b2, r2)
  {
    forall b2: Bytes, r2: Bytes | Grown(b1, r1, b2, r2) ensures Grown(b0, r0, b2, r2) {
      assert r2[..|r0|] == r2[..|r1|][..|r0|];
      assert r2[|r0|..] == r1[|r0|..] + r2[|r1|..];
    }
  }

  lemma GrownNot(b: Bytes, r: Bytes)
    ensures Grown(b, r, b, r)
  {
    assert r[|r|..] == [] && b + [] == b;
  }

  lemma GrownBy(b0: Bytes, r0: Bytes, b: Bytes, r: Bytes, chunk: Bytes)
    requires Grown(b0, r0, b, r)
    ensures Grown(b0, r0, b + chunk, r + chunk)
  {
    assert (r + chunk)[|r0|..] == r[|r0|..] + chunk;
    assert (r + chunk)[..|r0|] == r[..|r0|];
  }

  lemma GrownMore(b0: Bytes, r0: Bytes, from: Bytes, r1: Bytes, r2: Bytes)
    requires Grown(b0, r0, from, r1) && r1 <= r2
    ensures Grown(b0, r0, from + r2[|r1|..], r2)
  {
    assert r2[..|r0|] == r2[..|r1|][..|r0|];
    assert r2[|r0|..] == r1[|r0|..] + r2[|r1|..];
  }

  // ------------------------------------------------------------ the socket --

  predicate Plain(a: Arrival) { a.Arrived? && a.bytes != [] }

  /** The bytes in these arrivals. */
  function Chunks(arrivals: seq<Arrival>): Bytes {
    if arrivals == [] then []
    else (if arrivals[0].Arrived? then arrivals[0].bytes else []) + Chunks(arrivals[1..])
  }

  /** The bytes that arrive before anything ends the waiting. */
  function Ahead(net: seq<Arrival>): Bytes {
    if net == [] || !Plain(net[0]) then [] else net[0].bytes + Ahead(net[1..])
  }

  /** What ends it: the peer hanging up, or a deadline (or nothing more to come). */
  function Stop(net: seq<Arrival>): Filled {
    if net == [] then GaveUp
    else if Plain(net[0]) then Stop(net[1..])
    else if net[0].DeadlinePassed? then GaveUp
    else HungUp
  }

  /** What is still to come after that. */
  function After(net: seq<Arrival>): seq<Arrival> {
    if net == [] then [] else if Plain(net[0]) then After(net[1..]) else net[1..]
  }

  /** From `was` to `now` exactly `got` was taken off the socket: some of what is
      ahead, if the waiting did not end, and otherwise all of it, with what ended
      it. */
  ghost predicate Took(was: seq<Arrival>, now: seq<Arrival>, got: Bytes, why: Filled) {
    && |now| <= |was| && now == was[|was| - |now|..]
    && got == Chunks(was[..|was| - |now|])
    && (if why.Full? then Ahead(was) == got + Ahead(now) && Stop(was) == Stop(now) && After(was) == After(now)
        else got == Ahead(was) && why == Stop(was) && now == After(was))
  }

  lemma {:induction false} ChunksAdd(a: seq<Arrival>, b: seq<Arrival>)
    ensures Chunks(a + b) == Chunks(a) + Chunks(b)
    decreases |a|
  {
    if a == [] {
      assert a + b == b;
    } else {
      assert (a + b)[0] == a[0] && (a + b)[1..] == a[1..] + b;
      ChunksAdd(a[1..], b);
    }
  }

  lemma TookNothing(net: seq<Arrival>)
    ensures Took(net, net, [], Full)
  {
    assert net[..0] == [] && net[0..] == net;
    assert [] + Ahead(net) == Ahead(net);
  }

  lemma TookThen(a: seq<Arrival>, b: seq<Arrival>, c: seq<Arrival>, x: Bytes, y: Bytes, why: Filled)
    requires Took(a, b, x, Full) && Took(b, c, y, why)
    ensures Took(a, c, x + y, why)
  {
    hide Ahead, Stop, After, Chunks;
    var m, n := |a| - |b|, |b| - |c|;
    assert a[m..][n..] == a[m + n..];
    assert a[..m + n] == a[..m] + b[..n];
    ChunksAdd(a[..m], b[..n]);
    assert x + (y + Ahead(c)) == x + y + Ahead(c);
  }

  lemma TookOn(
    n0: seq<Arrival>, n1: seq<Arrival>, n2: seq<Arrival>, r0: Bytes, r1: Bytes, r2: Bytes, why: Filled)
    requires r0 <= r1 <= r2 && Took(n0, n1, r1[|r0|..], Full) && Took(n1, n2, r2[|r1|..], why)
    ensures r0 <= r2 && Took(n0, n2, r2[|r0|..], why)
  {
    hide Took;
    TookThen(n0, n1, n2, r1[|r0|..], r2[|r1|..], why);
    assert r1 == r2[..|r1|];
    assert r1[|r0|..] + r2[|r1|..] == r2[|r0|..];
  }

  /** One arrival, and what it means. */
  lemma TookOne(net: seq<Arrival>)
    requires net != []
    ensures Took(net, net[1..], if net[0].Arrived? then net[0].bytes else [],
                 if Plain(net[0]) then Full else if net[0].DeadlinePassed? then GaveUp else HungUp)
  {
    assert net[..1] == [net[0]] && [net[0]][1..] == [];
    assert Chunks([net[0]]) == (if net[0].Arrived? then net[0].bytes else []) + Chunks([]);
    assert |net| - |net[1..]| == 1;
  }

  /** The buffer, the record of bytes and the socket, before and after some waiting. */
  ghost predicate Gained(
    b0: Bytes, r0: Bytes, n0: seq<Arrival>, b: Bytes, r: Bytes, n: seq<Arrival>, why: Filled)
  {
    Grown(b0, r0, b, r) && Took(n0, n, r[|r0|..], why)
  }

  lemma GainedNot(b: Bytes, r: Bytes, n: seq<Arrival>)
    ensures Gained(b, r, n, b, r, n, Full)
  {
    GrownNot(b, r);
    TookNothing(n);
    assert r[|r|..] == [];
  }

  lemma GainedThen(
    b0: Bytes, r0: Bytes, n0: seq<Arrival>, b1: Bytes, r1: Bytes, n1: seq<Arrival>,
    b2: Bytes, r2: Bytes, n2: seq<Arrival>, why: Filled)
    requires Gained(b0, r0, n0, b1, r1, n1, Full) && Gained(b1, r1, n1, b2, r2, n2, why)
    ensures Gained(b0, r0, n0, b2, r2, n2, why)
  {
    GrownTrans(b0, r0, b1, r1);
    assert r2[..|r0|] == r2[..|r1|][..|r0|];
    assert r2[|r0|..] == r1[|r0|..] + r2[|r1|..];
    hide Took;
    TookThen(n0, n1, n2, r1[|r0|..], r2[|r1|..], why);
  }

  /** A step of `Fill` that takes one arrival. */
  lemma GainedOne(b0: Bytes, r0: Bytes, n0: seq<Arrival>, b: Bytes, r: Bytes, n: seq<Arrival>)
    requires Gained(b0, r0, n0, b, r, n, Full) && n != []
    ensures var chunk := if n[0].Arrived? then n[0].bytes else [];
            Gained(b0, r0, n0, b + chunk, r + chunk, n[1..],
                   if Plain(n[0]) then Full else if n[0].DeadlinePassed? then GaveUp else HungUp)
  {
    var chunk := if n[0].Arrived? then n[0].bytes else [];
    GrownNot(b, r);
    GrownBy(b, r, b, r, chunk);
    TookOne(n);
    assert (r + chunk)[|r|..] == chunk;
    hide Took, Grown;
    GainedThen(b0, r0, n0, b, r, n, b + chunk, r + chunk, n[1..],
               if Plain(n[0]) then Full else if n[0].DeadlinePassed? then GaveUp else HungUp);
  }

  lemma GainedStarts(b0: Bytes, r0: Bytes, n0: seq<Arrival>, b: Bytes, r: Bytes, n: seq<Arrival>, why: Filled)
    requires Gained(b0, r0, n0, b, r, n, why)
    ensures |b0| <= |b| && b[..|b0|] == b0 && (|b0| > 1 ==> b[0] == b0[0] && b[1] == b0[1])
    ensures r0 <= r && b == b0 + r[|r0|..] && Took(n0, n, r[|r0|..], why)
  {
    hide Took;
    assert b[..|b0|] == b0;
  }

  lemma GainedNone(b0: Bytes, r0: Bytes, n0: seq<Arrival>, b: Bytes, r: Bytes)
    requires Gained(b0, r0, n0, b, r, [], Full)
    ensures Gained(b0, r0, n0, b, r, [], GaveUp)
  {
    assert Ahead([]) == [];
    assert r[|r0|..] + [] == r[|r0|..];
  }

  function WhyOf(r: Heard): Filled { if r.Ended? then HungUp else if r.TimedOut? then GaveUp else Full }

  function WhyIn(r: FrameIn): Filled { if r.Cut? then r.why else Full }

  /** What a read comes to, from its result and from what ends the waiting. */
  function HeardOf(json: Json, result: Result, stop: Filled): Heard {
    match result
    case Waiting => if stop.HungUp? then Ended else TimedOut
    case Got(m) => (match json(m) case Some(v) => Spoke(v) case None => Garbled)
    case _ => Refused(result)
  }

  /** However the bytes come, a read answers from all that is ahead: the message or
      refusal they hold, and if they hold none, what ended the waiting. */
  lemma HeardAhead(json: Json, buf: Bytes, partial: Bytes, was: seq<Arrival>, now: seq<Arrival>, got: Bytes, r: Heard)
    requires Took(was, now, got, WhyOf(r)) && Tells(json, NextRead(buf + got, partial).result, r)
    ensures r == HeardOf(json, NextRead(buf + Ahead(was), partial).result, Stop(was))
  {
    hide NextRead, Ahead, Chunks, After, Stop;
    if r.Ended? || r.TimedOut? {
      StopIsNotFull(was);
    } else {
      NextReadIsStable(buf + got, partial, Ahead(now));
      assert buf + got + Ahead(now) == buf + Ahead(was);
    }
  }

  lemma {:induction false} StopIsNotFull(net: seq<Arrival>)
    ensures !Stop(net).Full?
    decreases |net|
  {
    if net == [] {
    } else {
      StopIsNotFull(net[1..]);
    }
  }

  /** What a caller is told stands at the end of the stream read so far, or at the
      front of the buffer. */
  ghost predicate Last(json: Json, r: Heard, es: seq<Event>, buf: Bytes) {
    match r
    case Spoke(v) => es != [] && es[|es| - 1].Message? && json(es[|es| - 1].bytes) == Some(v)
    case Garbled => es != [] && es[|es| - 1].Message? && json(es[|es| - 1].bytes) == None
    case Refused(why) =>
      (match why
       case PeerClosed => es != [] && es[|es| - 1].Closed?
       case TooBig => es != [] && es[|es| - 1].Oversized?
       case FrameTooLong(len) => Parse(buf) == TooLong(len)
       case _ => false)
    case _ => true
  }

  lemma LastHeard(json: Json, es: seq<Event>, buf: Bytes, partial: Bytes, r: Heard)
    requires Tells(json, NextRead(buf, partial).result, r)
    ensures Last(json, r, EventsOf(NextRead(buf, partial)), NextRead(buf, partial).buf)
    ensures Last(json, r, es + EventsOf(NextRead(buf, partial)), NextRead(buf, partial).buf)
  {
    var n := NextRead(buf, partial);
    TooLongStays(buf, partial);
    hide NextRead, Parse, Pongs;
    var o := Outcome(n.result);
    if o != [] {
      var all := es + EventsOf(n);
      assert EventsOf(n)[|EventsOf(n)| - 1] == o[0] && all[|all| - 1] == o[0];
    }
  }

  lemma LastOf(json: Json, r: Heard, e0: seq<Event>, e1: seq<Event>, e2: seq<Event>, buf: Bytes)
    requires e0 <= e1 <= e2 && Last(json, r, e2[|e1|..], buf)
    ensures e0 <= e2 && Last(json, r, e2[|e0|..], buf)
  {
    hide Parse;
    assert |e2| > |e1| ==> e2[|e1|..][|e2| - |e1| - 1] == e2[|e2| - 1] == e2[|e0|..][|e2| - |e0| - 1];
  }

  lemma {:induction false} TooLongStays(buf: Bytes, partial: Bytes)
    ensures var n := NextRead(buf, partial); n.result.FrameTooLong? ==> Parse(n.buf) == TooLong(n.result.len)
    decreases |buf|
  {
    hide Parse, Handle;
    if Parse(buf).Whole? {
      TooLongStays(buf[Parse(buf).total..], Handle(Parse(buf).frame, partial).partial);
    } else {
    }
  }

  // -------------------------------------------------------- calls and answers --

  predicate IsAnswer(v: Value, id: int) { !v.hasMethod && v.id == IntId(id) }

  /** The answers to `id` in the stream so far. */
  function Answers(json: Json, es: seq<Event>, id: int): seq<Value> {
    if es == [] then []
    else
      (if es[0].Message? && json(es[0].bytes).Some? && IsAnswer(json(es[0].bytes).value, id)
       then [json(es[0].bytes).value] else [])
      + Answers(json, es[1..], id)
  }

  function AnswerIn(r: Heard, id: int): seq<Value> { if r.Spoke? && IsAnswer(r.value, id) then [r.value] else [] }

  lemma {:induction false} AnswersAdd(json: Json, a: seq<Event>, b: seq<Event>, id: int)
    ensures Answers(json, a + b, id) == Answers(json, a, id) + Answers(json, b, id)
    decreases |a|
  {
    if a == [] {
      assert a + b == b;
    } else {
      assert (a + b)[0] == a[0] && (a + b)[1..] == a[1..] + b;
      AnswersAdd(json, a[1..], b, id);
    }
  }

  lemma {:induction false} NoAnswersInPongs(json: Json, ps: seq<Bytes>, id: int)
    ensures Answers(json, Pongs(ps), id) == []
    decreases |ps|
  {
    if ps == [] {
    } else {
      assert Pongs(ps)[0] == Pong(ps[0]) && Pongs(ps)[1..] == Pongs(ps[1..]);
      NoAnswersInPongs(json, ps[1..], id);
    }
  }

  /** What a read adds to the answers. */
  lemma AnswersHeard(json: Json, es: seq<Event>, n: Read, r: Heard, id: int)
    requires Tells(json, n.result, r)
    ensures Answers(json, es + EventsOf(n), id) == Answers(json, es, id) + AnswerIn(r, id)
  {
    AnswersAdd(json, es, EventsOf(n), id);
    AnswersAdd(json, Pongs(n.pongs), Outcome(n.result), id);
    NoAnswersInPongs(json, n.pongs, id);
    AnswersOfOutcome(json, n.result, r, id);
    hide Pongs, Outcome, Answers, AnswerIn, Tells;
  }

  lemma AnswersOfOutcome(json: Json, result: Result, r: Heard, id: int)
    requires Tells(json, result, r)
    ensures Answers(json, Outcome(result), id) == AnswerIn(r, id)
  {
    var o := Outcome(result);
    assert Answers(json, [], id) == [];
    if o != [] {
      assert o[1..] == [];
    }
  }

  function CallsIn(outs: seq<Out>): seq<Out> {
    if outs == [] then [] else (if outs[0].Call? then [outs[0]] else []) + CallsIn(outs[1..])
  }

  lemma {:induction false} CallsAdd(a: seq<Out>, b: seq<Out>)
    ensures CallsIn(a + b) == CallsIn(a) + CallsIn(b)
    decreases |a|
  {
    if a == [] {
      assert a + b == b;
    } else {
      assert (a + b)[0] == a[0] && (a + b)[1..] == a[1..] + b;
      CallsAdd(a[1..], b);
    }
  }

  lemma {:induction false} NoCallsInPongs(ps: seq<Bytes>)
    ensures CallsIn(PongOuts(ps)) == []
    decreases |ps|
  {
    if ps == [] {
    } else {
      assert PongOuts(ps)[0] == PongOut(ps[0]) && PongOuts(ps)[1..] == PongOuts(ps[1..]);
      NoCallsInPongs(ps[1..]);
    }
  }

  lemma NoCallsHeard(written: seq<Out>, ps: seq<Bytes>, r: Heard)
    ensures CallsIn(written + PongOuts(ps) + DeclineIn(r)) == CallsIn(written)
  {
    CallsAdd(written + PongOuts(ps), DeclineIn(r));
    CallsAdd(written, PongOuts(ps));
    NoCallsInPongs(ps);
    assert CallsIn([]) == [];
    var d := DeclineIn(r);
    if d != [] {
      assert d[1..] == [];
    }
    assert CallsIn(d) == [];
  }

  lemma OneCall(id: int, params: Bytes, written: seq<Out>)
    ensures CallsIn(written + [Call(id, params)]) == CallsIn(written) + [Call(id, params)]
  {
    CallsAdd(written, [Call(id, params)]);
    assert [Call(id, params)][1..] == [];
  }

  // ----------------------------------------------------------- a read under way --

  /** A read that began with `b0`, `p0`, `r0` and `n0` and has come to `b`, `p`, `r`
      and `n`, having answered `ps`; `from` is all it has had to read from. */
  ghost predicate Reading(
    b0: Bytes, p0: Bytes, r0: Bytes, n0: seq<Arrival>, from: Bytes, ps: seq<Bytes>,
    b: Bytes, p: Bytes, r: Bytes, n: seq<Arrival>, why: Filled)
  {
    Grown(b0, r0, from, r) && Took(n0, n, r[|r0|..], why) && Underway(from, p0, ps, b, p)
  }

  lemma ReadingBegins(b: Bytes, p: Bytes, r: Bytes, n: seq<Arrival>)
    ensures Reading(b, p, r, n, b, [], b, p, r, n, Full)
  {
    hide Took, Underway;
    UnderwayStart(b, p);
    GrownNot(b, r);
    TookNothing(n);
    assert r[|r|..] == [];
  }

  /** More bytes came, to the socket's end or not. */
  lemma ReadingFills(
    b0: Bytes, p0: Bytes, r0: Bytes, n0: seq<Arrival>, from: Bytes, ps: seq<Bytes>,
    b: Bytes, p: Bytes, r: Bytes, n: seq<Arrival>, r2: Bytes, n2: seq<Arrival>, why: Filled)
    requires Reading(b0, p0, r0, n0, from, ps, b, p, r, n, Full)
    requires r <= r2 && Took(n, n2, r2[|r|..], why)
    ensures Reading(b0, p0, r0, n0, from + r2[|r|..], ps, b + r2[|r|..], p, r2, n2, why)
  {
    GrownMore(b0, r0, from, r, r2);
    hide Took, Underway;
    TookOn(n0, n, n2, r0, r, r2, why);
    UnderwayFill(from, p0, ps, b, p, r2[|r|..]);
  }

  /** A frame that leaves the read under way. */
  lemma ReadingPasses(
    b0: Bytes, p0: Bytes, r0: Bytes, n0: seq<Arrival>, from: Bytes, ps: seq<Bytes>,
    b: Bytes, p: Bytes, r: Bytes, n: seq<Arrival>)
    requires Reading(b0, p0, r0, n0, from, ps, b, p, r, n, Full)
    requires Parse(b).Whole? && Passes(Handle(Parse(b).frame, p))
    ensures var f := Parse(b).frame;
            Reading(b0, p0, r0, n0, from, if f.opcode == 9 then ps + [f.payload] else ps,
                    b[Parse(b).total..], Handle(f, p).partial, r, n, Full)
  {
    hide Took, Grown, Parse, Handle;
    UnderwayFrame(from, p0, ps, b, p);
    hide Underway;
  }

  /** What a read that stops here comes to. */
  lemma ReadingStops(
    b0: Bytes, p0: Bytes, r0: Bytes, n0: seq<Arrival>, from: Bytes, ps: seq<Bytes>,
    b: Bytes, p: Bytes, r: Bytes, n: seq<Arrival>, why: Filled)
    requires Reading(b0, p0, r0, n0, from, ps, b, p, r, n, why)
    ensures Grown(b0, r0, from, r) && Took(n0, n, r[|r0|..], why)
    ensures NextRead(from, p0) == NextRead(b, p).(pongs := ps + NextRead(b, p).pongs)
  {
    hide Took, Grown, NextRead;
    Finish(from, p0, ps, b, p);
    hide Underway;
  }

  lemma OneMorePong(ps: seq<Bytes>, p: Bytes)
    ensures PongOuts(ps + [p]) == PongOuts(ps) + [PongOut(p)]
  {
  }

  /** What the parser makes of a buffer whose header is all there. */
  lemma ParsesHere(buf: Bytes)
    requires |buf| >= 2 && |buf| >= Offset(FormOf(buf[1])) && LengthAt(buf) <= MAX_FRAME_BYTES
    ensures var offset, len := Offset(FormOf(buf[1])), LengthAt(buf);
            var maskLen := if buf[1] >= 128 then 4 else 0;
            var total := offset + maskLen + len;
            && (|buf| < total ==> Parse(buf).NeedMore?)
            && (|buf| >= total ==>
                  var raw := buf[offset + maskLen..total];
                  Parse(buf)
                  == Whole(Frame(buf[0] >= 128, buf[0] % 16,
                                 if buf[1] >= 128 then Masked(raw, MaskAt(buf, offset)) else raw), total))
  {
    hide Masked, LengthAt, FormOf;
  }

  class Client {
    const json: Json
    var buf: Bytes
    var partial: Bytes
    var nextId: int
    var pending: seq<Value>
    var net: seq<Arrival>
    var written: seq<Out>

    /** Every byte read from the socket so far. */
    ghost var received: Bytes
    /** Everything the stream has produced so far. */
    ghost var events: seq<Event>
    /** Notifications handed to callers so far. */
    ghost var returned: seq<Value>
    /** Ids of the requests made so far. */
    ghost var asked: seq<int>

    constructor (json: Json, net: seq<Arrival>)
      ensures Valid() && this.json == json && this.net == net
      ensures buf == [] && partial == [] && nextId == 1 && pending == [] && written == []
      ensures received == [] && events == [] && returned == [] && asked == []
    {
      this.json := json;
      buf, partial, nextId, pending := [], [], 1, [];
      this.net, written := net, [];
      received, events, returned, asked := [], [], [], [];
    }

    ghost predicate InStep()
      reads `buf, `partial, `received, `events
    {
      StreamInStep(received, events, buf, partial)
    }

    ghost predicate Accounted(note: seq<Value>)
      reads `events, `returned, `pending, `written
    {
      AllAccounted(json, events, returned, pending, written, note)
    }

    /** Request ids only grow. */
    ghost predicate IdsGrow()
      reads `asked, `nextId
    {
      && (forall i | 0 <= i < |asked| :: asked[i] < nextId)
      && (forall i, j | 0 <= i < j < |asked| :: asked[i] < asked[j])
    }

    ghost predicate Valid()
      reads this
    {
      InStep() && Accounted([]) && IdsGrow()
    }

    /** The next bytes to read are there, or the call ends here with everything
        read so far kept: at a deadline, at the end of what is to come, or because
        the peer hung up. */
    method Fill(want: nat) returns (r: Filled)
      modifies `buf, `net, `received
      ensures Gained(old(buf), old(received), old(net), buf, received, net, r)
      ensures r.Full? <==> |buf| >= want
      ensures |net| <= |old(net)| && (|net| == |old(net)| ==> buf == old(buf))
    {
      GainedNot(buf, received, net);
      hide Gained;
      while |buf| < want
        invariant Gained(old(buf), old(received), old(net), buf, received, net, Full)
        invariant |net| <= |old(net)| && (|net| == |old(net)| ==> buf == old(buf))
        decreases |net|
      {
        if net == [] {
          GainedNone(old(buf), old(received), old(net), buf, received);
          return GaveUp;
        }
        GainedOne(old(buf), old(received), old(net), buf, received, net);
        var a := net[0];
        net := net[1..];
        match a
        case DeadlinePassed =>
          assert buf + [] == buf && received + [] == received;
          return GaveUp;
        case Arrived(chunk) =>
          buf := buf + chunk;
          received := received + chunk;
          if chunk == [] {
            return HungUp;
          }
      }
      return Full;
    }

    /** A frame's header: where its payload starts (less the mask) and how long
        it is. `Cut` when it is not all there. */
    method ReadHead() returns (why: Filled, offset: nat, len: nat)
      modifies `buf, `net, `received
      ensures Gained(old(buf), old(received), old(net), buf, received, net, why)
      ensures !why.Full? ==> Parse(buf).NeedMore?
      ensures why.Full? ==> |buf| >= 2 && |buf| >= Offset(FormOf(buf[1])) == offset && LengthAt(buf) == len
      ensures |net| <= |old(net)| && (|net| == |old(net)| ==> buf == old(buf))
    {
      hide FromBigEndian, Gained;
      offset, len := 2, 0;
      why := Fill(2);
      if why.Full? {
        len := buf[1] % 128;
        ghost var b1, r1, n1 := buf, received, net;
        if len == 126 || len == 127 {
          offset := if len == 126 then 4 else 10;
          why := Fill(offset);
          GainedThen(old(buf), old(received), old(net), b1, r1, n1, buf, received, net, why);
          GainedStarts(b1, r1, n1, buf, received, net, why);
          if why.Full? {
            len := FromBigEndian(buf[2..offset]);
          }
        }
      }
    }

    /** The rest of a frame whose header is there, taken off the front of the buffer
        once all of it is. */
    method ReadBody(offset: nat, len: nat) returns (r: FrameIn)
      requires |buf| >= 2 && |buf| >= Offset(FormOf(buf[1])) == offset && LengthAt(buf) == len <= MAX_FRAME_BYTES
      modifies `buf, `net, `received
      ensures old(received) <= received && !r.Long?
      ensures Took(old(net), net, received[|old(received)|..], WhyIn(r)) && r != Cut(Full)
      ensures var b := old(buf) + received[|old(received)|..];
              if r.OneFrame? then Parse(b).Whole? && Parse(b).frame == r.frame && buf == b[Parse(b).total..]
              else Parse(b).NeedMore? && buf == b
      ensures |net| <= |old(net)|
      ensures r.OneFrame? && |net| == |old(net)| ==> |buf| < |old(buf)|
    {
      hide Masked, LengthAt, Gained, Took;
      var masked := buf[1] >= 128;
      var maskLen := if masked then 4 else 0;
      var total := offset + maskLen + len;
      var why := Fill(total);
      GainedStarts(old(buf), old(received), old(net), buf, received, net, why);
      SameHead(old(buf), buf);
      ParsesHere(buf);
      hide Parse, FormOf;
      if !why.Full? {
        return Cut(why);
      }
      var payload := buf[offset + maskLen..total];
      if masked {
        payload := Masked(payload, MaskAt(buf, offset));
      }
      var frame := Frame(buf[0] >= 128, buf[0] % 16, payload);
      buf := buf[total..];
      return OneFrame(frame);
    }

    /** One frame off the front of the buffer, once all of it is there. */
    method ReadFrame() returns (r: FrameIn)
      modifies `buf, `net, `received
      ensures old(received) <= received
      ensures Took(old(net), net, received[|old(received)|..], WhyIn(r)) && r != Cut(Full)
      ensures var b := old(buf) + received[|old(received)|..];
              match r
              case Cut(_) => Parse(b).NeedMore? && buf == b
              case Long(len) => Parse(b) == TooLong(len) && buf == b
              case OneFrame(f) => Parse(b).Whole? && Parse(b).frame == f && buf == b[Parse(b).total..]
      ensures |net| <= |old(net)|
      ensures r.OneFrame? && |net| == |old(net)| ==> |buf| < |old(buf)|
    {
      hide LengthAt, Gained, Took;
      var why, offset, len := ReadHead();
      ghost var b1, r1, n1 := buf, received, net;
      GainedStarts(old(buf), old(received), old(net), buf, received, net, why);
      if !why.Full? {
        return Cut(why);
      }
      if len > MAX_FRAME_BYTES {
        return Long(len);
      }
      hide Parse;
      r := ReadBody(offset, len);
      TookOn(old(net), n1, net, old(received), r1, received, WhyIn(r));
      assert b1 + received[|r1|..] == old(buf) + received[|old(received)|..];
    }

    /** One turn of the reading loop: a frame is read and handled, and either the
        read is over or it goes on. */
    method HandleOne() returns (over: bool, r: Heard)
      modifies `buf, `partial, `net, `received, `written
      ensures old(received) <= received
      ensures Took(old(net), net, received[|old(received)|..], if over then WhyOf(r) else Full)
      ensures var whole := old(buf) + received[|old(received)|..];
              if over then
                var n := NextRead(whole, old(partial));
                && n.pongs == [] && buf == n.buf && partial == n.partial && written == old(written)
                && Tells(json, n.result, r)
              else
                && Parse(whole).Whole?
                && var f := Parse(whole).frame;
                   && Passes(Handle(f, old(partial)))
                   && buf == whole[Parse(whole).total..] && partial == Handle(f, old(partial)).partial
                   && written == old(written) + (if f.opcode == 9 then [PongOut(f.payload)] else [])
      ensures |net| <= |old(net)|
      ensures (!over || r.Spoke?) && |net| == |old(net)| ==> |buf| < |old(buf)|
    {
      hide Parse, NextRead, Handle, Took;
      var frame := ReadFrame();
      ghost var whole := old(buf) + received[|old(received)|..];
      match frame
      case Cut(why) =>
        WaitingHere(whole, partial);
        return true, if why.HungUp? then Ended else TimedOut;
      case Long(len) =>
        LongHere(whole, partial);
        return true, Refused(FrameTooLong(len));
      case OneFrame(f) =>
        var h := Handle(f, partial);
        if Passes(h) {
          if f.opcode == 9 {
            written := written + [PongOut(f.payload)];
          }
          assert written == old(written) + (if f.opcode == 9 then [PongOut(f.payload)] else []);
          partial := h.partial;
          return false, Garbled;
        }
        FrameHere(whole, partial);
        partial := h.partial;
        return true, HeardIn(h.events[0]);
    }

    /** The reading loop: frames are handled until one ends the call, or the
        bytes run out. */
    method ReadLoop() returns (r: Heard, ghost from: Bytes)
      modifies `buf, `partial, `net, `received, `written
      ensures Grown(old(buf), old(received), from, received)
      ensures Took(old(net), net, received[|old(received)|..], WhyOf(r))
      ensures var n := NextRead(from, old(partial));
              && buf == n.buf && partial == n.partial
              && written == old(written) + PongOuts(n.pongs)
              && Tells(json, n.result, r)
      ensures |net| <= |old(net)|
      ensures r.Spoke? && |net| == |old(net)| ==> |buf| < |old(buf)|
    {
      ghost var ps: seq<Bytes> := [];
      from := buf;
      ReadingBegins(buf, partial, received, net);
      assert written + PongOuts([]) == written;
      hide Reading, Parse, NextRead, Handle, Took, Grown, PongOuts, Tells, Passes;
      while true
        invariant Reading(old(buf), old(partial), old(received), old(net), from, ps, buf, partial, received, net, Full)
        invariant written == old(written) + PongOuts(ps)
        invariant |net| <= |old(net)| && (|net| == |old(net)| ==> |buf| <= |old(buf)|)
        decreases |net|, |buf|
      {
        ghost var b0, p0, r0, n0 := buf, partial, received, net;
        var over;
        over, r := HandleOne();
        ghost var whole, why := b0 + received[|r0|..], if over then WhyOf(r) else Full;
        ReadingFills(old(buf), old(partial), old(received), old(net), from, ps, b0, p0, r0, n0, received, net, why);
        from := from + received[|r0|..];
        if over {
          ReadingStops(old(buf), old(partial), old(received), old(net), from, ps, whole, p0, received, net, why);
          assert ps + [] == ps;
          return;
        }
        ReadingPasses(old(buf), old(partial), old(received), old(net), from, ps, whole, p0, received, net);
        if Parse(whole).frame.opcode == 9 {
          OneMorePong(ps, Parse(whole).frame.payload);
          ps := ps + [Parse(whole).frame.payload];
        }
      }
    }

    /** What the caller hears of an event that ends a read. */
    function HeardIn(e: Event): Heard {
      match e
      case Message(m) => (match json(m) case Some(v) => Spoke(v) case None => Garbled)
      case Closed => Refused(PeerClosed)
      case _ => Refused(TooBig)
    }

    /** The next message, or why there is none: `NextRead` on what was buffered
        and what arrived. A read given up keeps every byte and fragment. */
    method ReadMessage() returns (r: Heard)
      requires InStep()
      modifies `buf, `partial, `net, `received, `written, `events
      ensures InStep()
      ensures old(received) <= received
      ensures Took(old(net), net, received[|old(received)|..], WhyOf(r))
      ensures r == HeardOf(json, NextRead(old(buf) + Ahead(old(net)), old(partial)).result, Stop(old(net)))
      ensures var n := NextRead(old(buf) + received[|old(received)|..], old(partial));
              && buf == n.buf && partial == n.partial
              && events == old(events) + EventsOf(n)
              && written == old(written) + PongOuts(n.pongs)
              && Tells(json, n.result, r)
      ensures |net| <= |old(net)|
      ensures r.Spoke? && |net| == |old(net)| ==> |buf| < |old(buf)|
    {
      hide Drain, NextRead, EventsOf, Took, HeardOf;
      ghost var from;
      r, from := ReadLoop();
      Advance(old(received), old(buf), old(partial), old(events), received, from);
      HeardAhead(json, old(buf), old(partial), old(net), net, received[|old(received)|..], r);
      events := events + EventsOf(NextRead(from, old(partial)));
    }

    /** One message read, and a server request declined at once. A notification
        is left for the caller to queue or to return. */
    method Hear() returns (r: Heard)
      requires InStep() && Accounted([])
      modifies `buf, `partial, `net, `received, `written, `events
      ensures InStep() && Accounted(NoteIn(r)) && old(events) <= events && Last(json, r, events[|old(events)|..], buf)
      ensures old(received) <= received && Took(old(net), net, received[|old(received)|..], WhyOf(r))
      ensures forall id :: Answers(json, events, id) == Answers(json, old(events), id) + AnswerIn(r, id)
      ensures old(written) <= written && CallsIn(written) == CallsIn(old(written))
      ensures |net| <= |old(net)|
      ensures r.Spoke? && |net| == |old(net)| ==> |buf| < |old(buf)|
    {
      hide AllAccounted, StreamInStep, NextRead, EventsOf, PongOuts, Tells, Took, Answers, CallsIn, HeardOf;
      r := ReadMessage();
      ghost var n := NextRead(old(buf) + received[|old(received)|..], old(partial));
      AccountRead(json, old(events), returned, pending, old(written), n, r);
      forall id ensures Answers(json, events, id) == Answers(json, old(events), id) + AnswerIn(r, id) {
        AnswersHeard(json, old(events), n, r, id);
      }
      NoCallsHeard(old(written), n.pongs, r);
      LastHeard(json, [], old(buf) + received[|old(received)|..], old(partial), r);
      assert events[|old(events)|..] == EventsOf(n);
      hide Last;
      if r.Spoke? && IsServerRequest(r.value) {
        written := written + [Decline(r.value.id)];
      } else {
        assert written + [] == written;
      }
    }

    /** Ask, and wait for the answer to this request. The id is one never used
        before, so an answer to an older request is passed over; notifications
        heard meanwhile join the queue. */
    method Request(params: Bytes) returns (r: Heard)
      requires Valid()
      modifies `buf, `partial, `net, `received, `written, `events, `nextId, `pending, `asked
      ensures Valid()
      ensures asked == old(asked) + [old(nextId)] && nextId == old(nextId) + 1
      ensures old(events) <= events && old(pending) <= pending
      ensures old(written) + [Call(old(nextId), params)] <= written
      ensures CallsIn(written) == CallsIn(old(written)) + [Call(old(nextId), params)]
      ensures r.Spoke? ==> IsAnswer(r.value, old(nextId)) && forall id <- old(asked) :: !IsAnswer(r.value, id)
      ensures Answers(json, events, old(nextId))
              == Answers(json, old(events), old(nextId)) + (if r.Spoke? then [r.value] else [])
      ensures Last(json, r, events[|old(events)|..], buf)
      ensures old(received) <= received && Took(old(net), net, received[|old(received)|..], WhyOf(r))
    {
      hide AllAccounted, StreamInStep, Took, Answers, CallsIn, Last;
      var id := nextId;
      nextId := nextId + 1;
      asked := asked + [id];
      AccountCall(json, events, returned, pending, written, id, params);
      OneCall(id, params, written);
      written := written + [Call(id, params)];
      TookNothing(net);
      assert received[|received|..] == [];
      ghost var sent := written;
      while true
        invariant InStep() && Accounted([])
        invariant IdsGrow() && nextId == id + 1 && asked == old(asked) + [id]
        invariant old(events) <= events && old(pending) <= pending
        invariant sent <= written && CallsIn(written) == CallsIn(sent)
        invariant Answers(json, events, id) == Answers(json, old(events), id)
        invariant old(received) <= received && Took(old(net), net, received[|old(received)|..], Full)
        decreases |net|, |buf|
      {
        ghost var r0, n0, e0 := received, net, events;
        r := Hear();
        LastOf(json, r, old(events), e0, events, buf);
        TookOn(old(net), n0, net, old(received), r0, received, WhyOf(r));
        if !r.Spoke? {
          return;
        }
        if IsNotification(r.value) {
          AccountQueued(json, events, returned, pending, written, r.value);
          pending := pending + [r.value];
        } else if !r.value.hasMethod && r.value.id == IntId(id) {
          return;
        }
      }
    }

    /** The oldest notification not yet handed out, waiting for one if the queue
        is empty; none when the deadline passed first. */
    method NextNotification() returns (r: Heard)
      requires Valid()
      modifies `buf, `partial, `net, `received, `written, `events, `pending, `returned
      ensures Valid()
      ensures r.Spoke? ==> IsNotification(r.value) && returned == old(returned) + [r.value]
      ensures !r.Spoke? ==> returned == old(returned) && pending == []
      ensures old(pending) != [] ==>
                r == Spoke(old(pending)[0]) && pending == old(pending)[1..] && events == old(events)
      ensures old(pending) == [] ==> old(events) <= events && Last(json, r, events[|old(events)|..], buf)
      ensures old(received) <= received && Took(old(net), net, received[|old(received)|..], WhyOf(r))
      ensures CallsIn(written) == CallsIn(old(written))
    {
      hide AllAccounted, StreamInStep, Took, CallsIn, Last;
      TookNothing(net);
      assert received[|received|..] == [];
      if pending != [] {
        r := Spoke(pending[0]);
        AccountPopped(json, events, returned, pending, written);
        returned := returned + [pending[0]];
        pending := pending[1..];
        return;
      }
      while true
        invariant InStep() && Accounted([]) && IdsGrow() && pending == [] && returned == old(returned)
        invariant old(events) <= events
        invariant old(received) <= received && Took(old(net), net, received[|old(received)|..], Full)
        invariant CallsIn(written) == CallsIn(old(written))
        decreases |net|, |buf|
      {
        ghost var r0, n0, e0 := received, net, events;
        r := Hear();
        LastOf(json, r, old(events), e0, events, buf);
        TookOn(old(net), n0, net, old(received), r0, received, WhyOf(r));
        if !r.Spoke? {
          return;
        }
        if IsNotification(r.value) {
          AccountQueued(json, events, returned, pending, written, r.value);
          returned := returned + [r.value];
          return;
        }
      }
    }
  }
}
