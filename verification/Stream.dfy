/** What `read_message` of src/codex.rs makes of a byte stream: frames cut off
    the front of a buffer, data frames reassembled into messages, pings
    answered, the rest ignored (sections 5.4 and 5.5 of RFC 6455). The buffer
    and the fragments of an unfinished message outlive a call, so the stream may
    arrive in any pieces and a call may be given up at any wait for bytes. */
module Stream {
  import opened Basics
  import opened Frames

  /** What the stream produces, in order. `Pong` is the reply the reader writes. */
  datatype Event = Message(bytes: Bytes) | Closed | Oversized | Pong(payload: Bytes)

  datatype Handled = Handled(events: seq<Event>, partial: Bytes)

  // The match on the opcode.
  function Handle(f: Frame, partial: Bytes): Handled {
    if f.opcode == 0 || f.opcode == 1 then
      if |partial| + |f.payload| > MAX_FRAME_BYTES then Handled([Oversized], partial)
      else if f.fin then Handled([Message(partial + f.payload)], [])
      else Handled([], partial + f.payload)
    else if f.opcode == 8 then Handled([Closed], partial)
    else if f.opcode == 9 then Handled([Pong(f.payload)], partial)
    else Handled([], partial)
  }

  // ----------------------------------------------------- one-shot reading --

  datatype Drained = Drained(events: seq<Event>, buf: Bytes, partial: Bytes)

  /** Everything complete in `buf`, at once; what is left starts a frame that is
      not all there, or one too long to accept. */
  function Drain(buf: Bytes, partial: Bytes): Drained
    decreases |buf|
  {
    match Parse(buf)
    case Whole(f, total) =>
      var h := Handle(f, partial);
      var rest := Drain(buf[total..], h.partial);
      rest.(events := h.events + rest.events)
    case _ => Drained([], buf, partial)
  }

  // --------------------------------------------------- one call at a time --

  datatype Result = Got(bytes: Bytes) | PeerClosed | TooBig | FrameTooLong(len: nat) | Waiting

  datatype Read = Read(pongs: seq<Bytes>, result: Result, buf: Bytes, partial: Bytes)

  /** One `read_message` on a buffer: it stops at the first message or refusal,
      or waits for more bytes, having answered the pings it passed. */
  function NextRead(buf: Bytes, partial: Bytes): Read
    decreases |buf|
  {
    match Parse(buf)
    case NeedMore => Read([], Waiting, buf, partial)
    case TooLong(len) => Read([], FrameTooLong(len), buf, partial)
    case Whole(f, total) =>
      var rest := buf[total..];
      var h := Handle(f, partial);
      if h.events == [] then NextRead(rest, h.partial)
      else
        match h.events[0]
        case Message(m) => Read([], Got(m), rest, h.partial)
        case Closed => Read([], PeerClosed, rest, h.partial)
        case Oversized => Read([], TooBig, rest, h.partial)
        case Pong(p) =>
          var r := NextRead(rest, h.partial);
          r.(pongs := [p] + r.pongs)
  }

  function Pongs(ps: seq<Bytes>): (r: seq<Event>)
    ensures |r| == |ps|
  {
    seq(|ps|, i requires 0 <= i < |ps| => Pong(ps[i]))
  }

  function Outcome(r: Result): seq<Event> {
    match r
    case Got(m) => [Message(m)]
    case PeerClosed => [Closed]
    case TooBig => [Oversized]
    case FrameTooLong(_) => []
    case Waiting => []
  }

  function EventsOf(r: Read): seq<Event> { Pongs(r.pongs) + Outcome(r.result) }

  lemma PongsCons(ps: seq<Bytes>)
    ensures forall p: Bytes :: Pongs([p] + ps) == [Pong(p)] + Pongs(ps)
    ensures Pongs([]) == []
  {
    forall p: Bytes ensures Pongs([p] + ps) == [Pong(p)] + Pongs(ps) {
    }
  }

  /** Whether a frame leaves `read_message` in its loop. */
  predicate Passes(h: Handled) { h.events == [] || h.events[0].Pong? }

  lemma NextReadStep(buf: Bytes, partial: Bytes)
    requires Parse(buf).Whole?
    ensures var p := Parse(buf);
            var h := Handle(p.frame, partial);
            var r := NextRead(buf, partial);
            var rest := NextRead(buf[p.total..], h.partial);
            if Passes(h) then EventsOf(r) == h.events + EventsOf(rest) && r.buf == rest.buf && r.partial == rest.partial
            else EventsOf(r) == h.events && r.buf == buf[p.total..] && r.partial == h.partial
  {
    hide Parse, Pongs;
    var p := Parse(buf);
    PongsCons(NextRead(buf[p.total..], Handle(p.frame, partial).partial).pongs);
    PongsCons([]);
  }

  lemma DrainStep(buf: Bytes, partial: Bytes, more: Bytes)
    requires Parse(buf).Whole?
    ensures var p := Parse(buf);
            var h := Handle(p.frame, partial);
            var rest := Drain(buf[p.total..] + more, h.partial);
            Drain(buf + more, partial) == rest.(events := h.events + rest.events)
  {
    hide Parse, Handle;
    ParseIsStable(buf, more);
    var p := Parse(buf);
    assert (buf + more)[p.total..] == buf[p.total..] + more;
  }

  lemma StuckStep(buf: Bytes, partial: Bytes)
    requires !Parse(buf).Whole?
    ensures EventsOf(NextRead(buf, partial)) == [] && NextRead(buf, partial).buf == buf
    ensures NextRead(buf, partial).partial == partial
  {
    hide Parse;
  }

  /** A call takes the head of the one-shot reading and leaves its tail, whatever
      bytes come later. */
  lemma {:induction false} NextThenDrain(buf: Bytes, partial: Bytes, more: Bytes)
    ensures var r := NextRead(buf, partial);
            var one := Drain(buf + more, partial);
            var rest := Drain(r.buf + more, r.partial);
            one == rest.(events := EventsOf(r) + rest.events)
    decreases |buf|
  {
    hide Parse, NextRead, Drain, EventsOf, Handle, Passes;
    if Parse(buf).Whole? {
      var p := Parse(buf);
      var h := Handle(p.frame, partial);
      NextReadStep(buf, partial);
      DrainStep(buf, partial, more);
      if Passes(h) {
        NextThenDrain(buf[p.total..], h.partial, more);
        var rest := NextRead(buf[p.total..], h.partial);
        var tail := Drain(rest.buf + more, rest.partial);
        assert h.events + (EventsOf(rest) + tail.events) == h.events + EventsOf(rest) + tail.events;
      }
    } else {
      StuckStep(buf, partial);
    }
  }

  /** A call that need not wait answers the same whatever bytes come later. */
  lemma {:induction false} NextReadIsStable(buf: Bytes, partial: Bytes, more: Bytes)
    ensures var r := NextRead(buf, partial);
            !r.result.Waiting? ==> NextRead(buf + more, partial).result == r.result
    decreases |buf|
  {
    hide Parse, Handle;
    if Parse(buf).NeedMore? {
    } else {
      ParseIsStable(buf, more);
      if Parse(buf).Whole? {
        var p := Parse(buf);
        assert (buf + more)[p.total..] == buf[p.total..] + more;
        NextReadIsStable(buf[p.total..], Handle(p.frame, partial).partial, more);
      }
    }
  }

  /** A call that had to wait left nothing complete behind. */
  lemma {:induction false} WaitingIsDrained(buf: Bytes, partial: Bytes)
    requires NextRead(buf, partial).result.Waiting?
    ensures var r := NextRead(buf, partial);
            Parse(r.buf).NeedMore? && Drain(r.buf, r.partial) == Drained([], r.buf, r.partial)
    decreases |buf|
  {
    hide Parse;
    match Parse(buf)
    case Whole(f, total) => WaitingIsDrained(buf[total..], Handle(f, partial).partial);
    case _ =>
  }

  /** Reading a stream up to any byte and then the rest is reading it at once. */
  lemma {:induction false} DrainInTwo(buf: Bytes, partial: Bytes, more: Bytes)
    ensures var d := Drain(buf, partial);
            var e := Drain(d.buf + more, d.partial);
            Drain(buf + more, partial) == e.(events := d.events + e.events)
    decreases |buf|
  {
    hide Parse, Handle;
    if Parse(buf).Whole? {
      var p := Parse(buf);
      var h := Handle(p.frame, partial);
      DrainStep(buf, partial, more);
      DrainInTwo(buf[p.total..], h.partial, more);
      var d := Drain(buf[p.total..], h.partial);
      var e := Drain(d.buf + more, d.partial);
      assert h.events + (d.events + e.events) == h.events + d.events + e.events;
    }
  }

  function Flatten(cs: seq<Bytes>): Bytes {
    if cs == [] then [] else cs[0] + Flatten(cs[1..])
  }

  /** A history of calls: `cs[i]` is what arrived while the i-th was reading. A
      call given up at a wait is one whose result is `Waiting`. */
  function Calls(buf: Bytes, partial: Bytes, cs: seq<Bytes>): Drained
    decreases |cs|
  {
    if cs == [] then Drained([], buf, partial)
    else
      var r := NextRead(buf + cs[0], partial);
      var rest := Calls(r.buf, r.partial, cs[1..]);
      rest.(events := EventsOf(r) + rest.events)
  }

  /** Over any stream, any division of it among calls and any calls given up on
      the way: what the calls produced, then what is still buffered, is the
      one-shot reading of the whole stream. No byte and no fragment is lost. */
  lemma {:induction false} CallsReadTheStream(buf: Bytes, partial: Bytes, cs: seq<Bytes>)
    ensures var c := Calls(buf, partial, cs);
            var one := Drain(buf + Flatten(cs), partial);
            var rest := Drain(c.buf, c.partial);
            one == rest.(events := c.events + rest.events)
    decreases |cs|
  {
    hide NextRead, Drain, EventsOf;
    if cs == [] {
      assert buf + Flatten(cs) == buf;
    } else {
      var r := NextRead(buf + cs[0], partial);
      assert buf + Flatten(cs) == buf + cs[0] + Flatten(cs[1..]);
      NextThenDrain(buf + cs[0], partial, Flatten(cs[1..]));
      CallsReadTheStream(r.buf, r.partial, cs[1..]);
      var rest := Calls(r.buf, r.partial, cs[1..]);
      var tail := Drain(rest.buf, rest.partial);
      assert EventsOf(r) + (rest.events + tail.events) == EventsOf(r) + rest.events + tail.events;
    }
  }

  /** Two histories of one stream, each read until it had to wait or met a frame too
      long to accept, agree on everything: events, leftover bytes and unfinished message. */
  lemma ChunkingIsInvisible(cs: seq<Bytes>, ds: seq<Bytes>)
    requires Flatten(cs) == Flatten(ds)
    requires !Parse(Calls([], [], cs).buf).Whole? && !Parse(Calls([], [], ds).buf).Whole?
    ensures Calls([], [], cs) == Calls([], [], ds)
    ensures Calls([], [], cs) == Drain(Flatten(cs), [])
  {
    hide Calls, Flatten, Parse, Drain;
    CallsAreDrained(cs);
    CallsAreDrained(ds);
  }

  lemma CallsAreDrained(cs: seq<Bytes>)
    requires !Parse(Calls([], [], cs).buf).Whole?
    ensures Calls([], [], cs) == Drain(Flatten(cs), [])
  {
    CallsReadTheStream([], [], cs);
    assert [] + Flatten(cs) == Flatten(cs);
    hide Calls, Flatten, Parse;
    var c := Calls([], [], cs);
    assert c.events + [] == c.events;
  }

  // ------------------------------------------------------- frames on a wire --

  /** A frame as some peer chose to send it. */
  datatype Wire = Wire(frame: Frame, form: Form, mask: Option<Mask>)

  ghost predicate Sendable(w: Wire) {
    w.frame.opcode < 16 && |w.frame.payload| <= MAX_FRAME_BYTES && Fits(w.form, |w.frame.payload|)
  }

  ghost predicate AllSendable(ws: seq<Wire>) {
    forall i | 0 <= i < |ws| :: Sendable(ws[i])
  }

  ghost function OnWire(ws: seq<Wire>): Bytes
    requires AllSendable(ws)
  {
    if ws == [] then [] else Encode(ws[0].frame, ws[0].form, ws[0].mask) + OnWire(ws[1..])
  }

  function FramesOf(ws: seq<Wire>): (r: seq<Frame>)
    ensures |r| == |ws|
  {
    seq(|ws|, i requires 0 <= i < |ws| => ws[i].frame)
  }

  /** The same reading, on frames instead of bytes. */
  function Assemble(fs: seq<Frame>, partial: Bytes): Handled
    decreases |fs|
  {
    if fs == [] then Handled([], partial)
    else
      var h := Handle(fs[0], partial);
      var rest := Assemble(fs[1..], h.partial);
      rest.(events := h.events + rest.events)
  }

  lemma FramesOfNothing()
    ensures FramesOf([]) == [] && Parse([]).NeedMore?
  {}

  lemma FramesOfMore(ws: seq<Wire>)
    requires ws != []
    ensures FramesOf(ws)[0] == ws[0].frame && FramesOf(ws)[1..] == FramesOf(ws[1..])
  {}

  /** Length forms and masks leave no trace: a stream of frames reads as those
      frames, and no byte of it is left over. */
  lemma {:induction false} DrainOfFrames(ws: seq<Wire>, partial: Bytes)
    requires AllSendable(ws)
    ensures var a := Assemble(FramesOf(ws), partial);
            Drain(OnWire(ws), partial) == Drained(a.events, [], a.partial)
    decreases |ws|
  {
    hide Parse, Encode, Handle, FramesOf;
    if ws == [] {
      FramesOfNothing();
    } else {
      var w := ws[0];
      FramesOfMore(ws);
      var wire := Encode(w.frame, w.form, w.mask);
      var rest := OnWire(ws[1..]);
      ParseEncoded(w.frame, w.form, w.mask, rest);
      assert (wire + rest)[|wire|..] == rest;
      DrainOfFrames(ws[1..], Handle(w.frame, partial).partial);
    }
  }

  /** Frames the adapter has no use for: pongs, binary and reserved opcodes. */
  predicate Ignored(f: Frame) { f.opcode !in {0, 1, 8, 9} }

  predicate Ping(f: Frame) { f.opcode == 9 }

  function Without(fs: seq<Frame>, drop: Frame -> bool): seq<Frame> {
    if fs == [] then []
    else (if drop(fs[0]) then [] else [fs[0]]) + Without(fs[1..], drop)
  }

  function NoPongs(es: seq<Event>): seq<Event> {
    if es == [] then [] else (if es[0].Pong? then [] else [es[0]]) + NoPongs(es[1..])
  }

  lemma {:induction false} NoPongsAdds(a: seq<Event>, b: seq<Event>)
    ensures NoPongs(a + b) == NoPongs(a) + NoPongs(b)
    decreases |a|
  {
    if a == [] {
      assert a + b == b;
    } else {
      assert (a + b)[1..] == a[1..] + b;
      NoPongsAdds(a[1..], b);
    }
  }

  /** Interleaved pings, pongs and ignored frames change no message, no refusal
      and no fragment kept for later; without the pings only the replies to them
      are missing. */
  lemma {:induction false} ControlFramesAreTransparent(fs: seq<Frame>, partial: Bytes)
    ensures var all := Assemble(fs, partial);
            var some := Assemble(Without(fs, f => Ignored(f) || Ping(f)), partial);
            some.partial == all.partial && some.events == NoPongs(all.events)
    decreases |fs|
  {
    if fs == [] {
    } else {
      var f := fs[0];
      var h := Handle(f, partial);
      var drop := (f: Frame) => Ignored(f) || Ping(f);
      ControlFramesAreTransparent(fs[1..], h.partial);
      NoPongsAdds(h.events, Assemble(fs[1..], h.partial).events);
      var kept := Without(fs, drop);
      var later := Without(fs[1..], drop);
      if drop(f) {
        assert kept == later && h.partial == partial && NoPongs(h.events) == [];
      } else {
        assert kept[0] == f && kept[1..] == later;
        assert NoPongs(h.events) == h.events;
      }
    }
  }

  // ---------------------------------------------------------- fragmentation --

  predicate Data(f: Frame) { f.opcode == 0 || f.opcode == 1 }

  /** The message text in these frames: the payloads of the data frames, joined. */
  function DataOf(fs: seq<Frame>): Bytes {
    if fs == [] then [] else (if Data(fs[0]) then fs[0].payload else []) + DataOf(fs[1..])
  }

  /** The replies to the pings among these frames. */
  function PongsFor(fs: seq<Frame>): seq<Event> {
    if fs == [] then [] else (if Ping(fs[0]) then [Pong(fs[0].payload)] else []) + PongsFor(fs[1..])
  }

  lemma DataOfFirst(fs: seq<Frame>)
    requires fs != []
    ensures DataOf(fs) == (if Data(fs[0]) then fs[0].payload else []) + DataOf(fs[1..])
    ensures PongsFor(fs) == (if Ping(fs[0]) then [Pong(fs[0].payload)] else []) + PongsFor(fs[1..])
  {
  }

  /** A frame in the middle of a message adds its data to what is kept, and is
      answered if it is a ping. */
  lemma MiddleFrame(f: Frame, fs: seq<Frame>, partial: Bytes)
    requires f.opcode != 8 && (Data(f) ==> !f.fin && |partial| + |f.payload| <= MAX_FRAME_BYTES)
    ensures var rest := Assemble(fs, partial + (if Data(f) then f.payload else []));
            Assemble([f] + fs, partial)
            == rest.(events := (if Ping(f) then [Pong(f.payload)] else []) + rest.events)
  {
    assert ([f] + fs)[1..] == fs;
    assert partial + [] == partial;
  }

  lemma LastFragment(last: Frame, partial: Bytes)
    requires Data(last) && last.fin && |partial| + |last.payload| <= MAX_FRAME_BYTES
    ensures Assemble([last], partial) == Handled([Message(partial + last.payload)], [])
  {
    assert [last][1..] == [];
  }

  /** A message cut into fragments `before + [last]`, with control frames of any
      kind but close in any place, comes out once, whole, after the replies to
      the pings that preceded its last fragment. */
  lemma {:induction false} FragmentsReassemble(before: seq<Frame>, last: Frame, partial: Bytes)
    requires forall f <- before :: f.opcode != 8 && (Data(f) ==> !f.fin)
    requires Data(last) && last.fin
    requires |partial| + |DataOf(before)| + |last.payload| <= MAX_FRAME_BYTES
    ensures Assemble(before + [last], partial)
            == Handled(PongsFor(before) + [Message(partial + DataOf(before) + last.payload)], [])
    decreases |before|
  {
    hide Assemble;
    if before == [] {
      assert before + [last] == [last] && partial + [] == partial;
      LastFragment(last, partial);
    } else {
      var f, rest := before[0], before[1..];
      DataOfFirst(before);
      hide DataOf, PongsFor;
      var mine := if Data(f) then f.payload else [];
      assert before + [last] == [f] + (rest + [last]);
      assert partial + mine + DataOf(rest) == partial + (mine + DataOf(rest));
      MiddleFrame(f, rest + [last], partial);
      FragmentsReassemble(rest, last, partial + mine);
    }
  }

  // ------------------------------------------------------------ where a read ends --

  /** Frame `i` does not end a read of `fs`: it is no close, and if it holds data, it
      is not the last of its message and the message is not too long yet. */
  ghost predicate GoesOn(fs: seq<Frame>, partial: Bytes, i: nat)
    requires i < |fs|
  {
    fs[i].opcode != 8 && (Data(fs[i]) ==> !fs[i].fin && |partial| + |DataOf(fs[..i + 1])| <= 67_108_864)
  }

  ghost predicate AllGoOn(fs: seq<Frame>, partial: Bytes, n: nat)
    requires n <= |fs|
  {
    forall i | 0 <= i < n :: GoesOn(fs, partial, i)
  }

  lemma GoOnTail(fs: seq<Frame>, partial: Bytes, n: nat)
    requires 0 < n <= |fs| && AllGoOn(fs, partial, n)
    ensures AllGoOn(fs[1..], partial + (if Data(fs[0]) then fs[0].payload else []), n - 1)
  {
    var mine := if Data(fs[0]) then fs[0].payload else [];
    forall i | 0 <= i < n - 1 ensures GoesOn(fs[1..], partial + mine, i) {
      assert GoesOn(fs, partial, i + 1);
      DataOfTail(fs, i + 1);
    }
  }

  lemma DataOfTail(fs: seq<Frame>, i: nat)
    requires i < |fs|
    ensures DataOf(fs[..i + 1]) == (if Data(fs[0]) then fs[0].payload else []) + DataOf(fs[1..][..i])
  {
    assert fs[..i + 1][0] == fs[0] && fs[..i + 1][1..] == fs[1..][..i];
    DataOfFirst(fs[..i + 1]);
  }

  /** What a read comes to on one frame and what follows it. */
  lemma ReadFrameFirst(ws: seq<Wire>, partial: Bytes)
    requires ws != [] && AllSendable(ws)
    ensures var f, h := ws[0].frame, Handle(ws[0].frame, partial);
            NextRead(OnWire(ws), partial).result
            == if Passes(h) then NextRead(OnWire(ws[1..]), h.partial).result
               else (match h.events[0] case Message(m) => Got(m) case Closed => PeerClosed case _ => TooBig)
  {
    hide Parse, Encode;
    var w := ws[0];
    var wire, rest := Encode(w.frame, w.form, w.mask), OnWire(ws[1..]);
    ParseEncoded(w.frame, w.form, w.mask, rest);
    assert (wire + rest)[|wire|..] == rest;
  }

  /** What ends a read at frame `n`: a close is the peer's, data that makes the
      message longer than 64 MiB is too big, and otherwise the message is whole. */
  ghost function EndAt(fs: seq<Frame>, partial: Bytes, n: nat): Result
    requires n < |fs|
  {
    if fs[n].opcode == 8 then PeerClosed
    else if |partial| + |DataOf(fs[..n + 1])| > 67_108_864 then TooBig
    else Got(partial + DataOf(fs[..n + 1]))
  }

  lemma EndAtTail(fs: seq<Frame>, partial: Bytes, n: nat)
    requires 0 < n < |fs|
    ensures EndAt(fs, partial, n) == EndAt(fs[1..], partial + (if Data(fs[0]) then fs[0].payload else []), n - 1)
  {
    DataOfTail(fs, n);
    var mine := if Data(fs[0]) then fs[0].payload else [];
    assert partial + mine + DataOf(fs[1..][..n]) == partial + (mine + DataOf(fs[1..][..n]));
  }

  /** The first frame of a read, whether it goes on or not. */
  lemma FirstFrame(fs: seq<Frame>, partial: Bytes)
    requires fs != []
    ensures var h := Handle(fs[0], partial);
            if GoesOn(fs, partial, 0)
            then Passes(h) && h.partial == partial + (if Data(fs[0]) then fs[0].payload else [])
            else
              && !Passes(h)
              && EndAt(fs, partial, 0)
                 == (match h.events[0] case Message(m) => Got(m) case Closed => PeerClosed case _ => TooBig)
  {
    DataOfTail(fs, 0);
    assert fs[1..][..0] == [] && DataOf([]) == [];
    assert fs[0].payload + [] == fs[0].payload && partial + [] == partial;
    hide DataOf;
  }

  /** On any frames, however they are sent: a read passes over those that go on, and
      ends at the first that does not, as that frame has it. */
  lemma {:induction false} ReadEndsAt(ws: seq<Wire>, partial: Bytes, n: nat)
    requires n < |ws| && AllSendable(ws) && AllGoOn(FramesOf(ws), partial, n)
    ensures !GoesOn(FramesOf(ws), partial, n) ==>
              NextRead(OnWire(ws), partial).result == EndAt(FramesOf(ws), partial, n)
    decreases n
  {
    var fs := FramesOf(ws);
    ReadFrameFirst(ws, partial);
    FramesOfMore(ws);
    FirstFrame(fs, partial);
    hide OnWire, NextRead, FramesOf, EndAt, Handle, Passes, DataOf;
    if n == 0 {
    } else {
      GoOnTail(fs, partial, n);
      assert GoesOn(fs, partial, 0);
      GoesOnTail(fs, partial, n);
      EndAtTail(fs, partial, n);
      hide GoesOn, AllGoOn;
      ReadEndsAt(ws[1..], partial + (if Data(fs[0]) then fs[0].payload else []), n - 1);
    }
  }

  lemma GoesOnTail(fs: seq<Frame>, partial: Bytes, n: nat)
    requires 0 < n < |fs|
    ensures GoesOn(fs, partial, n) <==>
              GoesOn(fs[1..], partial + (if Data(fs[0]) then fs[0].payload else []), n - 1)
  {
    DataOfTail(fs, n);
  }

  /** And a read of frames that all go on waits for more. */
  lemma {:induction false} ReadWaitsIf(ws: seq<Wire>, partial: Bytes)
    requires AllSendable(ws) && AllGoOn(FramesOf(ws), partial, |ws|)
    ensures NextRead(OnWire(ws), partial).result == Waiting
    decreases |ws|
  {
    if ws == [] {
      FramesOfNothing();
    } else {
      var fs := FramesOf(ws);
      var mine := if Data(fs[0]) then fs[0].payload else [];
      ReadFrameFirst(ws, partial);
      FramesOfMore(ws);
      FirstFrame(fs, partial);
      hide OnWire, NextRead, FramesOf, Handle, Passes, DataOf, EndAt;
      GoOnTail(fs, partial, |ws|);
      assert GoesOn(fs, partial, 0);
      ReadWaitsIf(ws[1..], partial + mine);
    }
  }
}
