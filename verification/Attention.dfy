/** What a proxy reports of its model's turn, src/proxy.rs: the counters of host
    calls and waits in flight, the latest call not yet reported, and what the bus
    last took. Time is in milliseconds on a clock that never goes back. Reports
    are sent without the lock: several may be in flight, and any may be lost. */
module Attention {
  import opened Basics

  const REPORT_EVERY: int := 15_000

  datatype Turn = Waiting | Attending

  datatype Report = Report(turn: Turn, call: Option<int>)

  /** The fields of the source's `Attention`. */
  datatype View = View(
    calls: nat,
    waits: nat,
    unreported: Option<int>,
    reported: Option<(Turn, int)>)

  // ------------------------------------------------------------- operations --

  predicate Recent(at: int, now: int) { now - at < 2 * REPORT_EVERY }

  /** A call that went stale with none in flight is not reported any more. */
  function Forgotten(v: View, now: int): View {
    if v.unreported.Some? && !Recent(v.unreported.value, now) && v.calls == 0 then v.(unreported := None) else v
  }

  predicate Changed(v: View, turn: Turn) { v.reported.None? || v.reported.value.0 != turn }

  predicate Old(v: View, now: int) { v.reported.None? || now - v.reported.value.1 >= REPORT_EVERY }

  /** What `due` answers, once stale calls are forgotten. */
  function Due(v: View, refresh: bool, now: int): Option<Report> {
    if v.waits > 0 then
      if Changed(v, Waiting) || refresh then Some(Report(Waiting, v.unreported)) else None
    else if v.unreported.Some? then
      if Changed(v, Attending) || Old(v, now) || (refresh && v.calls > 0)
      then Some(Report(Attending, v.unreported)) else None
    else if refresh && v.calls > 0 then Some(Report(Attending, None))
    else None
  }

  function FlushAt(v: View): Option<int> {
    if v.waits > 0 || v.unreported.None? || v.reported.None? then None
    else Some(v.reported.value.1 + REPORT_EVERY)
  }

  function Sent(v: View, r: Report, now: int): View {
    v.(reported := Some((r.turn, now)),
       unreported := if v.unreported.Some? && v.unreported == r.call then None else v.unreported)
  }

  function Entered(v: View, waits: bool, now: int): View {
    View(v.calls + 1, v.waits + (if waits then 1 else 0), Some(now), v.reported)
  }

  function Less(n: nat): nat { if n == 0 then 0 else n - 1 }

  function Left(v: View, waits: bool, now: int): View {
    if waits then View(Less(v.calls), Less(v.waits), Some(now), v.reported)
    else v.(calls := Less(v.calls))
  }

  /** The record behind the lock. */
  class Tracker {
    var calls: nat
    var waits: nat
    var unreported: Option<int>
    var reported: Option<(Turn, int)>

    ghost function Value(): View
      reads this
    {
      View(calls, waits, unreported, reported)
    }

    constructor ()
      ensures Value() == View(0, 0, None, None)
    {
      calls, waits, unreported, reported := 0, 0, None, None;
    }

    // `ToolTurn::enter`.
    method Enter(blocks: bool, now: int)
      modifies this
      ensures Value() == Entered(old(Value()), blocks, now)
    {
      calls := calls + 1;
      if blocks { waits := waits + 1; }
      unreported := Some(now);
    }

    // `ToolTurn::drop`.
    method Leave(blocks: bool, now: int)
      modifies this
      ensures Value() == Left(old(Value()), blocks, now)
    {
      calls := Less(calls);
      if blocks {
        waits := Less(waits);
        unreported := Some(now);
      }
    }

    method TakeDue(refresh: bool, now: int) returns (r: Option<Report>)
      modifies this`unreported
      ensures Value() == Forgotten(old(Value()), now)
      ensures r == Due(Value(), refresh, now)
    {
      if unreported.Some? && !(now - unreported.value < 2 * REPORT_EVERY) && calls == 0 {
        unreported := None;
      }
      if waits > 0 {
        var changed := reported.None? || reported.value.0 != Waiting;
        if !(changed || refresh) { return None; }
        return Some(Report(Waiting, unreported));
      }
      if unreported.Some? {
        var changed := reported.None? || reported.value.0 != Attending;
        var stale := reported.None? || now - reported.value.1 >= REPORT_EVERY;
        if !(changed || stale || (refresh && calls > 0)) { return None; }
        return Some(Report(Attending, unreported));
      }
      if refresh && calls > 0 { return Some(Report(Attending, None)); }
      return None;
    }

    method Acknowledge(r: Report, now: int)
      modifies this`unreported, this`reported
      ensures Value() == Sent(old(Value()), r, now)
    {
      reported := Some((r.turn, now));
      if unreported.Some? && unreported == r.call {
        unreported := None;
      }
    }
  }

  // ------------------------------------------------------------------- runs --

  /** A report on its way, and which sign of the turn it was made for. */
  datatype Sending = Sending(report: Report, about: Option<nat>)

  /** `live` are the host calls running, and whether each is a bus wait; `sending`
      the reports out and not yet answered. The rest is history: when each sign of
      the turn working was seen (a call starting, a wait ending), which of these
      signs the bus was told of, which went stale and were let go, and whether every
      report was true when it was made. */
  datatype World = World(
    v: View,
    live: map<nat, bool>,
    sending: map<nat, Sending>,
    now: int,
    signs: seq<int>,
    told: set<nat>,
    letGo: set<nat>,
    truthful: bool)

  datatype Event =
    | Tick(ms: nat)
    | Begin(id: nat, waits: bool)
    | End(id: nat)
    | Poll(refresh: bool, id: nat)
    | Accepted(id: nat)
    | Lost(id: nat)

  /** A report says `waiting` only during a wait, `attending` only while a call runs
      or for one under thirty seconds old. */
  predicate True(r: Report, live: map<nat, bool>, now: int) {
    match r.turn
    case Waiting => exists id :: id in live && live[id]
    case Attending => (exists id :: id in live) || (r.call.Some? && now - r.call.value < 30_000)
  }

  ghost function Next(w: World, e: Event): World {
    match e
    case Tick(ms) => w.(now := w.now + ms)
    case Begin(id, waits) =>
      if id in w.live then w
      else w.(v := Entered(w.v, waits, w.now), live := w.live[id := waits], signs := w.signs + [w.now])
    case End(id) =>
      if id !in w.live then w
      else w.(v := Left(w.v, w.live[id], w.now), live := w.live - {id},
              signs := if w.live[id] then w.signs + [w.now] else w.signs)
    case Poll(refresh, id) => Polled(w, refresh, id)
    case Accepted(id) =>
      if id !in w.sending then w
      else
        var about := w.sending[id].about;
        w.(v := Sent(w.v, w.sending[id].report, w.now), sending := w.sending - {id},
           told := if about.Some? then w.told + {about.value} else w.told)
    case Lost(id) => w.(sending := w.sending - {id})
  }

  /** The report due is made, for the latest sign if that is still unreported. */
  ghost function Polled(w: World, refresh: bool, id: nat): World {
    var v := Forgotten(w.v, w.now);
    var r := Due(v, refresh, w.now);
    var w1 := w.(v := v, letGo := if v == w.v || w.signs == [] then w.letGo else w.letGo + {|w.signs| - 1});
    if r.None? || id in w.sending then w1
    else
      var about := if r.value.call.Some? && w.signs != [] then Some(|w.signs| - 1) else None;
      w1.(sending := w.sending[id := Sending(r.value, about)], truthful := w.truthful && True(r.value, w.live, w.now))
  }

  ghost function Run(w: World, es: seq<Event>): World
    decreases |es|
  {
    if es == [] then w else Run(Next(w, es[0]), es[1..])
  }

  ghost function Start(now: int): World {
    World(View(0, 0, None, None), map[], map[], now, [], {}, {}, true)
  }

  ghost function Blocked(live: map<nat, bool>): set<nat> { set id | id in live && live[id] }

  ghost predicate CountsOk(w: World) {
    w.v.calls == |w.live| && w.v.waits == |Blocked(w.live)|
  }

  ghost predicate SignsOk(w: World) {
    && (forall i | 0 <= i < |w.signs| :: w.signs[i] <= w.now)
    && (forall i, j | 0 <= i < j < |w.signs| :: w.signs[i] <= w.signs[j])
    && (w.v.unreported.Some? ==> w.signs != [] && w.v.unreported.value == w.signs[|w.signs| - 1])
  }

  /** A report names the time of the sign it was made for. */
  ghost predicate About(s: Sending, signs: seq<int>) {
    if s.about.Some? then s.about.value < |signs| && s.report.call == Some(signs[s.about.value])
    else s.report.call == None
  }

  ghost predicate SendingOk(w: World) {
    && (forall id <- w.sending :: About(w.sending[id], w.signs))
    && (forall m <- w.told :: m < |w.signs|)
    && (forall m <- w.letGo :: m < |w.signs| && w.now - w.signs[m] >= 30_000)
  }

  /** The latest sign is pending, or one of its instant was told, or it went stale. */
  ghost predicate LatestOk(w: World) {
    w.signs != [] ==>
      var n := |w.signs| - 1;
      || w.v.unreported == Some(w.signs[n])
      || (exists m <- w.told :: m < |w.signs| && w.signs[m] == w.signs[n])
      || n in w.letGo
  }

  ghost predicate CallsOk(w: World) { SignsOk(w) && SendingOk(w) && LatestOk(w) }

  ghost predicate Inv(w: World) { CountsOk(w) && CallsOk(w) && w.truthful }

  lemma BeginCounts(live: map<nat, bool>, id: nat, waits: bool)
    requires id !in live
    ensures var live' := live[id := waits];
            |live'| == |live| + 1 && |Blocked(live')| == |Blocked(live)| + (if waits then 1 else 0)
  {
    var live' := live[id := waits];
    assert live'.Keys == live.Keys + {id};
    assert Blocked(live') == if waits then Blocked(live) + {id} else Blocked(live);
  }

  lemma EndCounts(live: map<nat, bool>, id: nat)
    requires id in live
    ensures var live' := live - {id};
            |live| == |live'| + 1 && |Blocked(live)| == |Blocked(live')| + (if live[id] then 1 else 0)
  {
    var live' := live - {id};
    assert live.Keys == live'.Keys + {id};
    assert Blocked(live) == if live[id] then Blocked(live') + {id} else Blocked(live');
  }

  lemma PollIsTrue(w: World, refresh: bool)
    requires CountsOk(w)
    ensures var r := Due(Forgotten(w.v, w.now), refresh, w.now);
            r.Some? ==> True(r.value, w.live, w.now)
  {
    var v := Forgotten(w.v, w.now);
    if v.waits > 0 {
      var id :| id in Blocked(w.live);
      assert id in w.live && w.live[id];
    } else if v.calls > 0 {
      assert w.live.Keys != {};
      var id :| id in w.live.Keys;
      assert id in w.live;
    }
  }

  lemma BeginKeepsCounts(w: World, id: nat, waits: bool)
    requires CountsOk(w)
    ensures CountsOk(Next(w, Begin(id, waits)))
  {
    if id !in w.live {
      BeginCounts(w.live, id, waits);
    }
    hide Blocked;
  }

  lemma EndKeepsCounts(w: World, id: nat)
    requires CountsOk(w)
    ensures CountsOk(Next(w, End(id)))
  {
    if id in w.live {
      EndCounts(w.live, id);
    }
    hide Blocked;
  }

  lemma PollCounts(w: World, refresh: bool, id: nat)
    requires CountsOk(w) && w.truthful
    ensures CountsOk(Polled(w, refresh, id)) && Polled(w, refresh, id).truthful
  {
    PollIsTrue(w, refresh);
    hide True, Due, Blocked;
  }

  lemma NextCounts(w: World, e: Event)
    requires CountsOk(w) && w.truthful
    ensures CountsOk(Next(w, e)) && Next(w, e).truthful
  {
    hide Polled, Blocked;
    match e
    case Begin(id, waits) =>
      BeginKeepsCounts(w, id, waits);
      hide CountsOk;
    case End(id) =>
      EndKeepsCounts(w, id);
      hide CountsOk;
    case Poll(refresh, id) =>
      PollCounts(w, refresh, id);
      hide CountsOk;
    case _ =>
  }

  lemma PollCalls(w: World, refresh: bool, id: nat)
    requires CallsOk(w)
    ensures CallsOk(Polled(w, refresh, id))
  {
    hide True;
    DueIsPending(Forgotten(w.v, w.now), refresh, w.now);
    hide Due;
    var w' := Polled(w, refresh, id);
    assert SignsOk(w') && SendingOk(w');
    assert w'.v == w.v || |w.signs| - 1 in w'.letGo;
  }

  lemma DueIsPending(v: View, refresh: bool, now: int)
    ensures var r := Due(v, refresh, now); r.Some? && r.value.call.Some? ==> r.value.call == v.unreported
  {
  }

  lemma SignAdded(w: World, v: View, live: map<nat, bool>)
    requires CallsOk(w) && v.unreported == Some(w.now)
    ensures CallsOk(w.(v := v, live := live, signs := w.signs + [w.now]))
  {
  }

  lemma AcceptedCalls(w: World, id: nat)
    requires CallsOk(w)
    ensures CallsOk(Next(w, Accepted(id)))
  {
    var w' := Next(w, Accepted(id));
    if id in w.sending {
      assert About(w.sending[id], w.signs);
      assert SignsOk(w') && SendingOk(w');
      if w.v.unreported.Some? && w'.v.unreported.None? {
        assert w.sending[id].about.value in w'.told;
      }
    }
  }

  lemma NextCalls(w: World, e: Event)
    requires CallsOk(w)
    ensures CallsOk(Next(w, e))
  {
    hide True, Due, Forgotten;
    match e
    case Tick(ms) => TickCalls(w, ms);
    case Begin(id, waits) =>
      SignAdded(w, Entered(w.v, waits, w.now), w.live[id := waits]);
      hide SignsOk, SendingOk, LatestOk;
    case End(id) =>
      if id in w.live && w.live[id] {
        SignAdded(w, Left(w.v, w.live[id], w.now), w.live - {id});
        hide SignsOk, SendingOk, LatestOk;
      }
    case Poll(refresh, id) =>
      PollCalls(w, refresh, id);
      hide CallsOk, Polled;
    case Accepted(id) =>
      AcceptedCalls(w, id);
      hide CallsOk, Next;
    case Lost(id) => LostCalls(w, id);
  }

  lemma TickCalls(w: World, ms: nat)
    requires CallsOk(w)
    ensures CallsOk(w.(now := w.now + ms))
  {
  }

  lemma LostCalls(w: World, id: nat)
    requires CallsOk(w)
    ensures CallsOk(w.(sending := w.sending - {id}))
  {
  }

  lemma NextKeeps(w: World, e: Event)
    requires Inv(w)
    ensures Inv(Next(w, e))
  {
    hide Next, CountsOk, CallsOk;
    NextCounts(w, e);
    NextCalls(w, e);
  }

  lemma {:induction false} RunKeeps(w: World, es: seq<Event>)
    requires Inv(w)
    ensures Inv(Run(w, es))
    decreases |es|
  {
    hide Inv, Next;
    if es == [] {
    } else {
      NextKeeps(w, es[0]);
      RunKeeps(Next(w, es[0]), es[1..]);
    }
  }

  // --------------------------------------------------------------- theorems --

  /** In every run the counters are the calls and the waits in flight, every report
      was true when it was made, and whatever is due now is true. */
  lemma ReportsAreTrue(now: int, es: seq<Event>)
    ensures var w := Run(Start(now), es);
            && w.v.calls == |w.live|
            && w.v.waits == |set id | id in w.live && w.live[id]|
            && w.truthful
            && forall refresh: bool ::
                 var r := Due(Forgotten(w.v, w.now), refresh, w.now);
                 r.Some? ==> True(r.value, w.live, w.now)
  {
    assert Blocked(map[]) == {};
    RunKeeps(Start(now), es);
    var w := Run(Start(now), es);
    assert Blocked(w.live) == set id | id in w.live && w.live[id];
    forall refresh: bool
      ensures var r := Due(Forgotten(w.v, w.now), refresh, w.now);
              r.Some? ==> True(r.value, w.live, w.now)
    {
      PollIsTrue(w, refresh);
    }
  }

  /** In every run the latest sign of the turn is still to be reported, or went
      stale, or the bus was told of it or, exactly as good to the source, of another
      of the same clock reading. */
  lemma LatestCallIsNotLost(now: int, es: seq<Event>)
    ensures var w := Run(Start(now), es);
            w.signs != [] ==>
              var n := |w.signs| - 1;
              || w.v.unreported == Some(w.signs[n])
              || (exists m <- w.told :: m <= n && w.signs[m] == w.signs[n])
              || w.now - w.signs[n] >= 30_000
  {
    assert Blocked(map[]) == {};
    RunKeeps(Start(now), es);
    hide Run, CountsOk, SignsOk;
  }

  /** So a call that began at an instant of its own was itself told, if it is neither
      pending nor stale. */
  lemma UntiedCallWasTold(now: int, es: seq<Event>)
    ensures var w := Run(Start(now), es);
            var n := |w.signs| - 1;
            w.signs != [] && (n > 0 ==> w.signs[n - 1] < w.signs[n]) ==>
              w.v.unreported == Some(w.signs[n]) || n in w.told || w.now - w.signs[n] >= 30_000
  {
    assert Blocked(map[]) == {};
    RunKeeps(Start(now), es);
    hide Run, CountsOk;
    UntiedHere(Run(Start(now), es));
  }

  lemma UntiedHere(w: World)
    requires CallsOk(w)
    ensures var n := |w.signs| - 1;
            w.signs != [] && (n > 0 ==> w.signs[n - 1] < w.signs[n]) ==>
              w.v.unreported == Some(w.signs[n]) || n in w.told || w.now - w.signs[n] >= 30_000
  {
    var n := |w.signs| - 1;
    if w.signs != [] && (n > 0 ==> w.signs[n - 1] < w.signs[n]) {
      forall m <- w.told | w.signs[m] == w.signs[n] ensures m == n {
        Untied(w.signs, m);
      }
    }
  }

  lemma Untied(signs: seq<int>, m: nat)
    requires m < |signs| && (forall i, j | 0 <= i < j < |signs| :: signs[i] <= signs[j])
    requires |signs| > 1 ==> signs[|signs| - 2] < signs[|signs| - 1]
    ensures signs[m] == signs[|signs| - 1] ==> m == |signs| - 1
  {
  }

  /** The exception is real: two calls begin at one instant, the report of the first
      is accepted, and the second is pending no more, untold. */
  lemma TiedCallIsSettled(now: int)
    ensures var w := Run(Start(now), [Begin(1, false), Poll(false, 1), Begin(2, false), Accepted(1)]);
            |w.signs| == 2 && w.v.unreported.None? && w.told == {0} && w.letGo == {}
  {
    var w0 := Start(now);
    var w1 := Next(w0, Begin(1, false));
    assert w1.v == View(1, 0, Some(now), None) && w1.signs == [now] && w1.now == now;
    var w2 := Next(w1, Poll(false, 1));
    assert w2.sending == map[1 := Sending(Report(Attending, Some(now)), Some(0))] && w2.v == w1.v;
    assert w2.signs == [now] && w2.told == {} && w2.letGo == {} && w2.now == now && w2.live == w1.live;
    var w3 := Next(w2, Begin(2, false));
    assert w3.v.unreported == Some(now) && w3.signs == [now, now] && w3.sending == w2.sending;
    var w4 := Next(w3, Accepted(1));
    hide Next;
    RunFour(w0, Begin(1, false), Poll(false, 1), Begin(2, false), Accepted(1));
  }

  lemma RunCons(w: World, e: Event, es: seq<Event>)
    ensures Run(w, [e] + es) == Run(Next(w, e), es)
  {
    hide Next;
    assert ([e] + es)[1..] == es;
  }

  lemma RunFour(w: World, a: Event, b: Event, c: Event, d: Event)
    ensures Run(w, [a, b, c, d]) == Next(Next(Next(Next(w, a), b), c), d)
  {
    hide Next;
    var w1 := Next(w, a);
    var w2 := Next(w1, b);
    assert [a] + [b, c, d] == [a, b, c, d] && [b] + [c, d] == [b, c, d] && [c] + [d] == [c, d] && [d] + [] == [d];
    RunCons(w, a, [b, c, d]);
    RunCons(w1, b, [c, d]);
    RunCons(w2, c, [d]);
    RunCons(Next(w2, c), d, []);
  }

  /** An answered report settles the pending call exactly if it names the instant of
      the latest sign. */
  lemma AcknowledgedExactly(now: int, es: seq<Event>, id: nat)
    ensures var w := Run(Start(now), es);
            var w' := Next(w, Accepted(id));
            id in w.sending && w.v.unreported.Some? ==>
              && w.signs != []
              && (w'.v.unreported.None? <==> w.sending[id].report.call == Some(w.signs[|w.signs| - 1]))
  {
    assert Blocked(map[]) == {};
    RunKeeps(Start(now), es);
    hide Run, CountsOk, SendingOk, LatestOk;
    AcknowledgedHere(Run(Start(now), es), id);
    hide Next, SignsOk;
  }

  lemma AcknowledgedHere(w: World, id: nat)
    ensures id in w.sending && SignsOk(w) && w.v.unreported.Some? ==>
              && w.signs != []
              && (Next(w, Accepted(id)).v.unreported.None? <==>
                    w.sending[id].report.call == Some(w.signs[|w.signs| - 1]))
  {
  }

  /** `flush_at` is when the throttle lets a pending call through: with no wait in
      flight, a call still worth reporting is due at once if the bus does not have
      the window as attending, and otherwise from that moment on and not before. */
  lemma FlushedOnTime(v: View, now: int)
    requires v.waits == 0 && v.unreported.Some?
    requires Recent(v.unreported.value, now) || v.calls > 0
    ensures Due(Forgotten(v, now), false, now).Some? <==>
              v.reported.None? || v.reported.value.0 == Waiting || now >= FlushAt(v).value
  {
  }
}
