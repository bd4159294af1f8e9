/** The window watcher of src/hook.rs: any number of watcher processes of one
    window share a state file, read and written under the configuration lock. A
    newer watcher takes the window over; the owner reads the bus, compares with
    the mark on file, records the new mark and wakes the window for news. A run
    is any interleaving of their steps with the bus's traffic; a watcher may stop
    or crash anywhere. */
module Watch {
  import opened Basics

  type Token = nat

  datatype WatchState = WatchState(token: Token, direct: int, newestDirect: int, inbox: int, primed: bool)

  datatype Reading = Reading(direct: int, newestDirect: int, inbox: Option<int>)

  datatype Stepped = Stepped(wake: bool, next: WatchState)

  function Max(a: int, b: int): int { if a >= b then a else b }

  // Two reasons to wake: the direct mark moves while the unread count is not zero,
  // or the inbox holds more than it did. Either way the reading becomes the mark.
  function WatchStep(seen: WatchState, r: Reading): Stepped {
    var inbox := match r.inbox case Some(n) => n case None => seen.inbox;
    Stepped((r.direct > 0 && r.newestDirect > seen.newestDirect) || inbox > seen.inbox,
            WatchState(seen.token, r.direct, Max(r.newestDirect, seen.newestDirect), inbox, true))
  }

  // A first reading is where the window stands, not news.
  function Primed(token: Token, r: Reading): WatchState {
    WatchState(token, r.direct, r.newestDirect, match r.inbox case Some(n) => n case None => 0, true)
  }

  // ------------------------------------------------------------------- bus --

  datatype Direct = Direct(id: nat, read: bool)

  /** What is addressed to the window: its direct messages, oldest first, and
      how many conversation messages ever arrived and were delivered. */
  datatype Bus = Bus(directs: seq<Direct>, arrived: nat, delivered: nat)

  ghost predicate BusOk(b: Bus) {
    && b.delivered <= b.arrived
    && (forall i, j | 0 <= i < j < |b.directs| :: b.directs[i].id < b.directs[j].id)
    && (forall i | 0 <= i < |b.directs| :: b.directs[i].id > 0)
  }

  function Unread(ds: seq<Direct>): nat {
    if ds == [] then 0 else (if ds[0].read then 0 else 1) + Unread(ds[1..])
  }

  function Newest(b: Bus): nat { if b.directs == [] then 0 else b.directs[|b.directs| - 1].id }

  /** `b` may have become `b'`: messages arrive and are read, none disappears. */
  ghost predicate Later(b: Bus, b': Bus) {
    && b.arrived <= b'.arrived && b.delivered <= b'.delivered && |b.directs| <= |b'.directs|
    && forall i | 0 <= i < |b.directs| :: b.directs[i].id == b'.directs[i].id
  }

  /** The three calls of `pending_for_window`, made one after the other: unread
      count at `counted`, newest message at `dated`, inbox at `inboxed`. */
  function ReadingOf(counted: Bus, dated: Bus, inboxed: Bus, ok: bool): Reading {
    Reading(Unread(counted.directs), Newest(dated),
            if ok then Some(inboxed.arrived - inboxed.delivered) else None)
  }

  // ------------------------------------------------------------- processes --

  datatype Phase =
    | Looping
    | Counted(b1: Bus)
    | Dated(b1: Bus, b2: Bus)
    | Ready(b1: Bus, b2: Bus, b3: Bus, ok: bool)

  datatype Watcher = Watcher(seen: Option<WatchState>, phase: Phase)

  /** What a wake was for: the newest direct message, or the latest of the inbox
      arrivals, counted from the first. */
  datatype Charge = ForDirect(id: int) | ForInbox(nth: int)

  /** `since` is the bus when the inbox count on file was read (an empty bus while
      it never was); `used` the tokens ever drawn; `wakes` the history. */
  datatype World = World(
    file: Option<WatchState>,
    watchers: map<Token, Watcher>,
    bus: Bus,
    since: Bus,
    used: set<Token>,
    wakes: seq<Charge>)

  datatype Event =
    | Start(token: Token)
    | Count(token: Token)
    | Date(token: Token)
    | Inbox(token: Token, ok: bool)
    | Record(token: Token)
    | Retry(token: Token)
    | End(token: Token)
    | Arrive(id: nat)
    | ReadUpTo(n: nat)
    | InboxArrives
    | InboxDelivers

  const EMPTY_BUS: Bus := Bus([], 0, 0)

  const START: World := World(None, map[], EMPTY_BUS, EMPTY_BUS, {}, [])

  function Reads(ds: seq<Direct>, n: nat): (r: seq<Direct>)
    ensures |r| == |ds|
  {
    seq(|ds|, i requires 0 <= i < |ds| => if i < n then ds[i].(read := true) else ds[i])
  }

  predicate Owns(w: World, token: Token) { w.file.Some? && w.file.value.token == token }

  predicate PrimedFile(w: World) { w.file.Some? && w.file.value.primed }

  /** What a watcher makes of its reading. */
  function Decide(seen: Option<WatchState>, token: Token, r: Reading): Stepped {
    match seen
    case Some(s) => WatchStep(s, r)
    case None => Stepped(false, Primed(token, r))
  }

  function ChargeOf(seen: WatchState, r: Reading, b3: Bus): Charge {
    if r.direct > 0 && r.newestDirect > seen.newestDirect then ForDirect(r.newestDirect) else ForInbox(b3.arrived)
  }

  /** Taking the window over, under the lock: what the previous watcher recorded
      is kept, unless it never recorded anything. */
  function Claimed(w: World, token: Token): World {
    var claim := if PrimedFile(w) then w.file.value.(token := token) else WatchState(token, 0, 0, 0, false);
    var seen := if PrimedFile(w) then Some(claim) else None;
    w.(file := Some(claim), watchers := w.watchers[token := Watcher(seen, Looping)], used := w.used + {token})
  }

  /** Recording, under the lock: only the owner writes, and a wake ends it. */
  function Recorded(w: World, token: Token): World
    requires token in w.watchers && w.watchers[token].phase.Ready?
  {
    var me := w.watchers[token];
    var r := ReadingOf(me.phase.b1, me.phase.b2, me.phase.b3, me.phase.ok);
    var d := Decide(me.seen, token, r);
    if !Owns(w, token) then w.(watchers := w.watchers - {token})
    else
      w.(file := Some(d.next),
         since := if me.phase.ok then me.phase.b3 else w.since,
         wakes := if d.wake && me.seen.Some? then w.wakes + [ChargeOf(me.seen.value, r, me.phase.b3)] else w.wakes,
         watchers := if d.wake then w.watchers - {token}
                     else w.watchers[token := Watcher(Some(d.next), Looping)])
  }

  function Next(w: World, e: Event): World {
    match e
    case Start(t) => if t in w.used then w else Claimed(w, t)
    case Count(t) =>
      if t in w.watchers && w.watchers[t].phase.Looping?
      then w.(watchers := w.watchers[t := w.watchers[t].(phase := Counted(w.bus))]) else w
    case Date(t) =>
      if t in w.watchers && w.watchers[t].phase.Counted?
      then w.(watchers := w.watchers[t := w.watchers[t].(phase := Dated(w.watchers[t].phase.b1, w.bus))]) else w
    case Inbox(t, ok) =>
      if t in w.watchers && w.watchers[t].phase.Dated?
      then w.(watchers := w.watchers[t := w.watchers[t].(phase :=
                Ready(w.watchers[t].phase.b1, w.watchers[t].phase.b2, w.bus, ok))]) else w
    case Record(t) => if t in w.watchers && w.watchers[t].phase.Ready? then Recorded(w, t) else w
    case Retry(t) => if t in w.watchers then w.(watchers := w.watchers[t := w.watchers[t].(phase := Looping)]) else w
    case End(t) => w.(watchers := w.watchers - {t})
    case Arrive(id) =>
      if id > Newest(w.bus) then w.(bus := w.bus.(directs := w.bus.directs + [Direct(id, false)])) else w
    case ReadUpTo(n) => w.(bus := w.bus.(directs := Reads(w.bus.directs, n)))
    case InboxArrives => w.(bus := w.bus.(arrived := w.bus.arrived + 1))
    case InboxDelivers =>
      if w.bus.delivered < w.bus.arrived then w.(bus := w.bus.(delivered := w.bus.delivered + 1)) else w
  }

  function Run(w: World, es: seq<Event>): World
    decreases |es|
  {
    if es == [] then w else Run(Next(w, es[0]), es[1..])
  }

  // -------------------------------------------------------------- invariant --

  /** Readings under way: taken in order, after `since` and before now. */
  ghost predicate InOrder(p: Phase, since: Bus, now: Bus) {
    match p
    case Looping => true
    case Counted(b1) => Later(since, b1) && Later(b1, now) && BusOk(b1)
    case Dated(b1, b2) => Later(since, b1) && Later(b1, b2) && Later(b2, now) && BusOk(b1) && BusOk(b2)
    case Ready(b1, b2, b3, _) =>
      Later(since, b1) && Later(b1, b2) && Later(b2, b3) && Later(b3, now) && BusOk(b1) && BusOk(b2) && BusOk(b3)
  }

  /** The owner works from the file: what it has seen is what is recorded, and
      its reading is later than the recorded one. */
  ghost predicate OwnerInStep(w: World) {
    w.file.Some? && w.file.value.token in w.watchers ==>
      var me := w.watchers[w.file.value.token];
      && me.seen == (if w.file.value.primed then w.file else None)
      && InOrder(me.phase, w.since, w.bus)
  }

  /** No arrival is charged twice, and none at or below the mark is left to
      charge. */
  ghost predicate ChargedBelow(wakes: seq<Charge>, direct: int, inbox: int) {
    && (forall i | 0 <= i < |wakes| :: if wakes[i].ForDirect? then wakes[i].id <= direct else wakes[i].nth <= inbox)
    && (forall i, j | 0 <= i < j < |wakes| :: wakes[i] != wakes[j])
  }

  ghost predicate Inv(w: World) {
    && BusOk(w.bus) && BusOk(w.since) && Later(w.since, w.bus)
    && w.watchers.Keys <= w.used
    && (w.file.Some? ==> w.file.value.token in w.used)
    && OwnerInStep(w)
    && (PrimedFile(w) ==> w.file.value.newestDirect >= 0 && w.file.value.inbox == w.since.arrived - w.since.delivered)
    && (if PrimedFile(w) then ChargedBelow(w.wakes, w.file.value.newestDirect, w.since.arrived)
        else w.wakes == [] && w.since == EMPTY_BUS)
  }

  /** What a step or a run may do to the marks: the primed direct mark and the
      recorded inbox arrivals never go down, whoever is not the owner any more
      never becomes it again, and each new wake is charged to an arrival above
      the old marks that really happened. */
  ghost predicate Advances(w: World, w': World) {
    && (PrimedFile(w) ==> PrimedFile(w') && w.file.value.newestDirect <= w'.file.value.newestDirect)
    && w.since.arrived <= w'.since.arrived
    && w.used <= w'.used && Later(w.bus, w'.bus)
    && (forall t <- w.used :: !Owns(w, t) ==> !Owns(w', t))
    && |w.wakes| <= |w'.wakes| && w'.wakes[..|w.wakes|] == w.wakes
    && (forall i | |w.wakes| <= i < |w'.wakes| :: News(w, w', w'.wakes[i]))
  }

  ghost predicate News(w: World, w': World, c: Charge) {
    match c
    case ForDirect(id) =>
      (PrimedFile(w) ==> id > w.file.value.newestDirect) && exists d <- w'.bus.directs :: d.id == id
    case ForInbox(n) => w.since.arrived < n <= w'.bus.arrived
  }

  // -------------------------------------------------------------- the pieces --

  lemma LaterTrans(a: Bus, b: Bus, c: Bus)
    requires Later(a, b) && Later(b, c)
    ensures Later(a, c)
  {}

  lemma NewestGrows(a: Bus, b: Bus)
    requires Later(a, b) && BusOk(b)
    ensures Newest(a) <= Newest(b)
  {}

  lemma BusStep(w: World, e: Event)
    requires BusOk(w.bus)
    requires e.Arrive? || e.ReadUpTo? || e.InboxArrives? || e.InboxDelivers?
    ensures BusOk(Next(w, e).bus) && Later(w.bus, Next(w, e).bus) && Next(w, e) == w.(bus := Next(w, e).bus)
  {
  }

  lemma InOrderLater(p: Phase, since: Bus, a: Bus, b: Bus)
    requires InOrder(p, since, a) && Later(a, b)
    ensures InOrder(p, since, b)
  {
    match p
    case Looping =>
    case Counted(b1) => LaterTrans(b1, a, b);
    case Dated(b1, b2) => LaterTrans(b2, a, b);
    case Ready(b1, b2, b3, _) => LaterTrans(b3, a, b);
  }

  lemma BusKeeps(w: World, e: Event)
    requires Inv(w)
    requires e.Arrive? || e.ReadUpTo? || e.InboxArrives? || e.InboxDelivers?
    ensures Inv(Next(w, e)) && Advances(w, Next(w, e))
  {
    BusStep(w, e);
    hide Next, Later, BusOk;
    LaterTrans(w.since, w.bus, Next(w, e).bus);
    if w.file.Some? && w.file.value.token in w.watchers {
      InOrderLater(w.watchers[w.file.value.token].phase, w.since, w.bus, Next(w, e).bus);
    }
  }

  lemma LaterSelf(b: Bus)
    ensures Later(b, b)
  {}

  lemma StartKeeps(w: World, t: Token)
    requires Inv(w)
    ensures Inv(Next(w, Start(t))) && Advances(w, Next(w, Start(t)))
  {
    hide Later, BusOk;
    LaterSelf(w.bus);
  }

  lemma ReadKeeps(w: World, e: Event)
    requires Inv(w) && (e.Count? || e.Date? || e.Inbox? || e.Retry? || e.End?)
    ensures Inv(Next(w, e)) && Advances(w, Next(w, e))
  {
    hide Later, BusOk;
    LaterSelf(w.bus);
  }

  /** The heart: what the owner's recording does to the marks and the charges. */
  lemma RecordCharges(w: World, t: Token)
    requires Inv(w) && t in w.watchers && w.watchers[t].phase.Ready? && Owns(w, t)
    ensures var w' := Recorded(w, t);
            var me := w.watchers[t];
            var r := ReadingOf(me.phase.b1, me.phase.b2, me.phase.b3, me.phase.ok);
            && PrimedFile(w') && w'.file.value.newestDirect >= r.newestDirect >= 0
            && (PrimedFile(w) ==> w.file.value.newestDirect <= w'.file.value.newestDirect)
            && w.since.arrived <= w'.since.arrived
            && w'.file.value.inbox == w'.since.arrived - w'.since.delivered
            && (w'.wakes != w.wakes ==>
                  && PrimedFile(w) && |w'.wakes| == |w.wakes| + 1 && w'.wakes[..|w.wakes|] == w.wakes
                  && var c := w'.wakes[|w.wakes|];
                     match c
                     case ForDirect(id) => id == r.newestDirect && w.file.value.newestDirect < id
                     case ForInbox(n) => w.since.arrived < n == w'.since.arrived)
  {
    var me := w.watchers[t];
    LaterTrans(w.since, me.phase.b1, me.phase.b2);
    LaterTrans(w.since, me.phase.b2, me.phase.b3);
  }

  lemma RecordShape(w: World, t: Token)
    requires Inv(w) && t in w.watchers && w.watchers[t].phase.Ready? && Owns(w, t)
    ensures var w' := Recorded(w, t);
            && w'.bus == w.bus && w'.used == w.used && w'.watchers.Keys <= w.watchers.Keys
            && Owns(w', t) && OwnerInStep(w')
            && BusOk(w'.since) && Later(w'.since, w'.bus)
  {
    hide Later, BusOk, ReadingOf, ChargeOf;
  }

  lemma ChargeOnce(wakes: seq<Charge>, direct: int, inbox: int, c: Charge, direct': int, inbox': int)
    requires ChargedBelow(wakes, direct, inbox) && direct <= direct' && inbox <= inbox'
    requires if c.ForDirect? then direct < c.id <= direct' else inbox < c.nth <= inbox'
    ensures ChargedBelow(wakes + [c], direct', inbox')
  {}

  lemma RecordKeeps(w: World, t: Token)
    requires Inv(w)
    ensures Inv(Next(w, Record(t))) && Advances(w, Next(w, Record(t)))
  {
    hide Recorded, Inv, Advances;
    if t in w.watchers && w.watchers[t].phase.Ready? {
      if Owns(w, t) {
        OwnerKeeps(w, t);
      } else {
        StrangerKeeps(w, t);
      }
    } else {
      AdvancesSelf(w);
    }
  }

  lemma StrangerKeeps(w: World, t: Token)
    requires Inv(w) && t in w.watchers && w.watchers[t].phase.Ready? && !Owns(w, t)
    ensures Inv(Recorded(w, t)) && Advances(w, Recorded(w, t))
  {
    LaterSelf(w.bus);
    hide Later, BusOk, ReadingOf, ChargeOf, WatchStep;
  }

  lemma OwnerKeeps(w: World, t: Token)
    requires Inv(w) && t in w.watchers && w.watchers[t].phase.Ready? && Owns(w, t)
    ensures Inv(Recorded(w, t)) && Advances(w, Recorded(w, t))
  {
    LaterSelf(w.bus);
    RecordCharges(w, t);
    RecordShape(w, t);
    OwnerCharges(w, t);
    hide Recorded, OwnerInStep, Later, BusOk, ReadingOf, ChargedBelow, News;
  }

  lemma OwnerCharges(w: World, t: Token)
    requires Inv(w) && t in w.watchers && w.watchers[t].phase.Ready? && Owns(w, t)
    ensures var w' := Recorded(w, t);
            && PrimedFile(w') && ChargedBelow(w'.wakes, w'.file.value.newestDirect, w'.since.arrived)
            && |w.wakes| <= |w'.wakes| && w'.wakes[..|w.wakes|] == w.wakes
            && forall i | |w.wakes| <= i < |w'.wakes| :: News(w, w', w'.wakes[i])
  {
    RecordCharges(w, t);
    RecordShape(w, t);
    var w' := Recorded(w, t);
    hide Recorded, OwnerInStep, Later, BusOk, ReadingOf, ChargedBelow;
    if w'.wakes == w.wakes {
      NothingCharged();
      if PrimedFile(w) {
        ChargedRises(w.wakes, w.file.value.newestDirect, w.since.arrived, w'.file.value.newestDirect, w'.since.arrived);
      }
    } else {
      var c := w'.wakes[|w.wakes|];
      assert w'.wakes == w.wakes + [c];
      ChargeOnce(w.wakes, w.file.value.newestDirect, w.since.arrived, c, w'.file.value.newestDirect, w'.since.arrived);
      ChargeHappened(w, t, c, w'.since.arrived);
    }
  }

  lemma NothingCharged()
    ensures forall d, n :: ChargedBelow([], d, n)
  {}

  lemma ChargedRises(wakes: seq<Charge>, direct: int, inbox: int, direct': int, inbox': int)
    requires ChargedBelow(wakes, direct, inbox) && direct <= direct' && inbox <= inbox'
    ensures ChargedBelow(wakes, direct', inbox')
  {}

  /** The arrival a wake is charged to is on the bus. */
  lemma ChargeHappened(w: World, t: Token, c: Charge, n: int)
    requires Inv(w) && t in w.watchers && w.watchers[t].phase.Ready? && Owns(w, t)
    requires var p := w.watchers[t].phase;
             match c
             case ForDirect(id) =>
               id == ReadingOf(p.b1, p.b2, p.b3, p.ok).newestDirect && w.file.value.newestDirect < id
             case ForInbox(nth) => nth == n
    requires n == Recorded(w, t).since.arrived && PrimedFile(w)
    ensures c.ForDirect? ==> exists d <- w.bus.directs :: d.id == c.id
    ensures c.ForInbox? ==> c.nth <= w.bus.arrived
  {
    var p := w.watchers[t].phase;
    if c.ForDirect? {
      LaterTrans(p.b2, p.b3, w.bus);
      NewestIsThere(p.b2);
      StillThere(p.b2, w.bus, c.id);
    }
  }

  /** A reading under way began after the recorded one. */
  lemma LaterSince(since: Bus, p: Phase, now: Bus)
    requires p.Ready? && InOrder(p, since, now)
    ensures Later(since, p.b3)
  {
    LaterTrans(since, p.b1, p.b2);
    LaterTrans(since, p.b2, p.b3);
  }

  lemma NewestIsThere(b: Bus)
    ensures b.directs != [] ==> exists d <- b.directs :: d.id == Newest(b)
  {
    if b.directs != [] {
      assert b.directs[|b.directs| - 1] in b.directs;
    }
  }

  lemma StillThere(a: Bus, b: Bus, id: int)
    requires Later(a, b) && exists d <- a.directs :: d.id == id
    ensures exists d <- b.directs :: d.id == id
  {
    var i :| 0 <= i < |a.directs| && a.directs[i].id == id;
    assert b.directs[i] in b.directs;
  }

  lemma NextKeeps(w: World, e: Event)
    requires Inv(w)
    ensures Inv(Next(w, e)) && Advances(w, Next(w, e))
  {
    hide *;
    match e
    case Start(t) => StartKeeps(w, t);
    case Record(t) => RecordKeeps(w, t);
    case Arrive(_) => BusKeeps(w, e);
    case ReadUpTo(_) => BusKeeps(w, e);
    case InboxArrives => BusKeeps(w, e);
    case InboxDelivers => BusKeeps(w, e);
    case _ => ReadKeeps(w, e);
  }

  lemma AdvancesTrans(a: World, b: World, c: World)
    requires Advances(a, b) && Advances(b, c)
    ensures Advances(a, c)
  {
    LaterTrans(a.bus, b.bus, c.bus);
    assert c.wakes[..|a.wakes|] == c.wakes[..|b.wakes|][..|a.wakes|];
    forall i | |a.wakes| <= i < |c.wakes| ensures News(a, c, c.wakes[i]) {
      if i < |b.wakes| {
        assert c.wakes[i] == c.wakes[..|b.wakes|][i];
        assert News(a, b, b.wakes[i]);
        if b.wakes[i].ForDirect? {
          StillThere(b.bus, c.bus, b.wakes[i].id);
        }
      } else {
        assert News(b, c, c.wakes[i]);
      }
    }
  }

  /** Over every interleaving: from any reachable world on, the marks only
      advance, an owner that was replaced never owns, so never writes, the state
      again, and every wake is for an arrival above the marks it started from. */
  lemma {:induction false} RunKeeps(w: World, es: seq<Event>)
    requires Inv(w)
    ensures Inv(Run(w, es)) && Advances(w, Run(w, es))
    decreases |es|
  {
    hide Inv, Advances, Next;
    if es == [] {
      AdvancesSelf(w);
    } else {
      NextKeeps(w, es[0]);
      RunKeeps(Next(w, es[0]), es[1..]);
      AdvancesTrans(w, Next(w, es[0]), Run(Next(w, es[0]), es[1..]));
    }
  }

  lemma AdvancesSelf(w: World)
    ensures Advances(w, w)
  {}

  // --------------------------------------------------------------- theorems --

  lemma StartIsSound()
    ensures Inv(START)
  {}

  /** In every run, no two wakes are charged to the same arrival, and every
      charge is at or below the recorded marks. */
  lemma WakesAreDistinct(es: seq<Event>)
    ensures var w := Run(START, es);
            forall i, j | 0 <= i < j < |w.wakes| :: w.wakes[i] != w.wakes[j]
  {
    StartIsSound();
    RunKeeps(START, es);
  }

  /** A watcher that finds another token on file never writes the file again. */
  lemma ReplacedNeverWrites(before: seq<Event>, later: seq<Event>, t: Token)
    ensures var w := Run(START, before);
            var w' := Run(w, later);
            t in w.used && !Owns(w, t) ==> !Owns(w', t) && Next(w', Record(t)).file == w'.file
  {
    StartIsSound();
    RunKeeps(START, before);
    RunKeeps(Run(START, before), later);
  }

  /** What was there at a first reading whose inbox count was readable never
      wakes the window: every later wake is for a direct message newer than the
      newest then, or for an inbox arrival after those counted then. */
  lemma BacklogNeverWakes(before: seq<Event>, t: Token, later: seq<Event>)
    ensures var w := Run(START, before);
            var w1 := Next(w, Record(t));
            var w2 := Run(w1, later);
            t in w.watchers && w.watchers[t].phase.Ready? && Owns(w, t) && !PrimedFile(w) ==>
              var p := w.watchers[t].phase;
              && w1.wakes == w.wakes == [] && w2.wakes[..0] == []
              && forall c <- w2.wakes ::
                   match c
                   case ForDirect(id) => id > Newest(p.b2)
                   case ForInbox(n) => p.ok ==> n > p.b3.arrived
  {
    StartIsSound();
    RunKeeps(START, before);
    var w := Run(START, before);
    if t in w.watchers && w.watchers[t].phase.Ready? && Owns(w, t) && !PrimedFile(w) {
      RecordKeeps(w, t);
      var w1 := Next(w, Record(t));
      RunKeeps(w1, later);
      var w2 := Run(w1, later);
      assert w1.wakes == [];
      hide Run, Inv;
      forall c | c in w2.wakes
        ensures match c
                case ForDirect(id) => id > Newest(w.watchers[t].phase.b2)
                case ForInbox(n) => w.watchers[t].phase.ok ==> n > w.watchers[t].phase.b3.arrived
      {
        var i :| 0 <= i < |w2.wakes| && w2.wakes[i] == c;
        assert News(w1, w2, w2.wakes[i]);
      }
    }
  }

  lemma {:induction false} UnreadCounts(ds: seq<Direct>)
    ensures Unread(ds) > 0 <==> exists d <- ds :: !d.read
    decreases |ds|
  {
    if ds == [] {
    } else {
      UnreadCounts(ds[1..]);
      assert forall d :: d in ds <==> d == ds[0] || d in ds[1..];
    }
  }

  /** After priming, a message above the mark that is unread when the owner
      counts wakes the window at that reading's recording. */
  lemma UnreadNewsWakes(es: seq<Event>, t: Token)
    ensures var w := Run(START, es);
            t in w.watchers && w.watchers[t].phase.Ready? && Owns(w, t) && PrimedFile(w) ==>
              var p := w.watchers[t].phase;
              (exists d <- p.b1.directs :: !d.read && d.id > w.file.value.newestDirect) ==>
                |Next(w, Record(t)).wakes| == |w.wakes| + 1
  {
    StartIsSound();
    RunKeeps(START, es);
    var w := Run(START, es);
    hide Run, Inv, Next;
    if t in w.watchers && w.watchers[t].phase.Ready? && Owns(w, t) && PrimedFile(w) {
      if d :| d in w.watchers[t].phase.b1.directs && !d.read && d.id > w.file.value.newestDirect {
        UnreadWakesHere(w, t, d);
      }
    }
  }

  lemma UnreadWakesHere(w: World, t: Token, d: Direct)
    requires Inv(w) && t in w.watchers && w.watchers[t].phase.Ready? && Owns(w, t) && PrimedFile(w)
    requires d in w.watchers[t].phase.b1.directs && !d.read && d.id > w.file.value.newestDirect
    ensures |Next(w, Record(t)).wakes| == |w.wakes| + 1
  {
    var p := w.watchers[t].phase;
    UnreadCounts(p.b1.directs);
    NewestIsMost(p.b1, d);
    NewestGrows(p.b1, p.b2);
    hide Unread, Newest, Later, BusOk, ChargedBelow;
  }

  /** A message that arrives between the two calls: the window is not woken for
      it, now or ever, though it stays unread. */
  lemma LateArrivalIsMissed()
    ensures var w := Run(Run(START, [Start(1), Count(1), Date(1), Inbox(1, true), Record(1)]),
                         [Count(1), Arrive(7), Date(1), Inbox(1, true), Record(1)]);
            && w.wakes == [] && w.file == Some(WatchState(1, 0, 7, 0, true))
            && w.bus.directs == [Direct(7, false)]
  {
    hide Next, Run, ReadingOf;
    var w1 := Next(START, Start(1));
    FirstClaim(1);
    var w4 := Next(Next(Next(w1, Count(1)), Date(1)), Inbox(1, true));
    QuietReading(w1, 1);
    var w5 := Next(w4, Record(1));
    NothingRead(EMPTY_BUS, EMPTY_BUS);
    RecordsFirst(w4, 1);
    RunFive(START, Start(1), Count(1), Date(1), Inbox(1, true), Record(1));
    var v4 := Next(Next(Next(Next(w5, Count(1)), Arrive(7)), Date(1)), Inbox(1, true));
    SplitReading(w5, 1, 7);
    assert EMPTY_BUS.directs + [Direct(7, false)] == [Direct(7, false)];
    NothingRead(EMPTY_BUS, Bus([Direct(7, false)], 0, 0));
    RecordsQuiet(v4, 1, Reading(0, 7, Some(0)));
    RunFive(w5, Count(1), Arrive(7), Date(1), Inbox(1, true), Record(1));
  }

  lemma FirstClaim(t: Token)
    ensures var w := Next(START, Start(t));
            && t in w.watchers && w.watchers[t] == Watcher(None, Looping)
            && w.file == Some(WatchState(t, 0, 0, 0, false)) && w.wakes == [] && w.bus == EMPTY_BUS
  {}

  lemma QuietReading(w: World, t: Token)
    requires t in w.watchers && w.watchers[t].phase.Looping?
    ensures var w' := Next(Next(Next(w, Count(t)), Date(t)), Inbox(t, true));
            && t in w'.watchers && w'.watchers[t] == Watcher(w.watchers[t].seen, Ready(w.bus, w.bus, w.bus, true))
            && w'.file == w.file && w'.wakes == w.wakes && w'.bus == w.bus
  {
    var w1 := Next(w, Count(t));
    assert t in w1.watchers && w1.watchers[t] == Watcher(w.watchers[t].seen, Counted(w.bus));
    assert w1 == w.(watchers := w1.watchers);
    var w2 := Next(w1, Date(t));
    assert t in w2.watchers && w2.watchers[t] == Watcher(w.watchers[t].seen, Dated(w.bus, w.bus));
    assert w2 == w.(watchers := w2.watchers);
  }

  lemma SplitReading(w: World, t: Token, id: nat)
    requires t in w.watchers && w.watchers[t].phase.Looping? && id > Newest(w.bus)
    ensures var w' := Next(Next(Next(Next(w, Count(t)), Arrive(id)), Date(t)), Inbox(t, true));
            var b := w.bus.(directs := w.bus.directs + [Direct(id, false)]);
            && t in w'.watchers && w'.watchers[t] == Watcher(w.watchers[t].seen, Ready(w.bus, b, b, true))
            && w'.file == w.file && w'.wakes == w.wakes && w'.bus == b
  {
    var b := w.bus.(directs := w.bus.directs + [Direct(id, false)]);
    var w1 := Next(w, Count(t));
    assert t in w1.watchers && w1.watchers[t] == Watcher(w.watchers[t].seen, Counted(w.bus));
    assert w1 == w.(watchers := w1.watchers);
    var w2 := Next(w1, Arrive(id));
    assert w2 == w1.(bus := b);
    var w3 := Next(w2, Date(t));
    assert t in w3.watchers && w3.watchers[t] == Watcher(w.watchers[t].seen, Dated(w.bus, b));
    assert w3 == w2.(watchers := w3.watchers);
  }

  lemma RecordsFirst(w: World, t: Token)
    requires t in w.watchers && w.watchers[t].phase.Ready? && w.watchers[t].seen == None && Owns(w, t)
    ensures var w' := Next(w, Record(t));
            var p := w.watchers[t].phase;
            && t in w'.watchers && w'.watchers[t] == Watcher(w'.file, Looping)
            && w'.file == Some(Primed(t, ReadingOf(p.b1, p.b2, p.b3, p.ok))) && w'.wakes == w.wakes && w'.bus == w.bus
  {
    hide ReadingOf, ChargeOf, Primed, WatchStep;
  }

  lemma RecordsQuiet(w: World, t: Token, r: Reading)
    requires t in w.watchers && w.watchers[t].phase.Ready? && Owns(w, t) && w.watchers[t].seen == w.file
    requires var p := w.watchers[t].phase; r == ReadingOf(p.b1, p.b2, p.b3, p.ok)
    requires !WatchStep(w.file.value, r).wake
    ensures var w' := Next(w, Record(t));
            w'.file == Some(WatchStep(w.file.value, r).next) && w'.wakes == w.wakes && w'.bus == w.bus
  {
    hide ReadingOf, ChargeOf, Primed, WatchStep;
  }

  lemma NothingRead(b1: Bus, b2: Bus)
    requires b1.directs == []
    ensures ReadingOf(b1, b2, b2, true) == Reading(0, Newest(b2), Some(b2.arrived - b2.delivered))
  {
    NoUnread(b1.directs);
    hide Unread, Newest;
  }

  lemma NoUnread(ds: seq<Direct>)
    requires ds == []
    ensures Unread(ds) == 0
  {}

  lemma RunCons(w: World, e: Event, es: seq<Event>)
    ensures Run(w, [e] + es) == Run(Next(w, e), es)
  {
    hide Next;
    assert ([e] + es)[1..] == es;
  }

  lemma RunFive(w: World, a: Event, b: Event, c: Event, d: Event, e: Event)
    ensures Run(w, [a, b, c, d, e]) == Next(Next(Next(Next(Next(w, a), b), c), d), e)
  {
    hide Next;
    assert [a, b, c, d, e] == [a] + [b, c, d, e] && [b, c, d, e] == [b] + [c, d, e];
    assert [c, d, e] == [c] + [d, e] && [d, e] == [d] + [e] && [e] == [e] + [];
    RunCons(w, a, [b, c, d, e]);
    RunCons(Next(w, a), b, [c, d, e]);
    RunCons(Next(Next(w, a), b), c, [d, e]);
    RunCons(Next(Next(Next(w, a), b), c), d, [e]);
    RunCons(Next(Next(Next(Next(w, a), b), c), d), e, []);
  }

  lemma NewestIsMost(b: Bus, d: Direct)
    requires BusOk(b) && d in b.directs
    ensures d.id <= Newest(b)
  {
    var i :| 0 <= i < |b.directs| && b.directs[i] == d;
  }

  /** The condition is exact. Counting and dating are two calls: when the newest
      message is above the mark at the second, it wakes the window if and only if
      something was unread at the first (or the inbox grew); if not, the mark
      passes it all the same and no later wake is ever charged to it. */
  lemma MissedBetweenCalls(es: seq<Event>, t: Token, later: seq<Event>)
    ensures var w := Run(START, es);
            var w1 := Next(w, Record(t));
            var w2 := Run(w1, later);
            t in w.watchers && w.watchers[t].phase.Ready? && Owns(w, t) && PrimedFile(w)
            && Newest(w.watchers[t].phase.b2) > w.file.value.newestDirect ==>
              var p := w.watchers[t].phase;
              var grew := p.ok && p.b3.arrived - p.b3.delivered > w.file.value.inbox;
              && (|w1.wakes| == |w.wakes| + 1 <==> (exists d <- p.b1.directs :: !d.read) || grew)
              && w1.file.value.newestDirect == Newest(p.b2)
              && forall i | |w1.wakes| <= i < |w2.wakes| :: w2.wakes[i] != ForDirect(Newest(p.b2))
  {
    StartIsSound();
    RunKeeps(START, es);
    var w := Run(START, es);
    hide Later, BusOk, Run, Inv;
    if t in w.watchers && w.watchers[t].phase.Ready? && Owns(w, t) && PrimedFile(w) {
      DirectWakesIff(w, t);
      RecordKeeps(w, t);
      var w1 := Next(w, Record(t));
      RunKeeps(w1, later);
      hide Run, Inv, Next;
      var w2 := Run(w1, later);
      forall i | |w1.wakes| <= i < |w2.wakes|
        ensures PrimedFile(w1) ==> w2.wakes[i] != ForDirect(w1.file.value.newestDirect)
      {
        assert News(w1, w2, w2.wakes[i]);
      }
    }
  }

  lemma DirectWakesIff(w: World, t: Token)
    requires Inv(w) && t in w.watchers && w.watchers[t].phase.Ready? && Owns(w, t) && PrimedFile(w)
    ensures var w1 := Next(w, Record(t));
            var p := w.watchers[t].phase;
            var grew := p.ok && p.b3.arrived - p.b3.delivered > w.file.value.inbox;
            Newest(p.b2) > w.file.value.newestDirect ==>
              && (|w1.wakes| == |w.wakes| + 1 <==> (exists d <- p.b1.directs :: !d.read) || grew)
              && PrimedFile(w1) && w1.file.value.newestDirect == Newest(p.b2)
  {
    UnreadCounts(w.watchers[t].phase.b1.directs);
    hide Unread, Newest, Later, BusOk, ChargedBelow;
  }

  lemma WakesHereIff(w: World, t: Token)
    requires Inv(w) && t in w.watchers && w.watchers[t].phase.Ready? && Owns(w, t)
    ensures var w1 := Next(w, Record(t));
            var p := w.watchers[t].phase;
            && (|w1.wakes| == |w.wakes| + 1 || w1.wakes == w.wakes)
            && (w1.wakes != w.wakes <==>
                  && PrimedFile(w)
                  && (|| ((exists d <- p.b1.directs :: !d.read) && Newest(p.b2) > w.file.value.newestDirect)
                      || (p.ok && p.b3.arrived - p.b3.delivered > w.file.value.inbox)))
  {
    UnreadCounts(w.watchers[t].phase.b1.directs);
    hide Unread, Newest, Later, BusOk, ChargedBelow;
  }

  /** In every run, exactly when the owner's recording wakes the window: the file was
      primed, and something was unread at the first call with the newest message
      above the mark at the second, or the inbox could be counted and has grown. */
  lemma WakesIff(es: seq<Event>, t: Token)
    ensures var w := Run(START, es);
            t in w.watchers && w.watchers[t].phase.Ready? && Owns(w, t) ==>
              var w1 := Next(w, Record(t));
              var p := w.watchers[t].phase;
              && (|w1.wakes| == |w.wakes| + 1 || w1.wakes == w.wakes)
              && (w1.wakes != w.wakes <==>
                    && PrimedFile(w)
                    && (|| ((exists d <- p.b1.directs :: !d.read) && Newest(p.b2) > w.file.value.newestDirect)
                        || (p.ok && p.b3.arrived - p.b3.delivered > w.file.value.inbox)))
  {
    StartIsSound();
    RunKeeps(START, es);
    var w := Run(START, es);
    hide Run, Inv, Next;
    if t in w.watchers && w.watchers[t].phase.Ready? && Owns(w, t) {
      WakesHereIff(w, t);
    }
  }

  // ----------------------------------------------------------- in the process --

  /** The state file, as every watcher process sees it under the lock. */
  class StateFile {
    var state: Option<WatchState>

    constructor ()
      ensures state == None
    {
      state := None;
    }
  }

  /** One watcher process: what it last saw, and its two critical sections. */
  class Process {
    const token: Token
    var seen: Option<WatchState>

    /** Take the window over. */
    constructor (token: Token, file: StateFile)
      modifies file
      ensures this.token == token
      ensures var w := Claimed(World(old(file.state), map[], EMPTY_BUS, EMPTY_BUS, {}, []), token);
              file.state == w.file && seen == w.watchers[token].seen
    {
      this.token := token;
      var claim := match file.state
                   case Some(s) => if s.primed then s.(token := token) else WatchState(token, 0, 0, 0, false)
                   case None => WatchState(token, 0, 0, 0, false);
      this.seen := if claim.primed then Some(claim) else None;
      new;
      file.state := Some(claim);
    }

    /** Decide from a reading and record the mark, if this is still the owner. */
    method Record(file: StateFile, r: Reading) returns (owner: bool, wake: bool)
      modifies this, file
      ensures owner <==> old(file.state).Some? && old(file.state).value.token == token
      ensures !owner ==> file.state == old(file.state) && !wake
      ensures owner ==> var d := Decide(old(seen), token, r);
                        wake == d.wake && file.state == Some(d.next) && seen == Some(d.next)
    {
      var d := match seen
               case Some(s) => WatchStep(s, r)
               case None => Stepped(false, Primed(token, r));
      owner := file.state.Some? && file.state.value.token == token;
      wake := owner && d.wake;
      if owner {
        file.state := Some(d.next);
        seen := Some(d.next);
      }
    }
  }
}
