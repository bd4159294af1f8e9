/** The Codex wake adapter, src/codex_wake.rs: one process at a time watches a
    window with the same marks as the window watcher, and for news starts one
    turn on a Codex thread. The mark is saved before the turn is asked for, so a
    crash between the two loses a wake and never repeats one. A run is any
    sequence of readings, saves, delivery attempts, crashes and restarts. */
module CodexWake {
  import opened Basics
  import opened Watch

  const DELIVERY_ATTEMPTS: nat := 3

  // ------------------------------------------------------- starting one turn --

  /** What a request to Codex comes to, when any error is as good as another. */
  datatype Reply<T> = Said(value: T) | Unsaid

  /** What `turn/start` comes to: an answer with or without the id of the turn, an
      error answer, or nothing in time. */
  datatype StartReply = Answered(turnId: Option<string>) | Declined | Unheard

  /** One look while waiting for a busy thread: its status changed, other news, a
      quiet stretch and the status read then, or the connection gone. */
  datatype Poll = Changed(status: string) | OtherNews | Quiet(read: Reply<Option<string>>) | Broken

  /** All that Codex and the bus say to one attempt, as far as it gets to ask, and
      whether Codex took a turn that it declined or left unanswered. */
  datatype Exchange = Exchange(
    connects: bool,
    read: Reply<Option<string>>,
    resumes: bool,
    polls: seq<Poll>,
    pending: Reply<Reading>,
    start: StartReply,
    tookAnyway: bool)

  datatype Request = ThreadRead | ThreadResume | TurnStart(direct: int, inbox: int)

  datatype TurnResult = Started(turn: string) | NothingLeft | Failed

  datatype Attempt = Attempt(requests: seq<Request>, result: TurnResult)

  /** Whether the thread became idle before the looks ran out, and how many times
      its status was read. */
  function Idles(polls: seq<Poll>): (bool, nat) {
    if polls == [] then (false, 0)
    else
      match polls[0]
      case Changed(status) => if status == "idle" then (true, 0) else Idles(polls[1..])
      case OtherNews => Idles(polls[1..])
      case Quiet(read) =>
        if read.Unsaid? then (false, 1)
        else if read.value == Some("idle") then (true, 1)
        else var (ok, n) := Idles(polls[1..]); (ok, n + 1)
      case Broken => (false, 0)
  }

  /** The loop of `wait_until_idle`. */
  method WaitUntilIdle(polls: seq<Poll>) returns (ok: bool, looks: nat)
    ensures (ok, looks) == Idles(polls)
  {
    looks := 0;
    for i := 0 to |polls|
      invariant var (o, n) := Idles(polls[i..]); Idles(polls) == (o, looks + n)
    {
      assert polls[i..][0] == polls[i] && polls[i..][1..] == polls[i + 1..];
      match polls[i]
      case Changed(status) => if status == "idle" { return true, looks; }
      case OtherNews =>
      case Quiet(read) =>
        looks := looks + 1;
        if read.Unsaid? { return false, looks; }
        if read.value == Some("idle") { return true, looks; }
      case Broken => return false, looks;
    }
    return false, looks;
  }

  function StatusReads(n: nat): (r: seq<Request>)
    ensures |r| == n && forall i | 0 <= i < |r| :: r[i] == ThreadRead
  {
    seq(n, _ => ThreadRead)
  }

  /** Everything up to `turn/start`: the requests made, and what is unread if there
      is a turn to ask for. */
  datatype Prepared = Prepared(requests: seq<Request>, unread: Reply<(int, int)>, over: bool)

  function Prepare(mark: WatchState, x: Exchange): Prepared {
    if !x.connects then Prepared([], Unsaid, false)
    else if x.read.Unsaid? then Prepared([ThreadRead], Unsaid, false)
    else
      var status := match x.read.value case Some(s) => s case None => "unknown";
      if status == "notLoaded" then
        Prepared([ThreadRead, ThreadResume], if x.resumes then Said((mark.direct, mark.inbox)) else Unsaid, false)
      else if status == "systemError" then Prepared([ThreadRead], Unsaid, false)
      else if status == "active" then
        var (idle, n) := Idles(x.polls);
        var asked := [ThreadRead] + StatusReads(n);
        if !idle || x.pending.Unsaid? then Prepared(asked, Unsaid, false)
        else
          var r := x.pending.value;
          var inbox := match r.inbox case Some(k) => k case None => mark.inbox;
          if r.direct == 0 && inbox == 0 then Prepared(asked, Unsaid, true)
          else Prepared(asked, Said((r.direct, inbox)), false)
      else Prepared([ThreadRead], Said((mark.direct, mark.inbox)), false)
  }

  predicate Names(r: StartReply) { r.Answered? && r.turnId.Some? }

  // `start_turn`.
  function StartTurn(mark: WatchState, x: Exchange): Attempt {
    var p := Prepare(mark, x);
    if p.over then Attempt(p.requests, NothingLeft)
    else if p.unread.Unsaid? then Attempt(p.requests, Failed)
    else
      Attempt(p.requests + [TurnStart(p.unread.value.0, p.unread.value.1)],
              if Names(x.start) then Started(x.start.turnId.value) else Failed)
  }

  predicate AsksForTurn(a: Attempt) { exists r <- a.requests :: r.TurnStart? }

  /** Codex accepted a turn: it was asked for one, and answered, or took it anyway. */
  predicate Accepted(mark: WatchState, x: Exchange) {
    AsksForTurn(StartTurn(mark, x)) && (x.start.Answered? || x.tookAnyway)
  }

  /** Accepted, and the adapter cannot know. */
  predicate Mute(mark: WatchState, x: Exchange) { Accepted(mark, x) && !Names(x.start) }

  lemma PreparingAsksForNone(mark: WatchState, x: Exchange)
    ensures forall i | 0 <= i < |Prepare(mark, x).requests| :: !Prepare(mark, x).requests[i].TurnStart?
  {
    hide Idles;
  }

  lemma AsksWhenPrepared(mark: WatchState, x: Exchange)
    ensures AsksForTurn(StartTurn(mark, x)) <==> !Prepare(mark, x).over && Prepare(mark, x).unread.Said?
    ensures AsksForTurn(StartTurn(mark, x)) ==> (StartTurn(mark, x).result.Failed? <==> !Names(x.start))
    ensures StartTurn(mark, x).result.Started? ==> Accepted(mark, x)
  {
    var p := Prepare(mark, x);
    PreparingAsksForNone(mark, x);
    hide Prepare;
    if !p.over && p.unread.Said? {
      var turn := TurnStart(p.unread.value.0, p.unread.value.1);
      assert turn in StartTurn(mark, x).requests && turn.TurnStart?;
    }
  }

  predicate SaysIdle(p: Poll) { p == Changed("idle") || p == Quiet(Said(Some("idle"))) }

  predicate Fails(p: Poll) { p == Broken || p == Quiet(Unsaid) }

  /** Some look found the thread idle, and no earlier one failed. */
  predicate IdleSeen(polls: seq<Poll>) {
    exists i | 0 <= i < |polls| :: SaysIdle(polls[i]) && forall j | 0 <= j < i :: !Fails(polls[j])
  }

  function Quiets(polls: seq<Poll>): nat {
    if polls == [] then 0 else (if polls[0].Quiet? then 1 else 0) + Quiets(polls[1..])
  }

  /** The wait succeeds if and only if some look found the thread idle and none
      before it failed; the status was read once for each quiet look up to the one
      that decided. */
  lemma {:induction false} IdlesIff(polls: seq<Poll>)
    ensures Idles(polls).0 <==> IdleSeen(polls)
    ensures Idles(polls).1 <= Quiets(polls)
    ensures (forall i | 0 <= i < |polls| :: !SaysIdle(polls[i]) && !Fails(polls[i])) ==> Idles(polls).1 == Quiets(polls)
    decreases |polls|
  {
    if polls == [] {
    } else {
      IdlesIff(polls[1..]);
      IdleSeenFirst(polls);
      hide IdleSeen;
      assert forall i | 0 <= i < |polls[1..]| :: polls[1..][i] == polls[i + 1];
    }
  }

  lemma IdleSeenFirst(polls: seq<Poll>)
    requires polls != []
    ensures IdleSeen(polls) <==> SaysIdle(polls[0]) || (!Fails(polls[0]) && IdleSeen(polls[1..]))
  {
    var rest := polls[1..];
    hide SaysIdle, Fails;
    if IdleSeen(polls) {
      var i :| 0 <= i < |polls| && SaysIdle(polls[i]) && forall j | 0 <= j < i :: !Fails(polls[j]);
      if i > 0 {
        assert SaysIdle(rest[i - 1]) && forall j | 0 <= j < i - 1 :: rest[j] == polls[j + 1];
      }
    }
    if !Fails(polls[0]) && IdleSeen(rest) {
      var i :| 0 <= i < |rest| && SaysIdle(rest[i]) && forall j | 0 <= j < i :: !Fails(rest[j]);
      assert SaysIdle(polls[i + 1]) && forall j | 0 < j < i + 1 :: polls[j] == rest[j - 1];
    }
  }

  function StatusOf(x: Exchange): string
    requires x.read.Said?
  {
    match x.read.value
    case Some(status) => status
    case None => "unknown"
  }

  /** Ready without a wait: the thread was loaded again, or was not busy. */
  predicate ReadyAtOnce(x: Exchange) {
    && x.connects && x.read.Said?
    && (if StatusOf(x) == "notLoaded" then x.resumes else StatusOf(x) !in {"active", "systemError"})
  }

  /** Busy at first, then idle, and what was pending was read again. */
  predicate ReadyLater(x: Exchange) {
    x.connects && x.read.Said? && StatusOf(x) == "active" && IdleSeen(x.polls) && x.pending.Said?
  }

  function LaterInbox(mark: WatchState, x: Exchange): int
    requires x.pending.Said?
  {
    match x.pending.value.inbox
    case Some(n) => n
    case None => mark.inbox
  }

  /** From what Codex and the bus said alone: a turn is asked for if and only if the
      thread was ready at once, or became idle with something still unread; it names
      the later counts in that case and the mark's in the other; and nothing is left
      to wake for if and only if it became idle with nothing unread. */
  lemma TurnAskedIff(mark: WatchState, x: Exchange)
    ensures var a := StartTurn(mark, x);
            && (AsksForTurn(a) <==>
                  || ReadyAtOnce(x)
                  || (ReadyLater(x) && (x.pending.value.direct != 0 || LaterInbox(mark, x) != 0)))
            && (AsksForTurn(a) && ReadyAtOnce(x) ==> TurnStart(mark.direct, mark.inbox) in a.requests)
            && (AsksForTurn(a) && ReadyLater(x) ==>
                  TurnStart(x.pending.value.direct, LaterInbox(mark, x)) in a.requests)
            && (a.result.NothingLeft? <==>
                  ReadyLater(x) && x.pending.value.direct == 0 && LaterInbox(mark, x) == 0)
            && (forall id :: a.result == Started(id) <==> AsksForTurn(a) && x.start == Answered(Some(id)))
            && (ThreadResume in a.requests <==> x.connects && x.read.Said? && StatusOf(x) == "notLoaded")
  {
    IdlesIff(x.polls);
    AsksWhenPrepared(mark, x);
    hide Idles, IdleSeen, AsksForTurn;
    var p := Prepare(mark, x);
    NoResumeByReading(Idles(x.polls).1);
    if !p.over && p.unread.Said? {
      var turn := TurnStart(p.unread.value.0, p.unread.value.1);
      assert turn in StartTurn(mark, x).requests;
    }
  }

  lemma NoResumeByReading(n: nat)
    ensures ThreadResume !in StatusReads(n)
  {
  }

  // ---------------------------------------------------------- one delivery --

  /** The attempts a delivery makes of the exchanges in store for it, at most `n`. */
  function Tried(mark: WatchState, xs: seq<Exchange>, n: nat): seq<Attempt>
    decreases |xs|
  {
    if xs == [] || n == 0 then []
    else
      var a := StartTurn(mark, xs[0]);
      if a.result.Failed? then [a] + Tried(mark, xs[1..], n - 1) else [a]
  }

  /** The retry loop of `deliver`. */
  method Deliver(mark: WatchState, xs: seq<Exchange>) returns (result: TurnResult, tried: seq<Attempt>)
    requires |xs| >= DELIVERY_ATTEMPTS
    ensures tried == Tried(mark, xs, DELIVERY_ATTEMPTS) && tried != []
    ensures result == tried[|tried| - 1].result
  {
    hide StartTurn;
    tried, result := [], Failed;
    var i := 0;
    assert xs[0..] == xs;
    while i < DELIVERY_ATTEMPTS
      invariant 0 <= i <= DELIVERY_ATTEMPTS && |tried| == i
      invariant Tried(mark, xs, DELIVERY_ATTEMPTS) == tried + Tried(mark, xs[i..], DELIVERY_ATTEMPTS - i)
      invariant i > 0 ==> result == tried[i - 1].result
    {
      var a := StartTurn(mark, xs[i]);
      assert xs[i..][0] == xs[i] && xs[i..][1..] == xs[i + 1..];
      tried := tried + [a];
      result := a.result;
      i := i + 1;
      if !a.result.Failed? { return; }
    }
  }

  lemma {:induction false} TriedAre(mark: WatchState, xs: seq<Exchange>, n: nat, i: nat)
    requires |xs| >= n
    ensures var tried := Tried(mark, xs, n);
            && |tried| <= n
            && (i < |tried| ==> tried[i] == StartTurn(mark, xs[i])
                                && (i + 1 < |tried| <==> i + 1 < n && tried[i].result.Failed?))
    decreases n
  {
    hide StartTurn;
    if n == 0 {
    } else if StartTurn(mark, xs[0]).result.Failed? {
      TriedAre(mark, xs[1..], n - 1, if i == 0 then 0 else i - 1);
    }
  }

  /** In every delivery, after an attempt that asked for a turn: another attempt
      follows exactly if there are attempts left and the answer had no turn id,
      whether Codex accepted or not; and it asks for a turn again exactly if it
      gets the thread ready with something unread. */
  lemma AskedAgainIff(mark: WatchState, xs: seq<Exchange>, i: nat)
    requires |xs| >= DELIVERY_ATTEMPTS
    ensures var tried := Tried(mark, xs, DELIVERY_ATTEMPTS);
            i < |tried| && AsksForTurn(tried[i]) ==>
              && (i + 1 < |tried| <==> i + 1 < DELIVERY_ATTEMPTS && !Names(xs[i].start))
              && (i + 1 < |tried| && AsksForTurn(tried[i + 1]) <==>
                    && i + 1 < DELIVERY_ATTEMPTS && !Names(xs[i].start)
                    && !Prepare(mark, xs[i + 1]).over && Prepare(mark, xs[i + 1]).unread.Said?)
  {
    TriedAre(mark, xs, DELIVERY_ATTEMPTS, i);
    TriedAre(mark, xs, DELIVERY_ATTEMPTS, i + 1);
    hide Tried, StartTurn, AsksForTurn, Prepare;
    AsksWhenPrepared(mark, xs[if i < |xs| then i else 0]);
    AsksWhenPrepared(mark, xs[if i + 1 < |xs| then i + 1 else 0]);
  }

  // -------------------------------------------------------------- the desk --

  datatype Stage =
    | Watching
    | Repriming(first: Reading)
    | Settling(charge: Charge)
    | Delivering(charge: Charge, made: nat)

  /** A running adapter: its mark, the bus its inbox figure is from, the stage it
      is in and the reading under way. */
  datatype Adapter = Down | Up(mark: WatchState, from: Bus, stage: Stage, reading: Phase)

  /** A turn Codex accepted: after which save of the mark, for what, and whether
      the adapter got its id. */
  datatype Turn = Turn(save: nat, charge: Charge, named: bool)

  /** `mark` and `since` are on file; `saves` counts the marks saved for a wake.
      `turns` are those accepted, `tries` the saves attempts were made for. */
  datatype Desk = Desk(
    mark: WatchState,
    since: Bus,
    bus: Bus,
    adapter: Adapter,
    saves: nat,
    turns: seq<Turn>,
    tries: multiset<nat>)

  datatype Step =
    | Begin
    | CountCall
    | DateCall
    | InboxCall(ok: bool)
    | ReadFails
    | React
    | TryTurn(exchange: Exchange)
    | Stop
    | Traffic(later: Bus)

  const UNPRIMED: WatchState := WatchState(0, 0, 0, 0, false)

  const IDLE_DESK: Desk := Desk(UNPRIMED, EMPTY_BUS, EMPTY_BUS, Down, 0, [], multiset{})

  function SavedMark(d: Desk, mark: WatchState, from: Bus): Desk {
    d.(mark := mark, since := from, adapter := Up(mark, from, Watching, Looping))
  }

  /** A mark saved for a wake, then the delivery, unless all was read meanwhile. */
  function SavedForWake(d: Desk, mark: WatchState, from: Bus, charge: Charge): Desk {
    var stage := if mark.direct == 0 && mark.inbox == 0 then Watching else Delivering(charge, 0);
    d.(mark := mark, since := from, saves := d.saves + 1, adapter := Up(mark, from, stage, Looping))
  }

  /** What the adapter does with a complete reading, by stage. */
  function Reacted(d: Desk): Desk
    requires d.adapter.Up? && d.adapter.reading.Ready?
  {
    var a := d.adapter;
    var r := ReadingOf(a.reading.b1, a.reading.b2, a.reading.b3, a.reading.ok);
    var from := if a.reading.ok then a.reading.b3 else a.from;
    match a.stage
    case Watching =>
      if !a.mark.primed then
        if r.inbox.Some? then SavedMark(d, Primed(a.mark.token, r), from)
        else d.(adapter := Up(a.mark, a.from, Repriming(r), Looping))
      else
        var s := WatchStep(a.mark, r);
        if s.wake then d.(adapter := Up(s.next, from, Settling(ChargeOf(a.mark, r, a.reading.b3)), Looping))
        else SavedMark(d, s.next, from)
    case Repriming(_) => SavedMark(d, Primed(a.mark.token, r), from)
    case Settling(charge) => SavedForWake(d, WatchStep(a.mark, r).next, from, charge)
    case Delivering(_, _) => d
  }

  /** A reading that failed: retried, or done without where one was already had. */
  function WithoutReading(d: Desk): Desk
    requires d.adapter.Up?
  {
    var a := d.adapter;
    match a.stage
    case Watching => d.(adapter := a.(reading := Looping))
    case Repriming(first) => SavedMark(d, Primed(a.mark.token, first), a.from)
    case Settling(charge) => SavedForWake(d, a.mark, a.from, charge)
    case Delivering(_, _) => d
  }

  function Attempted(d: Desk, x: Exchange): Desk
    requires d.adapter.Up? && d.adapter.stage.Delivering?
  {
    var a := d.adapter;
    var made := a.stage.made + 1;
    var result := StartTurn(a.mark, x).result;
    var turn := if Accepted(a.mark, x) then [Turn(d.saves, a.stage.charge, result.Started?)] else [];
    var stage := if !result.Failed? || made >= DELIVERY_ATTEMPTS then Watching else a.stage.(made := made);
    d.(turns := d.turns + turn, tries := d.tries + multiset{d.saves}, adapter := a.(stage := stage))
  }

  ghost function Next(d: Desk, e: Step): Desk {
    var a := d.adapter;
    match e
    case Begin => if a.Down? then d.(adapter := Up(d.mark, d.since, Watching, Looping)) else d
    case CountCall =>
      if a.Up? && !a.stage.Delivering? && a.reading.Looping?
      then d.(adapter := a.(reading := Counted(d.bus))) else d
    case DateCall =>
      if a.Up? && a.reading.Counted? then d.(adapter := a.(reading := Dated(a.reading.b1, d.bus))) else d
    case InboxCall(ok) =>
      if a.Up? && a.reading.Dated?
      then d.(adapter := a.(reading := Ready(a.reading.b1, a.reading.b2, d.bus, ok))) else d
    case ReadFails => if a.Up? then WithoutReading(d) else d
    case React => if a.Up? && a.reading.Ready? then Reacted(d) else d
    case TryTurn(x) => if a.Up? && a.stage.Delivering? then Attempted(d, x) else d
    case Stop => d.(adapter := Down)
    case Traffic(later) => if BusOk(later) && Later(d.bus, later) then d.(bus := later) else d
  }

  ghost function Run(d: Desk, es: seq<Step>): Desk
    decreases |es|
  {
    if es == [] then d else Run(Next(d, es[0]), es[1..])
  }

  // -------------------------------------------------------------- invariant --

  predicate Above(c: Charge, mark: WatchState, since: Bus) {
    match c
    case ForDirect(id) => id > mark.newestDirect
    case ForInbox(n) => n > since.arrived
  }

  /** A mark and the bus its inbox figure is from. */
  ghost predicate Fits(mark: WatchState, from: Bus, now: Bus) {
    && BusOk(from) && Later(from, now)
    && mark.newestDirect >= 0
    && mark.inbox == from.arrived - from.delivered
  }

  ghost predicate AdapterOk(d: Desk) {
    d.adapter.Up? ==>
      var a := d.adapter;
      && Fits(a.mark, a.from, d.bus) && InOrder(a.reading, a.from, d.bus)
      && match a.stage
         case Watching => a.mark == d.mark && a.from == d.since
         case Repriming(first) =>
           && a.mark == d.mark && a.from == d.since && !d.mark.primed
           && first.newestDirect >= 0 && first.inbox == None
         case Settling(c) =>
           && d.mark.primed && a.mark.primed && Later(d.since, a.from) && d.mark.newestDirect <= a.mark.newestDirect
           && Above(c, d.mark, d.since) && !Above(c, a.mark, a.from)
         case Delivering(c, made) =>
           && a.mark == d.mark && a.from == d.since && made < DELIVERY_ATTEMPTS
           && !Above(c, d.mark, d.since) && d.mark.primed && d.saves >= 1 && d.tries[d.saves] == made
           && (forall i | 0 <= i < |d.turns| :: Before(d.turns[i], d.saves, c))
  }

  /** A turn before one of `save` for `c`: of an earlier save for something else, or
      of the same save and never named. */
  predicate Before(t: Turn, save: nat, c: Charge) {
    (t.save < save && t.charge != c) || t == Turn(save, c, false)
  }

  ghost predicate TurnsOk(d: Desk) {
    && (forall i | 0 <= i < |d.turns| :: 1 <= d.turns[i].save <= d.saves && !Above(d.turns[i].charge, d.mark, d.since))
    && (forall i, j | 0 <= i < j < |d.turns| :: Before(d.turns[i], d.turns[j].save, d.turns[j].charge))
  }

  ghost predicate TriesOk(d: Desk) {
    forall s: nat :: d.tries[s] <= if s <= d.saves then DELIVERY_ATTEMPTS else 0
  }

  ghost predicate Inv(d: Desk) {
    && BusOk(d.bus) && Fits(d.mark, d.since, d.bus)
    && (!d.mark.primed ==> d.since == EMPTY_BUS && d.mark.inbox == 0 && d.turns == [])
    && AdapterOk(d) && TurnsOk(d) && TriesOk(d)
  }

  // -------------------------------------------------------------- the pieces --

  lemma FitsLater(mark: WatchState, from: Bus, a: Bus, b: Bus)
    requires Fits(mark, from, a) && Later(a, b)
    ensures Fits(mark, from, b)
  {
    LaterTrans(from, a, b);
  }

  /** A complete reading moves a primed mark up, from a later bus. */
  lemma ReadingAdvances(a: Adapter, now: Bus)
    requires a.Up? && a.reading.Ready? && Fits(a.mark, a.from, now) && InOrder(a.reading, a.from, now)
    ensures var r := ReadingOf(a.reading.b1, a.reading.b2, a.reading.b3, a.reading.ok);
            var from := if a.reading.ok then a.reading.b3 else a.from;
            var s := WatchStep(a.mark, r);
            && Fits(s.next, from, now) && Later(a.from, from)
            && a.mark.newestDirect <= s.next.newestDirect && s.next.primed
            && (s.wake ==> var c := ChargeOf(a.mark, r, a.reading.b3);
                           Above(c, a.mark, a.from) && !Above(c, s.next, from))
            && (a.from.arrived == a.from.delivered || a.reading.ok ==> Fits(Primed(a.mark.token, r), from, now))
            && r.newestDirect >= 0 && (r.inbox.Some? <==> a.reading.ok)
  {
    LaterSince(a.from, a.reading, now);
    LaterSelf(a.from);
  }

  lemma NotAboveLater(c: Charge, m: WatchState, from: Bus, m': WatchState, from': Bus)
    requires !Above(c, m, from) && m.newestDirect <= m'.newestDirect && from.arrived <= from'.arrived
    ensures !Above(c, m', from')
  {}

  /** What is above the marks was never charged before. */
  lemma NewCharge(d: Desk, c: Charge)
    requires TurnsOk(d) && Above(c, d.mark, d.since)
    ensures forall i | 0 <= i < |d.turns| :: Before(d.turns[i], d.saves + 1, c)
  {}

  lemma TurnsRise(d: Desk, mark: WatchState, since: Bus, saves: nat)
    requires TurnsOk(d) && d.mark.newestDirect <= mark.newestDirect
    requires d.since.arrived <= since.arrived && d.saves <= saves
    ensures TurnsOk(d.(mark := mark, since := since, saves := saves))
  {}

  lemma SaveKeeps(d: Desk, mark: WatchState, from: Bus)
    requires Inv(d) && Fits(mark, from, d.bus) && mark.primed
    requires d.mark.newestDirect <= mark.newestDirect && d.since.arrived <= from.arrived
    ensures Inv(SavedMark(d, mark, from))
  {
    hide Later, BusOk, Before;
    TurnsRise(d, mark, from, d.saves);
  }

  lemma WakeSaveKeeps(d: Desk, mark: WatchState, from: Bus, c: Charge)
    requires Inv(d) && Fits(mark, from, d.bus) && mark.primed
    requires d.mark.newestDirect <= mark.newestDirect && d.since.arrived <= from.arrived
    requires Above(c, d.mark, d.since) && !Above(c, mark, from)
    ensures Inv(SavedForWake(d, mark, from, c))
  {
    NewCharge(d, c);
    TurnsRise(d, mark, from, d.saves + 1);
    hide Later, BusOk, Above, Before;
  }

  lemma WatchReactKeeps(d: Desk)
    requires Inv(d) && d.adapter.Up? && d.adapter.reading.Ready? && d.adapter.stage.Watching? && d.adapter.mark.primed
    ensures Inv(Reacted(d))
  {
    var a := d.adapter;
    var r := ReadingOf(a.reading.b1, a.reading.b2, a.reading.b3, a.reading.ok);
    var from := if a.reading.ok then a.reading.b3 else a.from;
    var s := WatchStep(a.mark, r);
    ReadingAdvances(a, d.bus);
    LaterArrives(a.from, from);
    hide ReadingOf, WatchStep, ChargeOf;
    if !s.wake {
      SaveKeeps(d, s.next, from);
    } else {
      hide Later, BusOk, TurnsOk, Above;
    }
  }

  lemma PrimeReactKeeps(d: Desk)
    requires Inv(d) && d.adapter.Up? && d.adapter.reading.Ready?
    requires d.adapter.stage.Repriming? || (d.adapter.stage.Watching? && !d.adapter.mark.primed)
    ensures Inv(Reacted(d))
  {
    var a := d.adapter;
    var r := ReadingOf(a.reading.b1, a.reading.b2, a.reading.b3, a.reading.ok);
    var from := if a.reading.ok then a.reading.b3 else a.from;
    ReadingAdvances(a, d.bus);
    LaterArrives(a.from, from);
    if a.stage.Repriming? || r.inbox.Some? {
      UnprimedSaveKeeps(d, Primed(a.mark.token, r), from);
      hide ReadingOf, WatchStep, ChargeOf, Inv;
    } else {
      hide ReadingOf, WatchStep, ChargeOf, Later, BusOk, TurnsOk;
    }
  }

  lemma SettleReactKeeps(d: Desk)
    requires Inv(d) && d.adapter.Up? && d.adapter.reading.Ready? && d.adapter.stage.Settling?
    ensures Inv(Reacted(d))
  {
    var a := d.adapter;
    var r := ReadingOf(a.reading.b1, a.reading.b2, a.reading.b3, a.reading.ok);
    var from := if a.reading.ok then a.reading.b3 else a.from;
    var s := WatchStep(a.mark, r);
    ReadingAdvances(a, d.bus);
    LaterArrives(a.from, from);
    LaterArrives(d.since, a.from);
    NotAboveLater(a.stage.charge, a.mark, a.from, s.next, from);
    hide ReadingOf, WatchStep, ChargeOf, Above;
    WakeSaveKeeps(d, s.next, from, a.stage.charge);
  }

  lemma ReactKeeps(d: Desk)
    requires Inv(d) && d.adapter.Up? && d.adapter.reading.Ready?
    ensures Inv(Reacted(d))
  {
    if d.adapter.stage.Settling? {
      SettleReactKeeps(d);
    } else if d.adapter.stage.Repriming? || (d.adapter.stage.Watching? && !d.adapter.mark.primed) {
      PrimeReactKeeps(d);
    } else if d.adapter.stage.Watching? {
      WatchReactKeeps(d);
    }
    hide Inv;
  }

  lemma LaterArrives(a: Bus, b: Bus)
    requires Later(a, b)
    ensures a.arrived <= b.arrived
  {}

  /** The first mark: no turn was ever started before it. */
  lemma UnprimedSaveKeeps(d: Desk, mark: WatchState, from: Bus)
    requires Inv(d) && !d.mark.primed && Fits(mark, from, d.bus) && mark.primed
    requires d.since.arrived <= from.arrived
    ensures Inv(SavedMark(d, mark, from))
  {
  }

  lemma FailKeeps(d: Desk)
    requires Inv(d) && d.adapter.Up?
    ensures Inv(WithoutReading(d))
  {
    var a := d.adapter;
    match a.stage
    case Watching =>
    case Repriming(first) =>
      UnprimedSaveKeeps(d, Primed(a.mark.token, first), a.from);
    case Settling(c) =>
      LaterArrives(d.since, a.from);
      hide Above;
      WakeSaveKeeps(d, a.mark, a.from, c);
    case Delivering(_, _) =>
  }

  lemma AttemptKeeps(d: Desk, x: Exchange)
    requires Inv(d) && d.adapter.Up? && d.adapter.stage.Delivering?
    ensures Inv(Attempted(d, x))
  {
    AsksWhenPrepared(d.adapter.mark, x);
    hide Later, BusOk, InOrder, Above, StartTurn, Accepted, Prepare;
  }

  lemma TrafficKeeps(d: Desk, later: Bus)
    requires Inv(d) && BusOk(later) && Later(d.bus, later)
    ensures Inv(d.(bus := later))
  {
    hide BusOk, Later, Before;
    FitsLater(d.mark, d.since, d.bus, later);
    if d.adapter.Up? {
      FitsLater(d.adapter.mark, d.adapter.from, d.bus, later);
      InOrderLater(d.adapter.reading, d.adapter.from, d.bus, later);
    }
  }

  lemma CallKeeps(d: Desk, e: Step)
    requires Inv(d) && (e.Begin? || e.CountCall? || e.DateCall? || e.InboxCall? || e.Stop?)
    ensures Inv(Next(d, e))
  {
    LaterSelf(d.bus);
    hide BusOk, Later, Before, Above;
  }

  lemma NextKeeps(d: Desk, e: Step)
    requires Inv(d)
    ensures Inv(Next(d, e))
  {
    hide Inv, Reacted, WithoutReading, Attempted, BusOk, Later;
    match e
    case ReadFails => if d.adapter.Up? { FailKeeps(d); }
    case React => if d.adapter.Up? && d.adapter.reading.Ready? { ReactKeeps(d); }
    case TryTurn(x) => if d.adapter.Up? && d.adapter.stage.Delivering? { AttemptKeeps(d, x); }
    case Traffic(later) => if BusOk(later) && Later(d.bus, later) { TrafficKeeps(d, later); }
    case _ => CallKeeps(d, e);
  }

  lemma {:induction false} RunKeeps(d: Desk, es: seq<Step>)
    requires Inv(d)
    ensures Inv(Run(d, es))
    decreases |es|
  {
    hide Inv, Next;
    if es == [] {
    } else {
      NextKeeps(d, es[0]);
      RunKeeps(Next(d, es[0]), es[1..]);
    }
  }

  lemma IdleDeskIsSound()
    ensures Inv(IDLE_DESK)
  {
    LaterSelf(EMPTY_BUS);
  }

  // --------------------------------------------------------------- theorems --

  /** Two turns of one save: the earlier was accepted and never named. */
  predicate InTurn(t: Turn, u: Turn) {
    || (t.save < u.save && t.charge != u.charge)
    || (t.save == u.save && t.charge == u.charge && !t.named)
  }

  /** Over every run, crashing and restarting anywhere: a saved mark leads to a
      second accepted turn, and an arrival is the reason of one, only after a turn
      that Codex accepted without its id being heard; and no save is tried more
      than three times. */
  lemma OneTurnForEachMark(es: seq<Step>)
    ensures var d := Run(IDLE_DESK, es);
            && (forall i, j | 0 <= i < j < |d.turns| :: InTurn(d.turns[i], d.turns[j]))
            && (forall i | 0 <= i < |d.turns| :: 1 <= d.turns[i].save <= d.saves)
            && (forall s: nat :: d.tries[s] <= DELIVERY_ATTEMPTS)
  {
    hide *;
    IdleDeskIsSound();
    RunKeeps(IDLE_DESK, es);
    TurnsAreInTurn(Run(IDLE_DESK, es));
  }

  lemma TurnsAreInTurn(d: Desk)
    requires Inv(d)
    ensures forall i, j | 0 <= i < j < |d.turns| :: InTurn(d.turns[i], d.turns[j])
    ensures forall i | 0 <= i < |d.turns| :: 1 <= d.turns[i].save <= d.saves
    ensures forall s: nat :: d.tries[s] <= DELIVERY_ATTEMPTS
  {
    hide AdapterOk, Fits, BusOk, Above;
    forall i, j | 0 <= i < j < |d.turns| ensures InTurn(d.turns[i], d.turns[j]) {
      assert Before(d.turns[i], d.turns[j].save, d.turns[j].charge);
    }
  }

  ghost predicate OncePerSave(d: Desk) {
    forall i, j | 0 <= i < j < |d.turns| :: d.turns[i].save != d.turns[j].save
  }

  /** An attempt is left to make though Codex has accepted one without its id being
      heard. */
  ghost predicate StillOpen(d: Desk) {
    && d.adapter.Up? && d.adapter.stage.Delivering?
    && exists i :: 0 <= i < |d.turns| && d.turns[i].save == d.saves
  }

  ghost function RunTries(d: Desk, xs: seq<Exchange>): Desk
    decreases |xs|
  {
    if xs == [] then d else RunTries(Next(d, TryTurn(xs[0])), xs[1..])
  }

  /** Whatever Codex accepts in these exchanges, it names. */
  ghost predicate AllNamed(xs: seq<Exchange>) { forall i | 0 <= i < |xs| :: NeverMute(xs[i]) }

  ghost predicate NeverMute(x: Exchange) { forall mark :: !Mute(mark, x) }

  lemma {:induction false} NamedTries(d: Desk, xs: seq<Exchange>)
    requires Inv(d) && OncePerSave(d) && !StillOpen(d)
    requires AllNamed(xs)
    ensures OncePerSave(RunTries(d, xs))
    decreases |xs|
  {
    if xs == [] {
    } else {
      var d' := Next(d, TryTurn(xs[0]));
      NextKeeps(d, TryTurn(xs[0]));
      NamedTry(d, xs[0]);
      hide Next, Inv, OncePerSave, StillOpen, NeverMute;
      NamedTries(d', xs[1..]);
    }
  }

  lemma NamedTry(d: Desk, x: Exchange)
    requires Inv(d) && OncePerSave(d) && !StillOpen(d) && NeverMute(x)
    ensures var d' := Next(d, TryTurn(x)); OncePerSave(d') && !StillOpen(d')
  {
    var d' := Next(d, TryTurn(x));
    if d.adapter.Up? && d.adapter.stage.Delivering? {
      assert !Mute(d.adapter.mark, x);
      AsksWhenPrepared(d.adapter.mark, x);
      hide StartTurn, AsksForTurn, Prepare, AdapterOk, Fits, Above;
      forall i | 0 <= i < |d.turns| ensures d.turns[i].save < d.saves {
        assert 1 <= d.turns[i].save <= d.saves;
      }
    }
  }

  const NAMED: Exchange := Exchange(true, Said(Some("idle")), true, [], Unsaid, Answered(Some("turn")), false)
  const NAMELESS: Exchange := NAMED.(start := Answered(None))

  lemma TheseAreAccepted(mark: WatchState)
    ensures Accepted(mark, NAMED) && StartTurn(mark, NAMED).result == Started("turn")
    ensures Mute(mark, NAMELESS) && StartTurn(mark, NAMELESS).result == Failed
    ensures !Mute(mark, NAMED)
  {
    AsksWhenPrepared(mark, NAMED);
    AsksWhenPrepared(mark, NAMELESS);
  }

  /** In every reachable state: however the delivery under way goes on, as long as
      Codex names what it accepts from here, no save gets a second turn, if and
      only if none has one and no attempt is left after an acceptance without an
      id. */
  lemma SecondTurnIff(es: seq<Step>)
    ensures var d := Run(IDLE_DESK, es);
            (forall xs: seq<Exchange> | AllNamed(xs) :: OncePerSave(RunTries(d, xs)))
            <==> OncePerSave(d) && !StillOpen(d)
  {
    hide *;
    IdleDeskIsSound();
    RunKeeps(IDLE_DESK, es);
    SecondTurnHereIff(Run(IDLE_DESK, es));
  }

  lemma SecondTurnHereIff(d: Desk)
    requires Inv(d)
    ensures (forall xs: seq<Exchange> | AllNamed(xs) :: OncePerSave(RunTries(d, xs)))
            <==> OncePerSave(d) && !StillOpen(d)
  {
    if OncePerSave(d) && !StillOpen(d) {
      hide *;
      forall xs: seq<Exchange> | AllNamed(xs) ensures OncePerSave(RunTries(d, xs)) {
        NamedTries(d, xs);
      }
    } else if !OncePerSave(d) {
      assert RunTries(d, []) == d && AllNamed([]);
    } else {
      hide *;
      OpenRepeats(d);
    }
  }

  lemma OpenRepeats(d: Desk)
    requires StillOpen(d)
    ensures !OncePerSave(RunTries(d, [NAMED])) && AllNamed([NAMED])
  {
    var i :| 0 <= i < |d.turns| && d.turns[i].save == d.saves;
    TheseAreAccepted(d.adapter.mark);
    forall mark ensures !Mute(mark, NAMED) {
      TheseAreAccepted(mark);
    }
    hide StartTurn, Accepted, Mute;
    var d' := Next(d, TryTurn(NAMED));
    assert [NAMED][1..] == [] && RunTries(d, [NAMED]) == d';
    assert d'.turns[i].save == d'.turns[|d.turns|].save;
  }

  /** How a delivery comes to be open like that: by an attempt that Codex accepted
      without naming the turn, and that was not the last. */
  lemma LeftOpenIff(d: Desk, x: Exchange)
    requires Inv(d) && d.adapter.Up? && d.adapter.stage.Delivering? && !StillOpen(d)
    ensures StillOpen(Next(d, TryTurn(x))) <==>
              Mute(d.adapter.mark, x) && d.adapter.stage.made + 1 < DELIVERY_ATTEMPTS
  {
    AsksWhenPrepared(d.adapter.mark, x);
    hide StartTurn, AsksForTurn, Prepare, Fits, Above;
    var d' := Next(d, TryTurn(x));
    if Accepted(d.adapter.mark, x) {
      assert d'.turns[|d.turns|].save == d'.saves;
    } else {
      assert d'.turns == d.turns;
    }
  }

  /** News is settled by a second reading: the mark is saved, and a delivery follows
      if and only if something is then unread, direct or in the inbox. */
  lemma DeliversIff(d: Desk)
    requires d.adapter.Up? && d.adapter.stage.Settling? && d.adapter.reading.Ready? && d.adapter.reading.ok
    requires d.adapter.reading.b3.delivered <= d.adapter.reading.b3.arrived
    ensures var p, d' := d.adapter.reading, Next(d, React);
            && d'.saves == d.saves + 1
            && (d'.adapter.stage.Delivering? <==>
                  (exists m <- p.b1.directs :: !m.read) || p.b3.delivered < p.b3.arrived)
  {
    UnreadCounts(d.adapter.reading.b1.directs);
    hide Unread;
  }

  /** A first reading whose inbox could not be counted is taken again, once: the mark
      is saved after the second, whatever it brings. */
  lemma PrimesAtTheSecond(d: Desk)
    requires d.adapter.Up? && d.adapter.stage.Watching? && !d.adapter.mark.primed && d.adapter.reading.Ready?
    ensures var d' := Next(d, React);
            if d.adapter.reading.ok then d'.mark.primed && d'.adapter.stage.Watching?
            else d'.mark == d.mark && d'.adapter.stage.Repriming? && d'.adapter.reading.Looping?
    ensures var a := d.adapter;
            var first := ReadingOf(a.reading.b1, a.reading.b2, a.reading.b3, false);
            var again := d.(adapter := a.(stage := Repriming(first)));
            && Next(again, React).mark.primed && Next(again, React).adapter.stage.Watching?
            && Next(again, ReadFails).mark.primed && Next(again, ReadFails).adapter.stage.Watching?
  {
    hide Unread;
  }

  // ------------------------------------------------- the desk and the delivery --

  /** The turns the first `n` of these exchanges give a save. */
  function TurnsOf(mark: WatchState, xs: seq<Exchange>, n: nat, save: nat, charge: Charge): seq<Turn>
    requires n <= |xs|
  {
    if n == 0 then []
    else
      TurnOf(mark, xs[0], save, charge) + TurnsOf(mark, xs[1..], n - 1, save, charge)
  }

  lemma {:induction false} DoneTries(d: Desk, xs: seq<Exchange>)
    requires !(d.adapter.Up? && d.adapter.stage.Delivering?)
    ensures RunTries(d, xs) == d
    decreases |xs|
  {
    if xs == [] {
    } else {
      DoneTries(d, xs[1..]);
    }
  }

  lemma TriedFirst(mark: WatchState, xs: seq<Exchange>, n: nat)
    requires xs != [] && n > 0
    ensures var first, rest := StartTurn(mark, xs[0]), Tried(mark, xs[1..], n - 1);
            var tried := Tried(mark, xs, n);
            && tried == (if first.result.Failed? then [first] + rest else [first])
            && (first.result.Failed? ==>
                  (AllFailed(tried) <==> AllFailed(rest)) && |tried| == 1 + |rest|)
            && (!first.result.Failed? ==> !AllFailed(tried) && |tried| == 1)
  {
    hide StartTurn;
    var first, rest := StartTurn(mark, xs[0]), Tried(mark, xs[1..], n - 1);
    var tried := Tried(mark, xs, n);
    if first.result.Failed? {
      FailedFirst(first, rest);
    } else {
      assert tried == [first] && !tried[0].result.Failed?;
    }
  }

  lemma FailedFirst(first: Attempt, rest: seq<Attempt>)
    requires first.result.Failed?
    ensures AllFailed([first] + rest) <==> AllFailed(rest)
  {
    var all := [first] + rest;
    assert forall i | 0 <= i < |rest| :: rest[i] == all[i + 1];
    assert forall i | 0 < i < |all| :: all[i] == rest[i - 1];
  }

  predicate AllFailed(tried: seq<Attempt>) { forall i | 0 <= i < |tried| :: tried[i].result.Failed? }

  function TurnOf(mark: WatchState, x: Exchange, save: nat, charge: Charge): seq<Turn> {
    if Accepted(mark, x) then [Turn(save, charge, StartTurn(mark, x).result.Started?)] else []
  }

  lemma TryOnce(d: Desk, x: Exchange)
    requires d.adapter.Up? && d.adapter.stage.Delivering?
    ensures var a, d' := d.adapter, Next(d, TryTurn(x));
            var again := StartTurn(a.mark, x).result.Failed? && a.stage.made + 1 < DELIVERY_ATTEMPTS;
            && d'.saves == d.saves && d'.tries[d.saves] == d.tries[d.saves] + 1
            && d'.turns == d.turns + TurnOf(a.mark, x, d.saves, a.stage.charge)
            && d'.adapter == a.(stage := if again then a.stage.(made := a.stage.made + 1) else Watching)
  {
    hide StartTurn, Accepted;
  }

  /** The desk makes exactly the attempts of the delivery loop: as many are counted
      for its save, the turns accepted are those of these attempts, and it goes on
      delivering exactly as long as the loop would. */
  lemma {:induction false} DeskMakesTheAttempts(d: Desk, xs: seq<Exchange>)
    requires d.adapter.Up? && d.adapter.stage.Delivering? && d.adapter.stage.made < DELIVERY_ATTEMPTS
    ensures var left := DELIVERY_ATTEMPTS - d.adapter.stage.made;
            var tried := Tried(d.adapter.mark, xs, left);
            var d' := RunTries(d, xs);
            && |tried| <= |xs|
            && d'.tries[d.saves] == d.tries[d.saves] + |tried|
            && d'.turns == d.turns + TurnsOf(d.adapter.mark, xs, |tried|, d.saves, d.adapter.stage.charge)
            && (d'.adapter.Up? && d'.adapter.stage.Delivering? <==> |tried| < left && AllFailed(tried))
    decreases |xs|
  {
    hide StartTurn, Accepted, Next, AllFailed, TurnOf;
    var a := d.adapter;
    var left := DELIVERY_ATTEMPTS - a.stage.made;
    if xs == [] {
      NoneTried(a.mark, left);
      assert d.turns + [] == d.turns;
    } else {
      TriedFirst(a.mark, xs, left);
      TryOnce(d, xs[0]);
      hide Tried;
      var d1 := Next(d, TryTurn(xs[0]));
      if d1.adapter.stage.Delivering? {
        DeskMakesTheAttempts(d1, xs[1..]);
      } else {
        DoneTries(d1, xs[1..]);
        NoneTried(a.mark, 0);
        NoMoreTried(a.mark, xs[1..]);
      }
    }
  }

  lemma NoneTried(mark: WatchState, n: nat)
    ensures Tried(mark, [], n) == [] && AllFailed([])
  {
  }

  lemma NoMoreTried(mark: WatchState, xs: seq<Exchange>)
    ensures Tried(mark, xs, 0) == []
  {
  }

  // --------------------------------------------------------------- a witness --

  const READ: seq<Step> := [CountCall, DateCall, InboxCall(true), React]

  const NEWS: Bus := Bus([Direct(7, false)], 0, 0)

  lemma {:induction false} RunInTwo(d: Desk, es: seq<Step>, fs: seq<Step>)
    ensures Run(d, es + fs) == Run(Run(d, es), fs)
    decreases |es|
  {
    hide Next;
    if es == [] {
      assert es + fs == fs;
    } else {
      assert (es + fs)[0] == es[0] && (es + fs)[1..] == es[1..] + fs;
      RunInTwo(Next(d, es[0]), es[1..], fs);
    }
  }

  lemma RunOne(d: Desk, e: Step)
    ensures Run(d, [e]) == Next(d, e)
  {
    hide Next;
    assert [e][1..] == [] && Run(Next(d, e), []) == Next(d, e);
  }

  /** A reading during which nothing happens, and what is made of it. */
  lemma ReadsOnce(d: Desk)
    requires d.adapter.Up? && !d.adapter.stage.Delivering? && d.adapter.reading.Looping?
    ensures Run(d, READ) == Reacted(d.(adapter := d.adapter.(reading := Ready(d.bus, d.bus, d.bus, true))))
  {
    var a := d.adapter;
    var d1 := d.(adapter := a.(reading := Counted(d.bus)));
    var d2 := d.(adapter := a.(reading := Dated(d.bus, d.bus)));
    var d3 := d.(adapter := a.(reading := Ready(d.bus, d.bus, d.bus, true)));
    assert d1 == Next(d, CountCall) && d2 == Next(d1, DateCall) && d3 == Next(d2, InboxCall(true));
    assert Next(d3, React) == Reacted(d3);
    hide Next, Reacted;
    assert READ == [CountCall] + ([DateCall] + ([InboxCall(true)] + [React]));
    RunInTwo(d, [CountCall], [DateCall] + ([InboxCall(true)] + [React]));
    RunInTwo(d1, [DateCall], [InboxCall(true)] + [React]);
    RunInTwo(d2, [InboxCall(true)], [React]);
    RunOne(d, CountCall);
    RunOne(d1, DateCall);
    RunOne(d2, InboxCall(true));
    RunOne(d3, React);
  }

  lemma Primes(d: Desk)
    requires d.adapter == Up(UNPRIMED, EMPTY_BUS, Watching, Looping) && d.bus == EMPTY_BUS
    ensures Run(d, READ) == SavedMark(d, WatchState(0, 0, 0, 0, true), EMPTY_BUS)
  {
    hide Run, READ, Next, ReadingOf;
    ReadsOnce(d);
    NothingRead(EMPTY_BUS, EMPTY_BUS);
  }

  lemma Notices(d: Desk)
    requires d.adapter == Up(WatchState(0, 0, 0, 0, true), EMPTY_BUS, Watching, Looping) && d.bus == EMPTY_BUS
    ensures Run(Next(d, Traffic(NEWS)), READ)
            == d.(bus := NEWS, adapter := Up(WatchState(0, 1, 7, 0, true), NEWS, Settling(ForDirect(7)), Looping))
  {
    hide Run, READ;
    var d' := Next(d, Traffic(NEWS));
    assert BusOk(NEWS) && Later(EMPTY_BUS, NEWS);
    assert d' == d.(bus := NEWS);
    hide Next, ReadingOf;
    ReadsOnce(d');
    OneUnread();
  }

  lemma Saves(d: Desk)
    requires d.adapter == Up(WatchState(0, 1, 7, 0, true), NEWS, Settling(ForDirect(7)), Looping) && d.bus == NEWS
    ensures var d' := Run(d, READ);
            && d'.adapter == Up(WatchState(0, 1, 7, 0, true), NEWS, Delivering(ForDirect(7), 0), Looping)
            && d'.turns == d.turns && d'.saves == d.saves + 1
  {
    hide Run, READ, ReadingOf, Next;
    ReadsOnce(d);
    OneUnread();
  }

  /** From nothing to a delivery under way: primed, then news, read twice. */
  lemma Delivers()
    ensures var d := Run(IDLE_DESK, [Begin] + READ + [Traffic(NEWS)] + READ + READ);
            d.turns == [] && d.saves == 1 && d.adapter.Up? && d.adapter.stage == Delivering(ForDirect(7), 0)
  {
    hide Run, READ;
    var d0 := Next(IDLE_DESK, Begin);
    assert d0 == IDLE_DESK.(adapter := Up(UNPRIMED, EMPTY_BUS, Watching, Looping));
    hide Next;
    Primes(d0);
    var d1 := Run(d0, READ);
    var d2 := Next(d1, Traffic(NEWS));
    Notices(d1);
    Saves(Run(d2, READ));
    RunOne(IDLE_DESK, Begin);
    RunInTwo(IDLE_DESK, [Begin], READ);
    RunOne(d1, Traffic(NEWS));
    RunInTwo(IDLE_DESK, [Begin] + READ, [Traffic(NEWS)]);
    RunInTwo(IDLE_DESK, [Begin] + READ + [Traffic(NEWS)], READ);
    RunInTwo(IDLE_DESK, [Begin] + READ + [Traffic(NEWS)] + READ, READ);
  }

  lemma OneUnread()
    ensures ReadingOf(NEWS, NEWS, NEWS, true) == Reading(1, 7, Some(0))
  {
    var ds := NEWS.directs;
    assert ds[0] == Direct(7, false) && ds[1..] == [];
    assert Unread(ds[1..]) == 0;
    assert Unread(ds) == 1;
  }

  /** It does happen: a `turn/start` answered without a turn id, with attempts left,
      is asked for again, and the save has two turns. */
  lemma NamelessAnswerRepeats(d: Desk)
    requires d.adapter.Up? && d.adapter.stage.Delivering? && d.adapter.stage.made + 1 < DELIVERY_ATTEMPTS
    ensures var d' := Next(Next(d, TryTurn(NAMELESS)), TryTurn(NAMED));
            var charge := d.adapter.stage.charge;
            d'.turns == d.turns + [Turn(d.saves, charge, false), Turn(d.saves, charge, true)]
  {
    TheseAreAccepted(d.adapter.mark);
    hide StartTurn, Accepted, Mute;
    var d1 := Next(d, TryTurn(NAMELESS));
    assert d1.turns == d.turns + [Turn(d.saves, d.adapter.stage.charge, false)];
  }

  /** From nothing: one message, a first `turn/start` answered without a turn id,
      a second answered with one, and two turns for the message. */
  lemma AcceptedTwice()
    ensures exists es: seq<Step> ::
              Run(IDLE_DESK, es).turns == [Turn(1, ForDirect(7), false), Turn(1, ForDirect(7), true)]
  {
    Delivers();
    hide Next, Run, READ;
    var es := [Begin] + READ + [Traffic(NEWS)] + READ + READ;
    var d := Run(IDLE_DESK, es);
    NamelessAnswerRepeats(d);
    RunInTwo(IDLE_DESK, es, [TryTurn(NAMELESS)]);
    RunOne(d, TryTurn(NAMELESS));
    RunInTwo(IDLE_DESK, es + [TryTurn(NAMELESS)], [TryTurn(NAMED)]);
    RunOne(Next(d, TryTurn(NAMELESS)), TryTurn(NAMED));
    assert Run(IDLE_DESK, es + [TryTurn(NAMELESS)] + [TryTurn(NAMED)]).turns
           == [] + [Turn(1, ForDirect(7), false), Turn(1, ForDirect(7), true)];
  }
}
