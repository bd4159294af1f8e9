/** Inbox delivery, `spool_and_confirm` of src/proxy.rs over the spool: read what
    is held, append what is new and fsync it, tell the bus, mark what it settled,
    compact. A run is any sequence of events; a crash may fall between any two
    bytes, and keeps the durable bytes and any beginning of the rest. An append
    may also fail and be carried on from, which leaves lines nobody synced. The
    file replacement of `rewrite` is one step. Fetches run one at a time. */
module Delivery {
  import opened Basics
  import opened Spool

  /** Where the proxy is, with what it remembers: `held` is what it read before
      appending, `added` what it appends. */
  datatype Phase =
    | Idle
    | Torn(held: seq<Entry>, added: seq<Entry>)
    | Repairing(held: seq<Entry>, added: seq<Entry>)
    | Writing(held: seq<Entry>, added: seq<Entry>, written: nat)
    | Sending(held: seq<Entry>)
    | Waiting(held: seq<Entry>, asked: seq<Id>)
    | Marked(held: seq<Entry>)

  /** `settled` is the bus's. The rest is history: ids whose lines were fsynced,
      ids ever sent for confirmation, ids whose lines a failed append left readable
      and nothing has synced since, and ids sent while their line was like that. */
  datatype World = World(
    text: string,
    durable: nat,
    phase: Phase,
    settled: set<Id>,
    synced: set<Id>,
    sent: set<Id>,
    loose: set<Id>,
    risked: set<Id>)

  /** The bus's answer: the ids it lists, a bare count from an older bus, or
      nothing usable. */
  datatype Reply = Listed(confirmed: set<Id>, already: set<Id>) | Count(n: int) | Nothing

  datatype Event =
    | Fetch(entries: seq<Entry>)
    | EndLine
    | SyncLine
    | Write(n: nat)
    | Sync
    | Send
    | Commit(ids: set<Id>)
    | Answer(reply: Reply)
    | NoAnswer
    | Replace(k: Retention)
    | ReplaceFails
    | Crash(keep: nat)
    | AppendFails

  // ------------------------------------------------------------- operations --

  function AsFetched(es: seq<Entry>): (r: seq<Entry>)
    ensures |r| == |es| && forall i | 0 <= i < |es| :: !r[i].confirmed
  {
    seq(|es|, i requires 0 <= i < |es| => es[i].(confirmed := false))
  }

  function Unconfirmed(es: seq<Entry>): seq<Id> {
    if es == [] then []
    else (if es[0].confirmed then [] else [es[0].deliveryId]) + Unconfirmed(es[1..])
  }

  function SettledIds(reply: Reply, asked: seq<Id>): set<Id> {
    match reply
    case Listed(confirmed, already) => confirmed + already
    case Count(n) => if n == |asked| then (set id <- asked) else {}
    case Nothing => {}
  }

  /** What the bus may truthfully say: the ids it lists it has settled, and a count
      of all that was asked means every one of them. */
  ghost predicate Honest(reply: Reply, settled: set<Id>, asked: seq<Id>) {
    match reply
    case Listed(confirmed, already) => confirmed <= settled && already <= settled
    case Count(n) => n == |asked| ==> forall id <- asked :: id in settled
    case Nothing => true
  }

  /** The reply says of an id asked that it is settled. */
  predicate Says(reply: Reply, asked: seq<Id>, id: Id) {
    || (reply.Listed? && (id in reply.confirmed || id in reply.already))
    || (reply.Count? && reply.n == |asked|)
  }

  lemma HonestSettles(reply: Reply, settled: set<Id>, asked: seq<Id>)
    requires Honest(reply, settled, asked)
    ensures SettledIds(reply, asked) <= settled
  {
  }

  /** An entry is marked if and only if it was asked about and the reply lists it, in
      either list, or is a bare count of all that was asked. */
  lemma MarkedIff(es: seq<Entry>, asked: seq<Id>, reply: Reply, i: nat)
    requires i < |es|
    ensures var e, m := es[i], Mark(es, asked, SettledIds(reply, asked))[i];
            && m == e.(confirmed := m.confirmed)
            && (m.confirmed <==> e.confirmed || (e.deliveryId in asked && Says(reply, asked, e.deliveryId)))
  {
  }

  function Mark(es: seq<Entry>, asked: seq<Id>, settled: set<Id>): (r: seq<Entry>)
    ensures |r| == |es|
  {
    seq(|es|, i requires 0 <= i < |es| =>
      if es[i].deliveryId in asked && es[i].deliveryId in settled then es[i].(confirmed := true) else es[i])
  }

  /** The entries asked about that the bus did not settle. */
  function Owed(es: seq<Entry>, asked: seq<Id>, settled: set<Id>): seq<Entry> {
    if es == [] then []
    else
      (if es[0].deliveryId in asked && es[0].deliveryId !in settled then [es[0]] else [])
      + Owed(es[1..], asked, settled)
  }

  lemma {:induction false} OwedSnoc(es: seq<Entry>, e: Entry, asked: seq<Id>, settled: set<Id>)
    ensures Owed(es + [e], asked, settled)
            == Owed(es, asked, settled)
               + (if e.deliveryId in asked && e.deliveryId !in settled then [e] else [])
    decreases |es|
  {
    if es == [] {
      assert es + [e] == [e] && [e][1..] == [];
    } else {
      assert (es + [e])[0] == es[0] && (es + [e])[1..] == es[1..] + [e];
      OwedSnoc(es[1..], e, asked, settled);
    }
  }

  /** The loop over `held` that marks what the bus settled, and counts the rest. */
  method MarkLoop(es: seq<Entry>, asked: seq<Id>, settled: set<Id>) returns (held: seq<Entry>, left: nat)
    ensures held == Mark(es, asked, settled)
    ensures left == |Owed(es, asked, settled)|
  {
    held, left := [], 0;
    assert Owed([], asked, settled) == [];
    for i := 0 to |es|
      invariant held == Mark(es[..i], asked, settled)
      invariant left == |Owed(es[..i], asked, settled)|
    {
      OwedSnoc(es[..i], es[i], asked, settled);
      assert es[..i + 1] == es[..i] + [es[i]];
      var e := es[i];
      if e.deliveryId in asked {
        if e.deliveryId in settled {
          e := e.(confirmed := true);
        } else {
          left := left + 1;
        }
      }
      held := held + [e];
    }
    assert es[..|es|] == es;
  }

  /** The entries of an append that are readable so far. */
  function Readable(c: Codec, p: Phase): seq<Entry>
    requires p.Writing?
  {
    p.added[..Survivors(c, p.added, p.written)]
  }

  ghost function Next(c: Codec, w: World, e: Event): World {
    match e
    case Fetch(entries) =>
      if !w.phase.Idle? then w
      else
        var held := Read(c, w.text);
        var added := Fresh(held, AsFetched(entries));
        w.(phase := if added == [] then Sending(held)
                    else if Terminated(w.text) then Writing(held, added, 0)
                    else Torn(held, added))
    case EndLine =>
      if !w.phase.Torn? then w
      else w.(text := w.text + "\n", phase := Repairing(w.phase.held, w.phase.added))
    case SyncLine =>
      if !w.phase.Repairing? then w
      else w.(durable := |w.text|, synced := w.synced + w.loose, loose := {},
              phase := Writing(w.phase.held, w.phase.added, 0))
    case Write(n) =>
      if !w.phase.Writing? then w
      else
        var lines := EncLines(c, w.phase.added);
        var at := w.phase.written;
        if at + n > |lines| then w
        else w.(text := w.text + lines[at..at + n], phase := w.phase.(written := at + n))
    case Sync =>
      if !w.phase.Writing? || w.phase.written != |EncLines(c, w.phase.added)| then w
      else w.(durable := |w.text|, synced := w.synced + w.loose + Ids(w.phase.added), loose := {},
              phase := Sending(w.phase.held + w.phase.added))
    case Send =>
      if !w.phase.Sending? then w
      else
        var asked := Unconfirmed(w.phase.held);
        if asked == [] then w.(phase := Idle)
        else w.(phase := Waiting(w.phase.held, asked), sent := w.sent + (set id <- asked),
                risked := w.risked + w.loose)
    case Commit(ids) => w.(settled := w.settled + ids * w.sent)
    case Answer(reply) =>
      if !w.phase.Waiting? || !Honest(reply, w.settled, w.phase.asked) then w
      else w.(phase := Marked(Mark(w.phase.held, w.phase.asked, SettledIds(reply, w.phase.asked))))
    case NoAnswer => if w.phase.Waiting? then w.(phase := Idle) else w
    case Replace(k) =>
      if !w.phase.Marked? then w
      else
        var text := RewriteText(c, k, w.phase.held);
        w.(text := text, durable := |text|, loose := {}, phase := Idle)
    case ReplaceFails => if w.phase.Marked? then w.(phase := Idle) else w
    case Crash(keep) =>
      if w.durable <= keep <= |w.text|
      then w.(text := w.text[..keep], durable := keep, loose := {}, phase := Idle) else w
    case AppendFails =>
      if w.phase.Torn? || w.phase.Repairing? then w.(phase := Idle)
      else if w.phase.Writing? then w.(phase := Idle, loose := w.loose + Ids(Readable(c, w.phase))) else w
  }

  ghost function Run(c: Codec, w: World, es: seq<Event>): World
    decreases |es|
  {
    if es == [] then w else Run(c, Next(c, w, es[0]), es[1..])
  }

  const START: World := World("", 0, Idle, {}, {}, {}, {}, {})

  // -------------------------------------------------------------- invariant --

  /** Nothing readable has a repeated id or is marked confirmed without the bus
      having settled it. */
  ghost predicate Sound(es: seq<Entry>, settled: set<Id>) {
    Distinct(es) && forall e <- es :: e.confirmed ==> e.deliveryId in settled
  }

  ghost predicate New(held: seq<Entry>, added: seq<Entry>) {
    Distinct(added) && Ids(added) !! Ids(held) && forall e <- added :: !e.confirmed
  }

  /** `b` is `a` with some entries marked. */
  ghost predicate MarkedFrom(a: seq<Entry>, b: seq<Entry>) {
    |a| == |b| && forall i | 0 <= i < |a| :: a[i].deliveryId == b[i].deliveryId
  }

  /** The text without the part of an append under way. */
  ghost function Base(w: World): string {
    if w.phase.Writing? && w.phase.written <= |w.text| then w.text[..|w.text| - w.phase.written] else w.text
  }

  /** A text of which `d` bytes are durable, wherever a crash may cut the rest:
      what is durable stays readable, no entry is read that the whole text does not
      hold, and the entries beyond the durable ones are new, unconfirmed, and those
      of `loose`. */
  ghost predicate Tail(c: Codec, t: string, d: nat, settled: set<Id>, loose: set<Id>) {
    && d <= |t|
    && var disk := Read(c, t[..d]);
       var all := Read(c, t);
       && (forall keep: nat | d <= keep <= |t| :: disk <= Read(c, t[..keep]) <= all)
       && disk <= all
       && Sound(disk, settled)
       && New(disk, all[|disk|..])
       && loose == Ids(all[|disk|..])
  }

  ghost predicate Shape(c: Codec, w: World) {
    match w.phase
    case Idle => true
    case Torn(held, added) => held == Read(c, w.text) && New(held, added)
    case Repairing(held, added) => Terminated(w.text) && held == Read(c, w.text) && New(held, added)
    case Writing(held, added, written) =>
      && Terminated(Base(w)) && held == Read(c, Base(w)) && New(held, added)
      && written <= |EncLines(c, added)| && w.text == Base(w) + EncLines(c, added)[..written]
    case Sending(held) => held == Read(c, w.text)
    case Waiting(held, asked) => held == Read(c, w.text) && asked == Unconfirmed(held)
    case Marked(held) => MarkedFrom(Read(c, w.text), held) && Sound(held, w.settled)
  }

  /** What a reader would find if the machine stopped now and kept only what is
      durable. */
  ghost function OnDisk(c: Codec, w: World): seq<Entry>
    requires w.durable <= |w.text|
  {
    Read(c, w.text[..w.durable])
  }

  ghost predicate Inv(c: Codec, w: World) {
    && Shape(c, w)
    && Tail(c, Base(w), w.durable, w.settled, w.loose)
    && w.durable <= |w.text|
    && w.synced + (w.sent - w.risked) <= Ids(OnDisk(c, w)) + w.settled
    && w.settled <= w.sent
  }

  // ------------------------------------------------------------ the pieces --

  lemma IdsJoin(a: seq<Entry>, b: seq<Entry>)
    ensures Ids(a + b) == Ids(a) + Ids(b)
  {
    assert forall e :: e in a + b <==> e in a || e in b;
  }

  lemma SoundJoins(a: seq<Entry>, b: seq<Entry>, settled: set<Id>)
    requires Sound(a, settled) && New(a, b)
    ensures Sound(a + b, settled)
  {
    DistinctJoins(a, b);
  }

  /** Whatever beginning of the added lines is on disk, it reads as the held
      entries and some first ones of the added. */
  lemma ReadPartWritten(c: Codec, base: string, added: seq<Entry>, n: nat)
    requires Lawful(c) && Terminated(base) && n <= |EncLines(c, added)|
    ensures Read(c, base + EncLines(c, added)[..n]) == Read(c, base) + added[..Survivors(c, added, n)]
  {
    ReadAdds(c, base, EncLines(c, added)[..n]);
    ReadTorn(c, added, n);
  }

  lemma NewPrefix(held: seq<Entry>, added: seq<Entry>, n: nat)
    requires New(held, added) && n <= |added|
    ensures New(held, added[..n])
  {
    assert Ids(added[..n]) <= Ids(added);
  }

  lemma NewJoins(a: seq<Entry>, b: seq<Entry>, x: seq<Entry>)
    requires New(a, b) && New(a + b, x)
    ensures New(a, b + x)
  {
    IdsJoin(a, b);
    IdsJoin(b, x);
    DistinctJoins(b, x);
  }

  lemma FetchedIsNew(held: seq<Entry>, entries: seq<Entry>)
    ensures New(held, Fresh(held, AsFetched(entries)))
  {
    FreshIsNew(held, AsFetched(entries));
  }

  lemma {:induction false} UnconfirmedAre(es: seq<Entry>)
    ensures forall id :: id in Unconfirmed(es) <==> exists e <- es :: e.deliveryId == id && !e.confirmed
    decreases |es|
  {
    if es == [] {
    } else {
      UnconfirmedAre(es[1..]);
      assert forall e :: e in es <==> e == es[0] || e in es[1..];
    }
  }

  lemma MarkIsSound(es: seq<Entry>, asked: seq<Id>, said: set<Id>, settled: set<Id>)
    requires Sound(es, settled) && said <= settled
    ensures MarkedFrom(es, Mark(es, asked, said)) && Sound(Mark(es, asked, said), settled)
  {
  }

  lemma MarkedIds(a: seq<Entry>, b: seq<Entry>)
    requires MarkedFrom(a, b)
    ensures Ids(a) == Ids(b)
  {
    forall id ensures id in Ids(a) <==> id in Ids(b) {
      if id in Ids(a) {
        var i :| 0 <= i < |a| && a[i].deliveryId == id;
        assert b[i] in b;
      }
      if id in Ids(b) {
        var i :| 0 <= i < |b| && b[i].deliveryId == id;
        assert a[i] in a;
      }
    }
  }

  // ---------------------------------------------------------------- the tail --

  lemma BaseIsThere(c: Codec, w: World)
    requires Inv(c, w)
    ensures w.durable <= |Base(w)| <= |w.text| && w.text[..w.durable] == Base(w)[..w.durable]
  {
    hide Read, EncLines;
  }

  lemma {:induction false} SurvivorsGrow(c: Codec, added: seq<Entry>, m: nat, n: nat)
    requires m <= n
    ensures Survivors(c, added, m) <= Survivors(c, added, n)
    decreases |added|
  {
    if added == [] || m < |c.enc(added[0])| {
    } else {
      var len := |c.enc(added[0])|;
      SurvivorsGrow(c, added[1..], if m == len then 0 else m - len - 1, if n == len then 0 else n - len - 1);
    }
  }

  lemma TailReads(c: Codec, t: string, d: nat, settled: set<Id>, loose: set<Id>)
    requires Tail(c, t, d, settled, loose)
    ensures var all := Read(c, t);
            && Sound(all, settled)
            && Ids(all) == Ids(Read(c, t[..d])) + loose
            && Ids(Read(c, t[..d])) !! loose
  {
    hide Read;
    var disk, all := Read(c, t[..d]), Read(c, t);
    assert all == disk + all[|disk|..];
    SoundJoins(disk, all[|disk|..], settled);
    IdsJoin(disk, all[|disk|..]);
  }

  /** Syncing makes the whole text durable. */
  lemma TailSynced(c: Codec, t: string, d: nat, settled: set<Id>, loose: set<Id>)
    requires Tail(c, t, d, settled, loose)
    ensures Tail(c, t, |t|, settled, {})
  {
    hide Read;
    TailReads(c, t, d, settled, loose);
    assert t[..|t|] == t;
    assert Read(c, t)[|Read(c, t)|..] == [];
  }

  /** A crash keeps any beginning of what is not durable. */
  lemma TailCut(c: Codec, t: string, d: nat, settled: set<Id>, loose: set<Id>, keep: nat)
    requires Tail(c, t, d, settled, loose) && d <= keep <= |t|
    ensures Tail(c, t[..keep], keep, settled, {})
    ensures Ids(Read(c, t[..d])) <= Ids(Read(c, t[..keep]))
  {
    hide Read;
    var disk, some, all := Read(c, t[..d]), Read(c, t[..keep]), Read(c, t);
    assert t[..keep][..keep] == t[..keep];
    assert some == disk + some[|disk|..];
    assert some[|disk|..] == all[|disk|..][..|some| - |disk|];
    NewPrefix(disk, all[|disk|..], |some| - |disk|);
    SoundJoins(disk, some[|disk|..], settled);
    IdsJoin(disk, some[|disk|..]);
    assert some[|some|..] == [];
  }

  /** Settling more ids harms nothing. */
  lemma TailSettled(c: Codec, t: string, d: nat, settled: set<Id>, loose: set<Id>, more: set<Id>)
    requires Tail(c, t, d, settled, loose) && settled <= more
    ensures Tail(c, t, d, more, loose)
  {
    hide Read;
  }

  /** Ending the last line adds no entry. */
  lemma TailEnded(c: Codec, t: string, d: nat, settled: set<Id>, loose: set<Id>)
    requires Lawful(c) && Tail(c, t, d, settled, loose)
    ensures Tail(c, t + "\n", d, settled, loose) && Read(c, t + "\n") == Read(c, t)
  {
    ReadEnded(c, t);
    hide Read, Lawful, Sound, New;
    var u := t + "\n";
    assert u[..d] == t[..d];
    forall keep: nat | d <= keep <= |u| ensures Read(c, t[..d]) <= Read(c, u[..keep]) <= Read(c, u) {
      if keep <= |t| {
        assert u[..keep] == t[..keep];
      } else {
        assert u[..keep] == u;
      }
    }
  }

  lemma ReadEnded(c: Codec, t: string)
    requires Lawful(c)
    ensures Read(c, t + "\n") == Read(c, t)
  {
    hide Read;
    if Terminated(t) {
      ReadAdds(c, t, "\n");
      ReadNewline(c);
    } else {
      RepairIsInvisible(c, t);
    }
  }

  lemma ReadNewline(c: Codec)
    ensures Read(c, "\n") == []
  {
    FindIs("\n", '\n', 0);
  }

  lemma PrefixesJoin(a: seq<Entry>, b: seq<Entry>, m: nat, n: nat)
    requires m <= n <= |b|
    ensures a <= a + b[..m] <= a + b[..n]
  {
  }

  /** Where a cut of a grown text reads. */
  lemma CutOfGrown(c: Codec, t: string, added: seq<Entry>, n: nat, keep: nat)
    requires Lawful(c) && Terminated(t) && n <= |EncLines(c, added)| && |t| <= keep <= |t| + n
    ensures var u := t + EncLines(c, added)[..n];
            Read(c, t) <= Read(c, u[..keep]) <= Read(c, u)
  {
    hide Read, Lawful, EncLines;
    var lines := EncLines(c, added);
    var u, m := t + lines[..n], keep - |t|;
    assert u[..keep] == t + lines[..m];
    ReadPartWritten(c, t, added, m);
    ReadPartWritten(c, t, added, n);
    SurvivorsGrow(c, added, m, n);
    hide Survivors;
    PrefixesJoin(Read(c, t), added, Survivors(c, added, m), Survivors(c, added, n));
  }

  lemma BeyondGrows(disk: seq<Entry>, all: seq<Entry>, some: seq<Entry>)
    requires disk <= all && New(disk, all[|disk|..]) && New(all, some)
    ensures disk <= all + some && New(disk, (all + some)[|disk|..])
    ensures Ids((all + some)[|disk|..]) == Ids(all[|disk|..]) + Ids(some)
  {
    hide New, Ids;
    assert all == disk + all[|disk|..];
    NewJoins(disk, all[|disk|..], some);
    IdsJoin(all[|disk|..], some);
    assert (all + some)[|disk|..] == all[|disk|..] + some;
  }

  lemma CutsOfGrown(c: Codec, t: string, d: nat, added: seq<Entry>, n: nat)
    requires Lawful(c) && Terminated(t) && n <= |EncLines(c, added)| && d <= |t|
    requires forall keep: nat | d <= keep <= |t| :: Read(c, t[..d]) <= Read(c, t[..keep]) <= Read(c, t)
    ensures var u := t + EncLines(c, added)[..n];
            forall keep: nat | d <= keep <= |u| :: Read(c, u[..d]) <= Read(c, u[..keep]) <= Read(c, u)
  {
    hide Read, Lawful, EncLines;
    var u := t + EncLines(c, added)[..n];
    assert u[..d] == t[..d];
    assert Read(c, t[..d]) <= Read(c, t) by {
      assert t[..|t|] == t;
    }
    CutOfGrown(c, t, added, n, |u|);
    assert u[..|u|] == u;
    forall keep: nat | d <= keep <= |u| ensures Read(c, u[..d]) <= Read(c, u[..keep]) <= Read(c, u) {
      if keep <= |t| {
        assert u[..keep] == t[..keep];
      } else {
        CutOfGrown(c, t, added, n, keep);
      }
    }
  }

  /** So much of an append written: what of it is readable is loose. */
  lemma TailGrown(c: Codec, t: string, d: nat, settled: set<Id>, loose: set<Id>, added: seq<Entry>, n: nat)
    requires Lawful(c) && Tail(c, t, d, settled, loose) && Terminated(t)
    requires New(Read(c, t), added) && n <= |EncLines(c, added)|
    ensures Tail(c, t + EncLines(c, added)[..n], d, settled, loose + Ids(added[..Survivors(c, added, n)]))
  {
    hide Read, Lawful, EncLines, Survivors;
    CutsOfGrown(c, t, d, added, n);
    ReadPartWritten(c, t, added, n);
    var some := added[..Survivors(c, added, n)];
    assert (t + EncLines(c, added)[..n])[..d] == t[..d];
    NewPrefix(Read(c, t), added, |some|);
    hide New, Ids, Sound;
    BeyondGrows(Read(c, t[..d]), Read(c, t), some);
  }

  // ------------------------------------------------------------- each event --

  /** The step keeps the invariant, and nothing leaves the disk that the bus had
      not settled. */
  ghost predicate Keeps(c: Codec, w: World, w': World)
    requires w.durable <= |w.text|
  {
    && Inv(c, w')
    && Ids(OnDisk(c, w)) <= Ids(OnDisk(c, w')) + w.settled
    && w.settled <= w'.settled
  }

  lemma FetchKeeps(c: Codec, w: World, entries: seq<Entry>)
    requires Lawful(c) && Inv(c, w)
    ensures Keeps(c, w, Next(c, w, Fetch(entries)))
  {
    hide Read, Lawful, Fresh, Tail, EncLines;
    if w.phase.Idle? {
      FetchedIsNew(Read(c, w.text), entries);
      var added := Fresh(Read(c, w.text), AsFetched(entries));
      assert EncLines(c, added)[..0] == [];
      assert w.text[..|w.text|] == w.text && w.text + [] == w.text;
    }
  }

  lemma EndLineKeeps(c: Codec, w: World)
    requires Lawful(c) && Inv(c, w)
    ensures Keeps(c, w, Next(c, w, EndLine))
  {
    hide Read, Lawful;
    if w.phase.Torn? {
      TailEnded(c, w.text, w.durable, w.settled, w.loose);
      assert (w.text + "\n")[..w.durable] == w.text[..w.durable];
      hide Tail;
    }
  }

  lemma SyncLineKeeps(c: Codec, w: World)
    requires Inv(c, w)
    ensures Keeps(c, w, Next(c, w, SyncLine))
  {
    hide Read, EncLines;
    if w.phase.Repairing? {
      TailSynced(c, w.text, w.durable, w.settled, w.loose);
      TailReads(c, w.text, w.durable, w.settled, w.loose);
      hide Tail;
      assert EncLines(c, w.phase.added)[..0] == [];
      assert w.text[..|w.text|] == w.text && w.text + [] == w.text;
    }
  }

  /** Writing on leaves what was there before the append where it is. */
  lemma WriteIs(c: Codec, w: World, n: nat)
    requires Inv(c, w) && w.phase.Writing? && w.phase.written + n <= |EncLines(c, w.phase.added)|
    ensures var w' := Next(c, w, Write(n));
            && Base(w') == Base(w) && w'.text[..w.durable] == w.text[..w.durable] && |w.text| <= |w'.text|
            && w'.text == Base(w) + EncLines(c, w.phase.added)[..w.phase.written + n]
            && w' == w.(text := w'.text, phase := w.phase.(written := w.phase.written + n))
  {
    hide Read, EncLines;
    BaseIsThere(c, w);
    hide Tail;
    var lines, at := EncLines(c, w.phase.added), w.phase.written;
    assert lines[..at] + lines[at..at + n] == lines[..at + n];
  }

  lemma WriteKeeps(c: Codec, w: World, n: nat)
    requires Inv(c, w)
    ensures Keeps(c, w, Next(c, w, Write(n)))
  {
    hide Read, EncLines, Tail;
    if w.phase.Writing? && w.phase.written + n <= |EncLines(c, w.phase.added)| {
      WriteIs(c, w, n);
      BaseIsThere(c, w);
      hide Next, Base, New;
    }
  }

  lemma SyncedReads(c: Codec, w: World)
    requires Lawful(c) && Inv(c, w) && w.phase.Writing? && w.phase.written == |EncLines(c, w.phase.added)|
    ensures Tail(c, w.text, |w.text|, w.settled, {})
    ensures Read(c, w.text) == w.phase.held + w.phase.added
    ensures Ids(Read(c, w.text)) == Ids(OnDisk(c, w)) + w.loose + Ids(w.phase.added)
  {
    hide Read, EncLines, Lawful, Survivors;
    var added, lines := w.phase.added, EncLines(c, w.phase.added);
    var base := Base(w);
    assert lines[..|lines|] == lines;
    BaseIsThere(c, w);
    TailReads(c, base, w.durable, w.settled, w.loose);
    WholeTail(c, w);
    TailSynced(c, w.text, w.durable, w.settled, LooseNow(c, w));
    hide Tail, Sound;
    ReadAdds(c, base, lines);
    ReadWritten(c, added);
    IdsJoin(Read(c, base), added);
  }

  lemma SyncKeeps(c: Codec, w: World)
    requires Lawful(c) && Inv(c, w)
    ensures Keeps(c, w, Next(c, w, Sync))
  {
    hide Read, EncLines, Lawful, Sound, New, Tail, Ids;
    if w.phase.Writing? && w.phase.written == |EncLines(c, w.phase.added)| {
      SyncedReads(c, w);
      var w' := Next(c, w, Sync);
      assert Base(w') == w.text && w.text[..|w.text|] == w.text;
      assert OnDisk(c, w') == Read(c, w.text);
      assert Shape(c, w');
      hide Shape, Base, OnDisk;
      var before, after, kept := Ids(OnDisk(c, w)), Ids(OnDisk(c, w')), w.synced + (w.sent - w.risked);
      assert w'.synced + (w'.sent - w'.risked) == kept + w.loose + Ids(w.phase.added);
    }
  }

  lemma AskedIds(es: seq<Entry>)
    ensures (set id <- Unconfirmed(es)) <= Ids(es)
  {
    UnconfirmedAre(es);
    hide Unconfirmed;
  }

  /** What sending adds to the ids the proxy answers for. */
  lemma SentAccounts(sent: set<Id>, risked: set<Id>, loose: set<Id>, asked: set<Id>, disk: set<Id>)
    requires asked <= disk + loose
    ensures (sent + asked) - (risked + loose) <= (sent - risked) + disk
  {
  }

  lemma SendKeeps(c: Codec, w: World)
    requires Inv(c, w)
    ensures Keeps(c, w, Next(c, w, Send))
  {
    hide Read, Unconfirmed, Ids;
    if w.phase.Sending? {
      TailReads(c, w.text, w.durable, w.settled, w.loose);
      AskedIds(w.phase.held);
      hide Tail;
      var asked := set id <- Unconfirmed(w.phase.held);
      SentAccounts(w.sent, w.risked, w.loose, asked, Ids(OnDisk(c, w)));
    }
  }

  lemma CommitKeeps(c: Codec, w: World, ids: set<Id>)
    requires Inv(c, w)
    ensures Keeps(c, w, Next(c, w, Commit(ids)))
  {
    hide Read;
    TailSettled(c, Base(w), w.durable, w.settled, w.loose, w.settled + ids * w.sent);
    hide Tail;
  }

  lemma AnswerKeeps(c: Codec, w: World, reply: Reply)
    requires Inv(c, w)
    ensures Keeps(c, w, Next(c, w, Answer(reply)))
  {
    hide Read, Mark, SettledIds, Ids;
    if w.phase.Waiting? && Honest(reply, w.settled, w.phase.asked) {
      TailReads(c, w.text, w.durable, w.settled, w.loose);
      HonestSettles(reply, w.settled, w.phase.asked);
      MarkIsSound(w.phase.held, w.phase.asked, SettledIds(reply, w.phase.asked), w.settled);
      hide Honest, Tail, Sound, MarkedFrom;
    }
  }

  lemma GiveUpKeeps(c: Codec, w: World)
    requires Inv(c, w)
    ensures Keeps(c, w, Next(c, w, NoAnswer)) && Keeps(c, w, Next(c, w, ReplaceFails))
  {
    hide Read, Tail, Sound, MarkedFrom, Ids;
  }

  lemma KeptOrSettled(k: Retention, held: seq<Entry>, settled: set<Id>)
    requires Sound(held, settled)
    ensures Ids(held) <= Ids(Kept(k, held)) + settled && Sound(Kept(k, held), settled)
  {
    KeptSome(k, held);
    forall id | id in Ids(held) ensures id in Ids(Kept(k, held)) + settled {
      var e :| e in held && e.deliveryId == id;
      if id !in settled {
        assert e in Kept(k, held);
      }
    }
  }

  lemma TailReplaced(c: Codec, k: Retention, held: seq<Entry>, settled: set<Id>)
    requires Lawful(c) && Sound(held, settled)
    ensures var t := RewriteText(c, k, held);
            Tail(c, t, |t|, settled, {}) && Read(c, t[..|t|]) == Kept(k, held)
  {
    hide Read, Lawful, RewriteText;
    var t := RewriteText(c, k, held);
    ReadAfterRewrite(c, k, held);
    KeptOrSettled(k, held, settled);
    assert t[..|t|] == t;
    assert Read(c, t)[|Read(c, t)|..] == [];
  }

  lemma ReplaceKeeps(c: Codec, w: World, k: Retention)
    requires Lawful(c) && Inv(c, w)
    ensures Keeps(c, w, Next(c, w, Replace(k)))
  {
    hide Read, Lawful, RewriteText, Kept;
    if w.phase.Marked? {
      var held := w.phase.held;
      TailReads(c, w.text, w.durable, w.settled, w.loose);
      TailReplaced(c, k, held, w.settled);
      KeptOrSettled(k, held, w.settled);
      MarkedIds(Read(c, w.text), held);
      hide Tail, Sound;
    }
  }

  lemma CrashKeeps(c: Codec, w: World, keep: nat)
    requires Lawful(c) && Inv(c, w)
    ensures Keeps(c, w, Next(c, w, Crash(keep)))
  {
    hide Read, Lawful, EncLines;
    if w.durable <= keep <= |w.text| {
      WholeTail(c, w);
      TailCut(c, w.text, w.durable, w.settled, LooseNow(c, w), keep);
      assert w.text[..keep][..keep] == w.text[..keep];
      hide Tail;
    }
  }

  /** The ids a failed append would leave loose now. */
  ghost function LooseNow(c: Codec, w: World): set<Id> {
    if w.phase.Writing? then w.loose + Ids(Readable(c, w.phase)) else w.loose
  }

  lemma WholeTail(c: Codec, w: World)
    requires Lawful(c) && Inv(c, w)
    ensures Tail(c, w.text, w.durable, w.settled, LooseNow(c, w))
  {
    hide Read, Lawful, EncLines, Survivors;
    if w.phase.Writing? {
      TailGrown(c, Base(w), w.durable, w.settled, w.loose, w.phase.added, w.phase.written);
    }
  }

  lemma FailKeeps(c: Codec, w: World)
    requires Lawful(c) && Inv(c, w)
    ensures Keeps(c, w, Next(c, w, AppendFails))
  {
    hide Read, Lawful, EncLines, Survivors;
    WholeTail(c, w);
    hide Tail;
  }

  /** Every step keeps the invariant, an append that fails included. */
  lemma NextKeeps(c: Codec, w: World, e: Event)
    requires Lawful(c) && Inv(c, w)
    ensures Keeps(c, w, Next(c, w, e))
  {
    hide *;
    match e
    case Fetch(entries) => FetchKeeps(c, w, entries);
    case EndLine => EndLineKeeps(c, w);
    case SyncLine => SyncLineKeeps(c, w);
    case Write(n) => WriteKeeps(c, w, n);
    case Sync => SyncKeeps(c, w);
    case Send => SendKeeps(c, w);
    case Commit(ids) => CommitKeeps(c, w, ids);
    case Answer(reply) => AnswerKeeps(c, w, reply);
    case NoAnswer => GiveUpKeeps(c, w);
    case Replace(k) => ReplaceKeeps(c, w, k);
    case ReplaceFails => GiveUpKeeps(c, w);
    case Crash(keep) => CrashKeeps(c, w, keep);
    case AppendFails => FailKeeps(c, w);
  }

  lemma {:induction false} RunKeeps(c: Codec, w: World, es: seq<Event>)
    requires Lawful(c) && Inv(c, w)
    ensures var w' := Run(c, w, es);
            Inv(c, w') && Ids(OnDisk(c, w)) <= Ids(OnDisk(c, w')) + w'.settled && w.settled <= w'.settled
    decreases |es|
  {
    hide Next, OnDisk, Shape, Tail;
    if es == [] {
    } else {
      NextKeeps(c, w, es[0]);
      RunKeeps(c, Next(c, w, es[0]), es[1..]);
    }
  }

  // -------------------------------------------------------------- theorems --

  lemma StartIsSound(c: Codec)
    ensures Inv(c, START)
  {
  }

  /** Over every run, with crashes at any byte, appends that fail and answers lost
      at will: an id whose line was fsynced, or that was sent for confirmation
      other than at risk, is on disk for good or settled by the bus; ids on disk
      are pairwise distinct, and one marked confirmed was settled. */
  lemma NothingIsLost(c: Codec, es: seq<Event>)
    requires Lawful(c)
    ensures var w := Run(c, START, es);
            && w.durable <= |w.text|
            && (forall id :: id in w.synced || (id in w.sent && id !in w.risked) ==>
                  id in Ids(OnDisk(c, w)) || id in w.settled)
            && Distinct(OnDisk(c, w))
            && (forall e <- OnDisk(c, w) :: e.confirmed ==> e.deliveryId in w.settled)
  {
    hide Run, Read, Lawful, Shape, Ids;
    StartIsSound(c);
    RunKeeps(c, START, es);
    var w := Run(c, START, es);
    assert w.text[..w.durable] == Base(w)[..w.durable] by {
      BaseIsThere(c, w);
    }
    assert Sound(OnDisk(c, w), w.settled);
    hide Tail;
    forall id | id in w.synced || (id in w.sent && id !in w.risked) ensures id in Ids(OnDisk(c, w)) + w.settled {
      assert id in w.synced + (w.sent - w.risked);
    }
  }

  /** From any reachable world on, an entry leaves the disk only after the bus
      settled its id. */
  lemma LeavesOnlySettled(c: Codec, before: seq<Event>, later: seq<Event>, id: Id)
    requires Lawful(c)
    ensures var w := Run(c, START, before);
            var w' := Run(c, w, later);
            && w.durable <= |w.text| && w'.durable <= |w'.text|
            && (id in Ids(OnDisk(c, w)) && id !in Ids(OnDisk(c, w')) ==> id in w'.settled)
  {
    hide OnDisk, Shape, Tail, Run;
    StartIsSound(c);
    RunKeeps(c, START, before);
    RunKeeps(c, Run(c, START, before), later);
  }

  /** At a confirmation, over the durable and the loose part of what is held. */
  lemma AskedAre(c: Codec, w: World)
    requires Inv(c, w) && w.phase.Sending?
    ensures var asked := Unconfirmed(w.phase.held);
            && (forall id :: id in asked <==>
                  id in w.loose || exists e <- OnDisk(c, w) :: e.deliveryId == id && !e.confirmed)
            && Ids(OnDisk(c, w)) !! w.loose
  {
    hide Read;
    var disk := OnDisk(c, w);
    var extra := w.phase.held[|disk|..];
    assert w.phase.held == disk + extra;
    UnconfirmedAre(w.phase.held);
    hide Unconfirmed;
    assert forall e :: e in w.phase.held <==> e in disk || e in extra;
  }

  /** Whenever a confirmation is sent, in every run: it names the unconfirmed
      entries on disk and the loose ones; all its ids are on disk for good if and
      only if no failed append has left a readable line unsynced; and every id ever
      fsynced, or sent other than at risk, that the bus has not settled is in it. */
  lemma SendsWhatIsDurableIff(c: Codec, es: seq<Event>)
    requires Lawful(c)
    ensures var w := Run(c, START, es);
            w.durable <= |w.text| &&
            (w.phase.Sending? ==>
              var asked := Unconfirmed(w.phase.held);
              && (forall id :: id in asked <==>
                    id in w.loose || exists e <- OnDisk(c, w) :: e.deliveryId == id && !e.confirmed)
              && ((forall id <- asked :: id in Ids(OnDisk(c, w))) <==> w.loose == {})
              && (forall id :: (id in w.synced || (id in w.sent && id !in w.risked)) && id !in w.settled ==>
                    id in asked))
  {
    hide *;
    StartIsSound(c);
    RunKeeps(c, START, es);
    var w := Run(c, START, es);
    DurableThere(c, w);
    if w.phase.Sending? {
      AskedAre(c, w);
      DurableIffNoneLoose(c, w);
      OwedIsAsked(c, w);
    }
  }

  lemma DurableThere(c: Codec, w: World)
    requires Inv(c, w)
    ensures w.durable <= |w.text|
  {
    hide Tail, Shape;
  }

  lemma OwedIsAsked(c: Codec, w: World)
    requires Inv(c, w) && w.phase.Sending?
    ensures forall id :: (id in w.synced || (id in w.sent && id !in w.risked)) && id !in w.settled ==>
              id in Unconfirmed(w.phase.held)
  {
    AskedAre(c, w);
    hide Unconfirmed, Read;
    assert Sound(OnDisk(c, w), w.settled);
    hide Tail, Shape, OnDisk;
    forall id | (id in w.synced || (id in w.sent && id !in w.risked)) && id !in w.settled
      ensures id in Unconfirmed(w.phase.held)
    {
      assert id in w.synced + (w.sent - w.risked);
      assert id in Ids(OnDisk(c, w));
    }
  }

  lemma AnswerThenReplace(c: Codec, w: World, reply: Reply, k: Retention)
    requires Lawful(c) && w.phase.Waiting? && Honest(reply, w.settled, w.phase.asked)
    ensures var w' := Next(c, Next(c, w, Answer(reply)), Replace(k));
            w'.durable == |w'.text| &&
            OnDisk(c, w') == Kept(k, Mark(w.phase.held, w.phase.asked, SettledIds(reply, w.phase.asked)))
  {
    hide Read, Lawful, Mark, RewriteText, Kept, SettledIds, Honest;
    var held := Mark(w.phase.held, w.phase.asked, SettledIds(reply, w.phase.asked));
    ReadAfterRewrite(c, k, held);
    var t := RewriteText(c, k, held);
    assert t[..|t|] == t;
  }

  lemma AskedEntry(c: Codec, w: World, i: nat)
    requires Inv(c, w) && w.phase.Waiting? && i < |w.phase.held|
    ensures Distinct(w.phase.held)
    ensures w.phase.held[i].deliveryId in w.phase.asked <==> !w.phase.held[i].confirmed
  {
    hide Read;
    TailReads(c, w.text, w.durable, w.settled, w.loose);
    UnconfirmedAre(w.phase.held);
    hide Tail, Unconfirmed;
    assert w.phase.held[i] in w.phase.held;
    forall e <- w.phase.held | e.deliveryId == w.phase.held[i].deliveryId ensures e == w.phase.held[i] {
      SameIdSameEntry(w.phase.held, i, e);
    }
  }

  lemma SameIdSameEntry(es: seq<Entry>, i: nat, e: Entry)
    requires Distinct(es) && i < |es| && e in es && e.deliveryId == es[i].deliveryId
    ensures e == es[i]
  {
    var j :| 0 <= j < |es| && es[j] == e;
  }

  /** Over every run, when an answer comes and the file is rewritten: of the entries
      asked about, one the reply does not say is settled is on disk, unconfirmed, as
      it was; one it does is on disk confirmed, or gone if it is two days old. */
  lemma SettledAsSaid(c: Codec, es: seq<Event>, reply: Reply, k: Retention, i: nat)
    requires Lawful(c)
    ensures var w := Run(c, START, es);
            w.phase.Waiting? && Honest(reply, w.settled, w.phase.asked) && i < |w.phase.held|
            && w.phase.held[i].deliveryId in w.phase.asked ==>
              var w' := Next(c, Next(c, w, Answer(reply)), Replace(k));
              var e := w.phase.held[i];
              && w'.durable <= |w'.text|
              && (!Says(reply, w.phase.asked, e.deliveryId) ==> e in OnDisk(c, w') && !e.confirmed)
              && (Says(reply, w.phase.asked, e.deliveryId) ==>
                    var m := e.(confirmed := true);
                    && (forall f <- OnDisk(c, w') :: f.deliveryId == e.deliveryId ==> f == m)
                    && (m in OnDisk(c, w') <==>
                          k.instant(e.spooledAt).None? || k.now - k.instant(e.spooledAt).value < 172_800))
  {
    var w := Run(c, START, es);
    StartIsSound(c);
    RunKeeps(c, START, es);
    hide Run, Next, OnDisk, Inv, Lawful, Honest, SettledIds, Mark, Kept, Says;
    if w.phase.Waiting? && Honest(reply, w.settled, w.phase.asked) && i < |w.phase.held|
       && w.phase.held[i].deliveryId in w.phase.asked {
      AskedEntry(c, w, i);
      AnswerThenReplace(c, w, reply, k);
      SaidOf(w.phase.held, w.phase.asked, reply, k, i);
    }
  }

  lemma SaidOf(held: seq<Entry>, asked: seq<Id>, reply: Reply, k: Retention, i: nat)
    requires Distinct(held) && i < |held| && held[i].deliveryId in asked && !held[i].confirmed
    ensures var e, kept := held[i], Kept(k, Mark(held, asked, SettledIds(reply, asked)));
            && (!Says(reply, asked, e.deliveryId) ==> e in kept)
            && (Says(reply, asked, e.deliveryId) ==>
                  var m := e.(confirmed := true);
                  && (forall f <- kept :: f.deliveryId == e.deliveryId ==> f == m)
                  && (m in kept <==>
                        k.instant(e.spooledAt).None? || k.now - k.instant(e.spooledAt).value < 172_800))
  {
    var marked := Mark(held, asked, SettledIds(reply, asked));
    MarkedIff(held, asked, reply, i);
    assert MarkedFrom(held, marked);
    assert Distinct(marked);
    hide Mark, SettledIds, Says;
    var m := marked[i];
    assert m in marked;
    KeptSome(k, marked);
    DroppedIff(k, marked, m);
    hide Kept, Retained;
    forall f <- marked | f.deliveryId == m.deliveryId ensures f == m {
      SameIdSameEntry(marked, i, f);
    }
  }

  /** A fetch ends wherever it has to be given up, and leaves the file to the next:
      an append that fails, nothing to confirm, a confirmation without an answer, a
      compaction that fails. */
  lemma GivenUpEnds(c: Codec, w: World)
    ensures w.phase.Torn? || w.phase.Repairing? || w.phase.Writing? ==>
              var w' := Next(c, w, AppendFails); w'.phase == Idle && w'.text == w.text && w'.durable == w.durable
    ensures w.phase.Sending? && Unconfirmed(w.phase.held) == [] ==> Next(c, w, Send) == w.(phase := Idle)
    ensures w.phase.Waiting? ==> Next(c, w, NoAnswer) == w.(phase := Idle)
    ensures w.phase.Marked? ==> Next(c, w, ReplaceFails) == w.(phase := Idle)
  {
  }

  /** No confirmation of the run goes out while something is loose. */
  ghost predicate SendsSafely(c: Codec, w: World, es: seq<Event>)
    decreases |es|
  {
    es != [] ==>
      (es[0].Send? && w.phase.Sending? ==> w.loose == {}) && SendsSafely(c, Next(c, w, es[0]), es[1..])
  }

  lemma {:induction false} SafeRunRisksNone(c: Codec, w: World, es: seq<Event>)
    requires SendsSafely(c, w, es)
    ensures Run(c, w, es).risked == w.risked
    decreases |es|
  {
    if es == [] {
    } else {
      assert Next(c, w, es[0]).risked == w.risked;
      hide Next;
      SafeRunRisksNone(c, Next(c, w, es[0]), es[1..]);
    }
  }

  /** So in every run that sends nothing while a line is loose, failed appends or
      not, every id ever fsynced or sent is on disk for good or settled. */
  lemma NothingSentIsLost(c: Codec, es: seq<Event>)
    requires Lawful(c) && SendsSafely(c, START, es)
    ensures var w := Run(c, START, es);
            && w.durable <= |w.text|
            && forall id :: id in w.synced || id in w.sent ==> id in Ids(OnDisk(c, w)) || id in w.settled
  {
    hide Run, Ids, OnDisk;
    NothingIsLost(c, es);
    SafeRunRisksNone(c, START, es);
  }

  /** When an append fails, whatever was left loose before it, and the next fetch
      brings nothing new: that fetch confirms only durable ids if and only if
      nothing was loose and the append had not written one whole line. */
  lemma AbandonedAppend(c: Codec, es: seq<Event>, entries: seq<Entry>)
    requires Lawful(c)
    ensures var w := Run(c, START, es);
            var w' := Next(c, Next(c, w, AppendFails), Fetch(entries));
            w.phase.Writing? && w'.phase.Sending? ==>
              && w'.durable <= |w'.text|
              && ((forall id <- Unconfirmed(w'.phase.held) :: id in Ids(OnDisk(c, w')))
                  <==> w.loose == {} && (w.phase.added != [] ==> w.phase.written < |c.enc(w.phase.added[0])|))
  {
    hide *;
    var w := Run(c, START, es);
    StartIsSound(c);
    RunKeeps(c, START, es);
    if w.phase.Writing? {
      AbandonedHere(c, w, entries);
    }
  }

  lemma AbandonedHere(c: Codec, w: World, entries: seq<Entry>)
    requires Lawful(c) && Inv(c, w) && w.phase.Writing?
    ensures var w' := Next(c, Next(c, w, AppendFails), Fetch(entries));
            w'.phase.Sending? ==>
              && w'.durable <= |w'.text|
              && ((forall id <- Unconfirmed(w'.phase.held) :: id in Ids(OnDisk(c, w')))
                  <==> w.loose == {} && (w.phase.added != [] ==> w.phase.written < |c.enc(w.phase.added[0])|))
  {
    hide Read, Lawful, Unconfirmed, Tail, EncLines, Fresh, Shape;
    var w1 := Next(c, w, AppendFails);
    FailKeeps(c, w);
    FetchKeeps(c, w1, entries);
    var w' := Next(c, w1, Fetch(entries));
    assert w'.loose == w.loose + Ids(Readable(c, w.phase));
    NoneReadable(c, w.phase);
    hide Next, Readable;
    if w'.phase.Sending? {
      DurableIffNoneLoose(c, w');
      hide Inv, OnDisk;
      assert w'.loose == {} <==> w.loose == {} && Ids(Readable(c, w.phase)) == {};
    }
  }

  lemma NoneReadable(c: Codec, p: Phase)
    requires p.Writing?
    ensures Ids(Readable(c, p)) == {} <==> (p.added != [] ==> p.written < |c.enc(p.added[0])|)
  {
    var some := Readable(c, p);
    if some != [] {
      assert some[0] in some && some[0].deliveryId in Ids(some);
    }
  }

  lemma DurableIffNoneLoose(c: Codec, w: World)
    requires Inv(c, w) && w.phase.Sending?
    ensures (forall id <- Unconfirmed(w.phase.held) :: id in Ids(OnDisk(c, w))) <==> w.loose == {}
  {
    AskedAre(c, w);
    hide Read, Unconfirmed, Tail, Shape;
  }

  // --------------------------------------------- the steps and the operation --

  function Sum(ns: seq<nat>): nat { if ns == [] then 0 else ns[0] + Sum(ns[1..]) }

  function Writes(ns: seq<nat>): (r: seq<Event>)
    ensures |r| == |ns|
  {
    if ns == [] then [] else [Write(ns[0])] + Writes(ns[1..])
  }

  /** However the bytes are divided among writes. */
  lemma {:induction false} WritesAdd(c: Codec, w: World, ns: seq<nat>)
    requires w.phase.Writing? && w.phase.written + Sum(ns) <= |EncLines(c, w.phase.added)|
    ensures var at, n := w.phase.written, Sum(ns);
            Run(c, w, Writes(ns))
            == w.(text := w.text + EncLines(c, w.phase.added)[at..at + n], phase := w.phase.(written := at + n))
    decreases |ns|
  {
    hide EncLines;
    var lines, at := EncLines(c, w.phase.added), w.phase.written;
    if ns == [] {
      assert w.text + lines[at..at] == w.text;
    } else {
      var w' := Next(c, w, Write(ns[0]));
      assert w' == w.(text := w.text + lines[at..at + ns[0]], phase := w.phase.(written := at + ns[0]));
      hide Next;
      assert ([Write(ns[0])] + Writes(ns[1..]))[1..] == Writes(ns[1..]);
      WritesAdd(c, w', ns[1..]);
      assert w.text + lines[at..at + ns[0]] + lines[at + ns[0]..at + Sum(ns)] == w.text + lines[at..at + Sum(ns)];
    }
  }

  /** The steps of an append that nothing interrupts. */
  function AppendSteps(t: string, ns: seq<nat>): seq<Event> {
    (if Terminated(t) then [] else [EndLine, SyncLine]) + Writes(ns) + [Sync]
  }

  lemma {:induction false} RunAppends(c: Codec, w: World, es: seq<Event>, fs: seq<Event>)
    ensures Run(c, w, es + fs) == Run(c, Run(c, w, es), fs)
    decreases |es|
  {
    hide Next;
    if es == [] {
      assert es + fs == fs;
    } else {
      assert (es + fs)[0] == es[0] && (es + fs)[1..] == es[1..] + fs;
      RunAppends(c, Next(c, w, es[0]), es[1..], fs);
    }
  }

  lemma RunOne(c: Codec, w: World, e: Event)
    ensures Run(c, w, [e]) == Next(c, w, e)
  {
    hide Next;
    assert [e][1..] == [] && Run(c, Next(c, w, e), []) == Next(c, w, e);
  }

  /** The line a torn file is ended with first. */
  lemma RepairsFirst(c: Codec, w: World)
    requires w.phase.Torn?
    ensures var w' := Run(c, w, [EndLine, SyncLine]);
            && w'.text == w.text + "\n" && w'.phase == Writing(w.phase.held, w.phase.added, 0)
  {
    var w1 := Next(c, w, EndLine);
    var w2 := Next(c, w1, SyncLine);
    assert w2.text == w.text + "\n" && w2.phase == Writing(w.phase.held, w.phase.added, 0);
    hide Next;
    assert [EndLine] + [SyncLine] == [EndLine, SyncLine];
    RunAppends(c, w, [EndLine], [SyncLine]);
    RunOne(c, w, EndLine);
    RunOne(c, w1, SyncLine);
  }

  lemma WritesThenSyncs(c: Codec, w: World, ns: seq<nat>)
    requires w.phase.Writing? && w.phase.written == 0 && Sum(ns) == |EncLines(c, w.phase.added)|
    ensures var w' := Run(c, w, Writes(ns) + [Sync]);
            && w'.text == w.text + EncLines(c, w.phase.added) && w'.durable == |w'.text|
            && w'.phase == Sending(w.phase.held + w.phase.added)
  {
    hide EncLines;
    var lines := EncLines(c, w.phase.added);
    WritesAdd(c, w, ns);
    assert lines[0..0 + Sum(ns)] == lines;
    var w1 := Run(c, w, Writes(ns));
    RunAppends(c, w, Writes(ns), [Sync]);
    RunOne(c, w1, Sync);
    hide Run;
  }

  /** What the steps of the protocol come to when nothing interrupts them, from any
      file and with the bytes divided among writes in any way: the text `append`
      leaves, all of it durable, and what it read and added to confirm. */
  lemma StepsAppend(c: Codec, w: World, entries: seq<Entry>, ns: seq<nat>)
    requires w.phase.Idle?
    ensures var held := Read(c, w.text);
            var added := Fresh(held, AsFetched(entries));
            var w1 := Next(c, w, Fetch(entries));
            if added == [] then w1.text == AppendText(c, w.text, AsFetched(entries)) && w1.phase == Sending(held)
            else
              Sum(ns) == |EncLines(c, added)| ==>
                var w' := Run(c, w1, AppendSteps(w.text, ns));
                && w'.text == AppendText(c, w.text, AsFetched(entries)) && w'.durable == |w'.text|
                && w'.phase == Sending(held + added)
  {
    hide Read, Fresh, EncLines;
    var held := Read(c, w.text);
    var added := Fresh(held, AsFetched(entries));
    var w1 := Next(c, w, Fetch(entries));
    if added != [] && Sum(ns) == |EncLines(c, added)| {
      if Terminated(w.text) {
        assert [] + Writes(ns) + [Sync] == Writes(ns) + [Sync];
        hide Next;
        WritesThenSyncs(c, w1, ns);
      } else {
        hide Next;
        RepairsFirst(c, w1);
        WritesThenSyncs(c, Run(c, w1, [EndLine, SyncLine]), ns);
        assert [EndLine, SyncLine] + Writes(ns) + [Sync] == [EndLine, SyncLine] + (Writes(ns) + [Sync]);
        RunAppends(c, w1, [EndLine, SyncLine], Writes(ns) + [Sync]);
      }
    }
  }

  /** So a failed fsync can end with the bus holding as delivered a reference
      that no process can find. */
  lemma FailedFsyncLosesAReference(c: Codec, e: Entry)
    requires Lawful(c)
    ensures var unsynced := [Fetch([e]), Write(|EncLines(c, [e.(confirmed := false)])|), AppendFails];
            var confirmed := [Fetch([]), Send, Commit({e.deliveryId}), Crash(0)];
            var w := Run(c, Run(c, START, unsynced), confirmed);
            e.deliveryId in w.settled && w.text == "" && w.phase == Idle
  {
    hide Read, EncLines, Lawful, Next, AsFetched, Fresh, Run;
    var f := e.(confirmed := false);
    var n := |EncLines(c, [f])|;
    var w1 := Next(c, START, Fetch([e]));
    var w2 := Next(c, w1, Write(n));
    var w3 := Next(c, w2, AppendFails);
    Unsynced(c, e);
    RunCons(c, START, Fetch([e]), [Write(n), AppendFails]);
    RunCons(c, w1, Write(n), [AppendFails]);
    RunCons(c, w2, AppendFails, []);
    RunNone(c, w3);
    assert [Fetch([e])] + [Write(n), AppendFails] == [Fetch([e]), Write(n), AppendFails];
    assert [Write(n)] + [AppendFails] == [Write(n), AppendFails] && [AppendFails] + [] == [AppendFails];
    var w4 := Next(c, w3, Fetch([]));
    var w5 := Next(c, w4, Send);
    var w6 := Next(c, w5, Commit({e.deliveryId}));
    var w7 := Next(c, w6, Crash(0));
    Confirmed(c, f);
    RunCons(c, w3, Fetch([]), [Send, Commit({e.deliveryId}), Crash(0)]);
    RunCons(c, w4, Send, [Commit({e.deliveryId}), Crash(0)]);
    RunCons(c, w5, Commit({e.deliveryId}), [Crash(0)]);
    RunCons(c, w6, Crash(0), []);
    RunNone(c, w7);
    assert [Fetch([])] + [Send, Commit({e.deliveryId}), Crash(0)]
           == [Fetch([]), Send, Commit({e.deliveryId}), Crash(0)];
    assert [Send] + [Commit({e.deliveryId}), Crash(0)] == [Send, Commit({e.deliveryId}), Crash(0)];
    assert [Commit({e.deliveryId})] + [Crash(0)] == [Commit({e.deliveryId}), Crash(0)] && [Crash(0)] + [] == [Crash(0)];
  }

  lemma RunCons(c: Codec, w: World, e: Event, es: seq<Event>)
    ensures Run(c, w, [e] + es) == Run(c, Next(c, w, e), es)
  {
    hide Next;
    assert ([e] + es)[1..] == es;
  }

  lemma RunNone(c: Codec, w: World)
    ensures Run(c, w, []) == w
  {}

  lemma Unsynced(c: Codec, e: Entry)
    requires Lawful(c)
    ensures var f := e.(confirmed := false);
            var lines := EncLines(c, [f]);
            Next(c, Next(c, Next(c, START, Fetch([e])), Write(|lines|)), AppendFails)
            == World(lines, 0, Idle, {}, {}, {}, {e.deliveryId}, {})
  {
    var f := e.(confirmed := false);
    var lines := EncLines(c, [f]);
    assert AsFetched([e]) == [f];
    assert [f][..0] == [];
    assert Fresh([], [f]) == [f];
    assert Read(c, "") == [];
    hide Read, EncLines, Lawful, AsFetched, Fresh;
    var w1 := Next(c, START, Fetch([e]));
    assert w1.phase == Writing([], [f], 0);
    assert "" + lines[0..|lines|] == lines;
  }

  lemma Confirmed(c: Codec, f: Entry)
    requires Lawful(c) && !f.confirmed
    ensures var w := World(EncLines(c, [f]), 0, Idle, {}, {}, {}, {f.deliveryId}, {});
            var w' := Next(c, Next(c, Next(c, Next(c, w, Fetch([])), Send), Commit({f.deliveryId})), Crash(0));
            f.deliveryId in w'.settled && w'.text == "" && w'.phase == Idle
  {
    var w := World(EncLines(c, [f]), 0, Idle, {}, {}, {}, {f.deliveryId}, {});
    ReadWritten(c, [f]);
    assert AsFetched([]) == [] && Fresh([f], []) == [];
    UnconfirmedAre([f]);
    assert f.deliveryId in Unconfirmed([f]) by { assert f in [f]; }
    hide Read, EncLines, Lawful, AsFetched, Fresh, Unconfirmed;
    var w1 := Next(c, w, Fetch([]));
    assert w1.phase == Sending([f]);
    var w2 := Next(c, w1, Send);
    assert w2.phase == Waiting([f], Unconfirmed([f])) && f.deliveryId in w2.sent;
  }
}
