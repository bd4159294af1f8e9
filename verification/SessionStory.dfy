/** What the window is connected as, told from the events alone: the candidates
    connects were offered, the secrets the bus rotated to, the renewals and the
    refusals that were answered, each for the generation it was asked under. The
    window is then exactly what the story says, over every run of `Session`. */
module SessionStory {
  import opened Basics
  import opened Session

  /** A context as it was made, with the expiry it has now. */
  datatype Made = Made(team: string, cred: Option<Cred>, expires: int)

  /** By task: the candidate it was offered, the secret and expiry it was handed, and
      whether its connection opened. By generation: the context made under it, and
      whether a refusal was answered. And the identity a failed adoption kept. */
  datatype Story = Story(
    offered: map<nat, Candidate>,
    rotated: map<nat, (nat, int)>,
    opens: map<nat, bool>,
    made: map<nat, Made>,
    refusals: set<nat>,
    kept: Option<Identity>)

  const NOTHING_YET: Story := Story(map[], map[], map[], map[], {}, None)

  /** The credential a rotation hands out: the session's next epoch. */
  function Rotation(prior: Cred, token: nat): Cred { Cred(token, prior.sessionId, prior.epoch + 1) }

  /** What an event adds to the story, given where its task is. */
  function Told(s: Story, w: World, e: Event): Story {
    var gen := w.st.generation;
    match e
    case EstablishOk(t, cand) =>
      if t in w.tasks && w.tasks[t].Establishing? then s.(offered := s.offered[t := cand]) else s
    case Rotate(t, token, expires) =>
      if t in w.tasks && w.tasks[t].Rotating? then s.(rotated := s.rotated[t := (token, expires)]) else s
    case Open(t, ok) => if t in w.tasks && w.tasks[t].Rotated? then s.(opens := s.opens[t := ok]) else s
    case Swap(t) =>
      if t in w.tasks && w.tasks[t].Taken? && t in s.offered
      then
        var c := s.offered[t];
        s.(made := s.made[gen + 1 := Made(c.team, c.cred, c.expires)], kept := None)
      else s
    case Adopt(t) =>
      if t in w.tasks && w.tasks[t].Opened? && t in s.rotated && t in s.opens
         && gen in s.made && s.made[gen].cred.Some?
      then
        var cred := Some(Rotation(s.made[gen].cred.value, s.rotated[t].0));
        if s.opens[t] then s.(made := s.made[gen + 1 := Made(s.made[gen].team, cred, s.rotated[t].1)], kept := None)
        else s.(kept := Some(Identity(s.made[gen].team, cred)))
      else s
    case RenewOk(t, expires) =>
      if t in w.tasks && w.tasks[t].Renewing? && w.tasks[t].gen == gen && gen in s.made
      then s.(made := s.made[gen := s.made[gen].(expires := expires)]) else s
    case CallRefused(t) =>
      if t in w.tasks && w.tasks[t].Calling? && w.tasks[t].gen == gen then s.(refusals := s.refusals + {gen}) else s
    case RenewRefused(t) =>
      if t in w.tasks && w.tasks[t].Renewing? && w.tasks[t].gen == gen then s.(refusals := s.refusals + {gen}) else s
    case _ => s
  }

  function StoryOf(s: Story, w: World, es: seq<Event>): Story
    decreases |es|
  {
    if es == [] then s else StoryOf(Told(s, w, es[0]), Next(w, es[0]), es[1..])
  }

  // -------------------------------------------------------------- invariant --

  /** The connected context is the one made under its generation; what is kept is
      what was stranded; and the window counts as refused exactly if a refusal was
      answered under its generation, or it is stranded. */
  ghost predicate StateTold(st: State, s: Story) {
    && (st.connected.Some? ==>
          && st.generation in s.made
          && var c := st.connected.value; s.made[st.generation] == Made(c.team, c.cred, c.expires))
    && st.stranded == s.kept
    && (st.refused <==> st.generation in s.refusals || st.stranded.Some?)
    && (forall g <- s.refusals :: g <= st.generation)
  }

  /** What a task carries is what it was told. */
  ghost predicate TaskTold(st: State, s: Story, t: nat, p: Task) {
    match p
    case Established(_, cand) => t in s.offered && s.offered[t] == cand
    case Admitted(_, cand) => t in s.offered && s.offered[t] == cand
    case Defaulted(_, cand) => t in s.offered && s.offered[t] == cand
    case Taken(_, cand) => t in s.offered && s.offered[t] == cand
    case Rotated(cred, expires) => Handed(st, s, t, cred, expires)
    case Opened(cred, expires, ok) => Handed(st, s, t, cred, expires) && t in s.opens && s.opens[t] == ok
    case Renewing(_, asked, gen) =>
      gen <= st.generation
      && (gen == st.generation && st.connected.Some? ==> st.connected.value.cred == Some(asked))
    case _ => true
  }

  ghost predicate Handed(st: State, s: Story, t: nat, cred: Cred, expires: int) {
    && st.connected.Some? && st.connected.value.cred.Some?
    && t in s.rotated && s.rotated[t] == (cred.token, expires)
    && cred == Rotation(st.connected.value.cred.value, cred.token)
  }

  ghost predicate TasksTold(w: World, s: Story) { forall t <- w.tasks :: TaskTold(w.st, s, t, w.tasks[t]) }

  ghost predicate StoryOk(w: World, s: Story) { StateTold(w.st, s) && TasksTold(w, s) }

  // ---------------------------------------------------------------- framing --

  ghost predicate SameFor(s: Story, s': Story, u: nat) {
    && (u in s.offered ==> u in s'.offered && s'.offered[u] == s.offered[u])
    && (u in s.rotated ==> u in s'.rotated && s'.rotated[u] == s.rotated[u])
    && (u in s.opens ==> u in s'.opens && s'.opens[u] == s.opens[u])
  }

  function CredNow(st: State): Option<Option<Cred>> {
    if st.connected.Some? then Some(st.connected.value.cred) else None
  }

  /** The connected credential is as it was, or a task that holds the lock changed
      generation or took the connection away. */
  ghost predicate Steady(w: World, w': World, t: nat) {
    || (w'.st.generation == w.st.generation && CredNow(w'.st) == CredNow(w.st))
    || (w.holder == Some(t) && (w'.st.generation > w.st.generation
                                || (w'.st.generation == w.st.generation && w'.st.connected.None?)))
  }

  lemma TaskToldKeeps(w: World, w': World, s: Story, s': Story, t: nat, u: nat, p: Task)
    requires TaskTold(w.st, s, u, p) && SameFor(s, s', u) && Steady(w, w', t) && (w.holder == Some(t) ==> !Holds(p))
    ensures TaskTold(w'.st, s', u, p)
  {
  }

  lemma TasksToldKeep(w: World, w': World, s: Story, s': Story, t: nat)
    requires LockOk(w) && TasksTold(w, s) && OthersStay(w, w', t) && Steady(w, w', t)
    requires forall u | u != t :: SameFor(s, s', u)
    requires t in w'.tasks ==> TaskTold(w'.st, s', t, w'.tasks[t])
    ensures TasksTold(w', s')
  {
    hide TaskTold, SameFor, Steady;
    forall u <- w'.tasks ensures TaskTold(w'.st, s', u, w'.tasks[u]) {
      if u != t {
        assert Holds(w.tasks[u]) <==> w.holder == Some(u);
        TaskToldKeeps(w, w', s, s', t, u, w.tasks[u]);
      }
    }
  }

  /** Nothing the story speaks of changes. */
  ghost predicate Still(w: World, w': World) {
    && w'.st.connected == w.st.connected && w'.st.stranded == w.st.stranded
    && w'.st.refused == w.st.refused && w'.st.generation == w.st.generation
  }

  lemma StillTold(w: World, w': World, s: Story, t: nat)
    requires LockOk(w) && StoryOk(w, s) && OthersStay(w, w', t) && Still(w, w')
    requires t in w'.tasks ==> TaskTold(w'.st, s, t, w'.tasks[t])
    ensures StoryOk(w', s)
  {
    TasksToldKeep(w, w', s, s, t);
  }

  // ------------------------------------------------------------- each event --

  ghost predicate Keeps(w: World, s: Story, e: Event) { StoryOk(Next(w, e), Told(s, w, e)) }

  lemma OneTold(w: World, s: Story, t: nat)
    requires StoryOk(w, s) && t in w.tasks
    ensures TaskTold(w.st, s, t, w.tasks[t])
  {
  }

  lemma Setting(w: World, e: Event)
    requires Inv(w) && !e.Swap? && !e.Adopt? && !e.SetKey?
    ensures LockOk(w) && OthersStay(w, Next(w, e), e.t)
  {
    NextFramed(w, e);
    hide Next;
  }

  predicate Plain(e: Event) {
    e.Spawn? || e.Lock? || e.EstablishFails? || e.CheckTeam? || e.Defaults? || e.Snap? || e.Flush? || e.Relabel?
    || e.RotateFails? || e.Call? || e.CallEnds? || e.Renew?
  }

  /** Where a plain event may leave its task. */
  ghost predicate PlainTask(w: World, w': World, t: nat) {
    t in w'.tasks && (t !in w.tasks || w'.tasks[t] != w.tasks[t]) ==>
      var p := w'.tasks[t];
      match p
      case Established(_, _) => false
      case Admitted(cfg, cand) => t in w.tasks && w.tasks[t] == Established(cfg, cand)
      case Defaulted(cfg, cand) => t in w.tasks && w.tasks[t] == Admitted(cfg, cand)
      case Taken(_, _) => false
      case Rotated(_, _) => false
      case Opened(_, _, _) => false
      case Renewing(_, asked, gen) =>
        gen == w.st.generation && w.st.connected.Some? && w.st.connected.value.cred == Some(asked)
      case _ => true
  }

  ghost predicate Unmoved(w: World, w': World, t: nat) { Still(w, w') && PlainTask(w, w', t) }

  lemma SpawnPlain(w: World, t: nat, task: Task)
    ensures Unmoved(w, OnSpawn(w, t, task), t)
  {
    hide Moves;
  }

  lemma LockPlain(w: World, t: nat)
    ensures Unmoved(w, OnLock(w, t), t)
  {
    hide Moves;
  }

  lemma CallPlain(w: World, t: nat, boundTo: Option<nat>)
    ensures Unmoved(w, OnCall(w, t, boundTo), t)
  {
    hide Moves;
  }

  lemma CallEndsPlain(w: World, t: nat)
    ensures Unmoved(w, OnCallEnds(w, t), t)
  {
    hide Moves;
  }

  lemma RenewPlain(w: World, t: nat)
    ensures Unmoved(w, OnRenew(w, t), t)
  {
    hide Moves;
  }

  lemma EstablishFailsPlain(w: World, t: nat)
    ensures Unmoved(w, OnEstablishFails(w, t), t)
  {
    hide Moves;
  }

  lemma CheckTeamPlain(w: World, t: nat)
    ensures Unmoved(w, OnCheckTeam(w, t), t)
  {
    hide Moves, IdentityOf;
  }

  lemma DefaultsPlain(w: World, t: nat)
    ensures Unmoved(w, OnDefaults(w, t), t)
  {
    hide Moves, WithDefaults;
  }

  lemma RelabelPlain(w: World, t: nat)
    ensures Unmoved(w, OnRelabel(w, t), t)
  {
    hide Moves, Relabelled;
  }

  lemma SnapPlain(w: World, t: nat)
    ensures Unmoved(w, OnSnap(w, t), t)
  {
    hide Moves, IdentityOf, CredOf;
  }

  lemma FlushPlain(w: World, t: nat)
    ensures Unmoved(w, OnFlush(w, t), t)
  {
    hide Moves;
  }

  lemma RotateFailsPlain(w: World, t: nat, busRotated: bool, token: nat)
    ensures Unmoved(w, OnRotateFails(w, t, busRotated, token), t)
  {
    hide Moves;
  }

  lemma PlainStill(w: World, e: Event)
    requires Plain(e)
    ensures Unmoved(w, Next(w, e), e.t)
  {
    hide Unmoved, Moves;
    hide OnSpawn, OnLock, OnCall, OnCallEnds, OnRenew, OnEstablishFails, OnCheckTeam, OnDefaults;
    hide OnRelabel, OnSnap, OnFlush, OnRotateFails;
    if e.Spawn? {
      SpawnPlain(w, e.t, e.task);
    } else if e.Call? {
      CallPlain(w, e.t, e.boundTo);
    } else if e.RotateFails? {
      RotateFailsPlain(w, e.t, e.busRotated, e.token);
    } else if e.Lock? {
      LockPlain(w, e.t);
    } else if e.CallEnds? {
      CallEndsPlain(w, e.t);
    } else if e.Renew? {
      RenewPlain(w, e.t);
    } else if e.EstablishFails? {
      EstablishFailsPlain(w, e.t);
    } else if e.CheckTeam? {
      CheckTeamPlain(w, e.t);
    } else if e.Defaults? {
      DefaultsPlain(w, e.t);
    } else if e.Relabel? {
      RelabelPlain(w, e.t);
    } else if e.Snap? {
      SnapPlain(w, e.t);
    } else if e.Flush? {
      FlushPlain(w, e.t);
    }
  }

  lemma PlainTold(w: World, w': World, s: Story, t: nat)
    requires Unmoved(w, w', t) && t in w'.tasks && (t in w.tasks ==> TaskTold(w.st, s, t, w.tasks[t]))
    ensures TaskTold(w'.st, s, t, w'.tasks[t])
  {
  }

  lemma PlainKeeps(w: World, s: Story, e: Event)
    requires Inv(w) && StoryOk(w, s) && Plain(e)
    ensures Keeps(w, s, e)
  {
    assert Told(s, w, e) == s;
    hide Told;
    Setting(w, e);
    PlainStill(w, e);
    var w' := Next(w, e);
    hide Next, LockOk, OthersStay, Inv;
    if e.t in w.tasks {
      OneTold(w, s, e.t);
    }
    if e.t in w'.tasks {
      PlainTold(w, w', s, e.t);
    }
    hide StoryOk, TaskTold;
    StillTold(w, w', s, e.t);
  }

  /** An event that changes the story of its own task, or what is made. */
  lemma ToldAnew(w: World, w': World, s: Story, s': Story, t: nat)
    requires LockOk(w) && TasksTold(w, s) && OthersStay(w, w', t) && Steady(w, w', t)
    requires s'.offered == s.offered || (t in s'.offered && s'.offered == s.offered[t := s'.offered[t]])
    requires s'.rotated == s.rotated || (t in s'.rotated && s'.rotated == s.rotated[t := s'.rotated[t]])
    requires s'.opens == s.opens || (t in s'.opens && s'.opens == s.opens[t := s'.opens[t]])
    requires t in w'.tasks ==> TaskTold(w'.st, s', t, w'.tasks[t])
    requires StateTold(w'.st, s')
    ensures StoryOk(w', s')
  {
    hide TaskTold, Steady, StateTold, LockOk, OthersStay;
    forall u | u != t ensures SameFor(s, s', u) {
    }
    TasksToldKeep(w, w', s, s', t);
  }

  lemma EstablishTold(w: World, s: Story, t: nat, cand: Candidate)
    requires Inv(w) && StoryOk(w, s)
    ensures Keeps(w, s, EstablishOk(t, cand))
  {
    Setting(w, EstablishOk(t, cand));
    hide LockOk, OthersStay, Moves, Accepted, TasksTold, Inv;
    var w', s' := OnEstablishOk(w, t, cand), Told(s, w, EstablishOk(t, cand));
    if t in w.tasks && w.tasks[t].Establishing? {
      ToldAnew(w, w', s, s', t);
    }
  }

  lemma OpenTold(w: World, s: Story, t: nat, ok: bool)
    requires Inv(w) && StoryOk(w, s)
    ensures Keeps(w, s, Open(t, ok))
  {
    Setting(w, Open(t, ok));
    hide LockOk, OthersStay, Moves, TasksTold, Inv;
    var w', s' := OnOpen(w, t, ok), Told(s, w, Open(t, ok));
    if t in w.tasks && w.tasks[t].Rotated? {
      OneTold(w, s, t);
      ToldAnew(w, w', s, s', t);
    }
  }

  lemma RotateTold(w: World, s: Story, t: nat, token: nat, expires: int)
    requires Inv(w) && StoryOk(w, s)
    ensures Keeps(w, s, Rotate(t, token, expires))
  {
    Setting(w, Rotate(t, token, expires));
    var w', s' := OnRotate(w, t, token, expires), Told(s, w, Rotate(t, token, expires));
    if t in w.tasks && w.tasks[t].Rotating? {
      OneTask(w, t);
      hide LockOk, OthersStay, Moves, TasksTold, Inv, TasksOk, TeamOk, GenOk;
      ToldAnew(w, w', s, s', t);
    }
  }

  lemma TakeTold(w: World, s: Story, t: nat)
    requires Inv(w) && StoryOk(w, s)
    ensures Keeps(w, s, Take(t))
  {
    Setting(w, Take(t));
    var w' := OnTake(w, t);
    if t in w.tasks && w.tasks[t].Defaulted? {
      OneTold(w, s, t);
      OneTask(w, t);
      hide LockOk, OthersStay, Moves, TasksTold, Inv, TasksOk, TeamOk, GenOk;
      ToldAnew(w, w', s, s, t);
    }
  }

  lemma SwapTold(w: World, s: Story, t: nat)
    requires Inv(w) && StoryOk(w, s)
    ensures Keeps(w, s, Swap(t))
  {
    SwapRemembers(w, t);
    var w', s' := OnSwap(w, t), Told(s, w, Swap(t));
    if t in w.tasks && w.tasks[t].Taken? {
      OneTold(w, s, t);
      OneTask(w, t);
      hide LockOk, OthersStay, NamesKept, TasksTold, Inv, TasksOk, TeamOk, GenOk;
      ToldAnew(w, w', s, s', t);
    }
  }

  lemma ConnectState(w: World, s: Story, team: string, cred: Option<Cred>, expires: int)
    requires StateTold(w.st, s)
    ensures StateTold(Connect(w, team, cred, expires).st,
                      s.(made := s.made[w.st.generation + 1 := Made(team, cred, expires)], kept := None))
  {
  }

  lemma StrandState(w: World, s: Story, c: Context, cred: Cred)
    requires StateTold(w.st, s)
    ensures StateTold(Strand(w, c, cred).st, s.(kept := Some(Identity(c.team, Some(cred)))))
  {
  }

  lemma AdoptState(w: World, s: Story, t: nat)
    requires StateTold(w.st, s) && t in w.tasks && w.tasks[t].Opened? && TaskTold(w.st, s, t, w.tasks[t])
    ensures var w', s' := OnAdopt(w, t), Told(s, w, Adopt(t));
            && StateTold(w'.st, s') && w'.st.generation > w.st.generation
            && w'.tasks == w.tasks[t := Adopted]
            && s'.offered == s.offered && s'.rotated == s.rotated && s'.opens == s.opens
  {
    var p, c := w.tasks[t], w.st.connected.value;
    ConnectState(w, s, c.team, Some(p.cred), p.expires);
    StrandState(w, s, c, p.cred);
    assert w.st.generation in s.made && s.made[w.st.generation] == Made(c.team, c.cred, c.expires);
    hide StateTold;
  }

  lemma StaysAt(w: World, w': World, t: nat, p: Task)
    requires w'.tasks == w.tasks[t := p]
    ensures OthersStay(w, w', t)
  {
  }

  lemma AdoptTold(w: World, s: Story, t: nat)
    requires Inv(w) && StoryOk(w, s)
    ensures Keeps(w, s, Adopt(t))
  {
    var w', s' := OnAdopt(w, t), Told(s, w, Adopt(t));
    assert Next(w, Adopt(t)) == w';
    hide Next;
    if t in w.tasks && w.tasks[t].Opened? {
      OneTold(w, s, t);
      OneTask(w, t);
      hide LockOk, TasksTold, TasksOk, TeamOk, GenOk;
      AdoptState(w, s, t);
      hide OnAdopt, Told, StateTold;
      StaysAt(w, w', t, Adopted);
      hide OthersStay;
      ToldAnew(w, w', s, s', t);
    }
  }

  lemma RenewIs(w: World, t: nat, expires: int)
    requires t in w.tasks && w.tasks[t].Renewing?
    ensures var w', p := OnRenewOk(w, t, expires), w.tasks[t];
            && t !in w'.tasks
            && (w'.st == w.st || (w.st.connected.Some? && w'.st == Renewed(w.st, expires)))
            && (w.st.connected.Some? && p.gen == w.st.generation && w.st.connected.value.cred == Some(p.asked) ==>
                  w'.st == Renewed(w.st, expires))
            && (w'.st != w.st ==> p.gen == w.st.generation)
  {
    hide Moves;
  }

  function Renewed(st: State, expires: int): State
    requires st.connected.Some?
  {
    st.(connected := Some(st.connected.value.(expires := expires)))
  }

  lemma RenewState(st: State, st': State, s: Story, s': Story, gen: nat, asked: Cred, expires: int)
    requires StateTold(st, s)
    requires gen == st.generation && st.connected.Some? ==> st.connected.value.cred == Some(asked)
    requires st' == st || (st.connected.Some? && gen == st.generation && st' == Renewed(st, expires))
    requires st.connected.Some? && gen == st.generation ==> st' == Renewed(st, expires)
    requires s' == if gen == st.generation && gen in s.made
                   then s.(made := s.made[gen := s.made[gen].(expires := expires)]) else s
    ensures StateTold(st', s') && st'.generation == st.generation && CredNow(st') == CredNow(st)
  {
  }

  lemma RenewTold(w: World, s: Story, t: nat, expires: int)
    requires Inv(w) && StoryOk(w, s)
    ensures Keeps(w, s, RenewOk(t, expires))
  {
    Setting(w, RenewOk(t, expires));
    hide LockOk, OthersStay, Moves, TasksTold, Inv;
    var w', s' := OnRenewOk(w, t, expires), Told(s, w, RenewOk(t, expires));
    if t in w.tasks && w.tasks[t].Renewing? {
      OneTold(w, s, t);
      RenewIs(w, t, expires);
      assert s' == if w.tasks[t].gen == w.st.generation && w.tasks[t].gen in s.made
                   then s.(made := s.made[w.tasks[t].gen := s.made[w.tasks[t].gen].(expires := expires)]) else s;
      hide OnRenewOk, Told;
      assert w'.st == w.st || w.tasks[t].gen == w.st.generation;
      RenewState(w.st, w'.st, s, s', w.tasks[t].gen, w.tasks[t].asked, expires);
      hide StateTold, CredNow, TaskTold, Renewed;
      ToldAnew(w, w', s, s', t);
    }
  }

  lemma MarkTold(w: World, s: Story, ctx: nat, gen: nat)
    requires StateTold(w.st, s)
    ensures var st' := MarkRefused(w, ctx, gen).st;
            && StateTold(st', if gen == w.st.generation then s.(refusals := s.refusals + {gen}) else s)
            && CredNow(st') == CredNow(w.st) && st'.generation == w.st.generation
  {
  }

  /** A refusal answered to task `t`, for a call or a renewal of that generation. */
  lemma RefusedTold(w: World, s: Story, t: nat, ctx: nat, gen: nat)
    requires LockOk(w) && StoryOk(w, s) && t in w.tasks
    ensures StoryOk(Ends(MarkRefused(w, ctx, gen), t),
                    if gen == w.st.generation then s.(refusals := s.refusals + {gen}) else s)
  {
    var w1 := MarkRefused(w, ctx, gen);
    var w' := Ends(w1, t);
    var s' := if gen == w.st.generation then s.(refusals := s.refusals + {gen}) else s;
    MarkTold(w, s, ctx, gen);
    MarkMoves(w, ctx, gen);
    assert OthersStay(w, w', t) && w'.st == w1.st;
    hide MarkRefused, LockOk, OthersStay, StateTold, CredNow, TaskTold;
    ToldAnew(w, w', s, s', t);
  }

  lemma MarkMoves(w: World, ctx: nat, gen: nat)
    ensures MarkRefused(w, ctx, gen).tasks == w.tasks
  {
  }

  lemma RefusalTold(w: World, s: Story, e: Event)
    requires Inv(w) && StoryOk(w, s) && (e.CallRefused? || e.RenewRefused?)
    ensures Keeps(w, s, e)
  {
    hide StoryOk, MarkRefused, Moves;
    assert LockOk(w);
    hide Inv, LockOk;
    var t := e.t;
    if t in w.tasks && (if e.CallRefused? then w.tasks[t].Calling? else w.tasks[t].Renewing?) {
      RefusedTold(w, s, t, w.tasks[t].ctx, w.tasks[t].gen);
    }
  }

  lemma KeyTold(w: World, s: Story, key: nat)
    requires StoryOk(w, s)
    ensures Keeps(w, s, SetKey(key))
  {
    var w' := Next(w, SetKey(key));
    forall u <- w'.tasks ensures TaskTold(w'.st, s, u, w'.tasks[u]) {
      OneTold(w, s, u);
    }
  }

  lemma NextTold(w: World, s: Story, e: Event)
    requires Inv(w) && StoryOk(w, s)
    ensures Keeps(w, s, e)
  {
    hide Inv, StoryOk, Keeps;
    match e
    case EstablishOk(t, cand) => EstablishTold(w, s, t, cand);
    case Open(t, ok) => OpenTold(w, s, t, ok);
    case Rotate(t, token, expires) => RotateTold(w, s, t, token, expires);
    case Take(t) => TakeTold(w, s, t);
    case Swap(t) => SwapTold(w, s, t);
    case Adopt(t) => AdoptTold(w, s, t);
    case RenewOk(t, expires) => RenewTold(w, s, t, expires);
    case CallRefused(_) => RefusalTold(w, s, e);
    case RenewRefused(_) => RefusalTold(w, s, e);
    case SetKey(key) => KeyTold(w, s, key);
    case _ => PlainKeeps(w, s, e);
  }

  lemma {:induction false} RunTold(w: World, s: Story, es: seq<Event>)
    requires Inv(w) && StoryOk(w, s)
    ensures StoryOk(Run(w, es), StoryOf(s, w, es))
    decreases |es|
  {
    hide Inv, StoryOk, Next, Told;
    if es == [] {
    } else {
      NextKeeps(w, es[0]);
      NextTold(w, s, es[0]);
      RunTold(Next(w, es[0]), Told(s, w, es[0]), es[1..]);
    }
  }

  // --------------------------------------------------------------- theorems --

  /** Over every run: the connected context has the team, the credential and the
      expiry its generation was made with, by the candidate offered or the rotation
      handed out, and the expiry of the last renewal answered for it; a stranded
      window has kept the identity of the failed adoption; and the window counts as
      refused if and only if a refusal was answered under its generation, or it is
      stranded. */
  lemma TheWindowIsAsTold(labels: Labels, key: nat, es: seq<Event>)
    ensures var w, s := Run(Start(labels, key), es), StoryOf(NOTHING_YET, Start(labels, key), es);
            && (w.st.connected.Some? ==>
                  && w.st.generation in s.made
                  && var c := w.st.connected.value; s.made[w.st.generation] == Made(c.team, c.cred, c.expires))
            && w.st.stranded == s.kept
            && (w.st.refused <==> w.st.generation in s.refusals || w.st.stranded.Some?)
  {
    StartIsSound(labels, key);
    RunTold(Start(labels, key), NOTHING_YET, es);
  }
}
