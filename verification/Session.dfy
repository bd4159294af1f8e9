/** The proxy's window, src/proxy.rs: which context it is connected as, through
    profile switches, rebinds, credential rotation and the calls in flight
    meanwhile. Tasks interleave at lock granularity: each event below is one
    critical section of one task, and the `switch` lock is held across several.
    The bus may refuse or fail any request. Tasks are not dropped midway. */
module Session {
  import opened Basics

  /** A window credential: its secret, and the session and epoch it is for. */
  datatype Cred = Cred(token: nat, sessionId: nat, epoch: nat)

  /** A connected context. `id` tells contexts apart, whatever they are connected
      as. */
  datatype Context = Context(id: nat, team: string, cred: Option<Cred>, expires: int)

  datatype Identity = Identity(team: string, cred: Option<Cred>)

  datatype Labels = Labels(project: Option<string>, role: Option<string>, channel: Option<string>)

  datatype State = State(
    connected: Option<Context>,
    stranded: Option<Identity>,
    labels: Labels,
    generation: nat,
    refused: bool,
    key: nat)

  // `State::identity`.
  function IdentityOf(st: State): Option<Identity> {
    match (st.connected, st.stranded)
    case (Some(c), _) => Some(Identity(c.team, c.cred))
    case (None, Some(s)) => Some(s)
    case (None, None) => None
  }

  /** What establishing a context yields, before it is made current. */
  datatype Candidate = Candidate(
    team: string,
    cred: Option<Cred>,
    expires: int,
    project: Option<string>,
    channel: Option<string>)

  /** Label changes a `configure_session` has validated and not yet applied; an
      outer `None` leaves a label as it is. */
  datatype Staged = Staged(
    project: Option<Option<string>>,
    role: Option<Option<string>>,
    channel: Option<Option<string>>)

  function Relabelled(l: Labels, s: Staged): Labels {
    Labels(match s.project case Some(v) => v case None => l.project,
           match s.role case Some(v) => v case None => l.role,
           match s.channel case Some(v) => v case None => l.channel)
  }

  function WithDefaults(l: Labels, c: Candidate): Labels {
    l.(project := if l.project.None? then c.project else l.project,
       channel := if l.channel.None? then c.channel else l.channel)
  }

  /** Where a task is. `cfg` is the configuration a connect was made for. */
  datatype Task =
    // connect_with, and configure around it
    | ConnectWait(cfg: Option<Staged>)
    | Establishing(cfg: Option<Staged>)
    | Established(cfg: Option<Staged>, cand: Candidate)
    | Admitted(cfg: Option<Staged>, cand: Candidate)
    | Defaulted(cfg: Option<Staged>, cand: Candidate)
    | Taken(cfg: Option<Staged>, cand: Candidate)
    | Swapped(cfg: Option<Staged>)
    | Snapped(cfg: Option<Staged>, key: nat, record: Option<Cred>)
    | Relabelling(staged: Staged)
    | Recording
    | RecordSnapped(key: nat, record: Option<Cred>)
    // resume_in_place and adopt_resumed
    | AdoptWait
    | Rotating(prior: Cred)
    | Rotated(cred: Cred, expires: int)
    | Opened(cred: Cred, expires: int, ok: bool)
    | Adopted
    | AdoptSnapped(key: nat, record: Option<Cred>)
    // forwarded calls and renewals
    | Calling(ctx: nat, gen: nat)
    | Renewing(ctx: nat, asked: Cred, gen: nat)

  /** The tasks inside a section the `switch` lock protects. */
  predicate Holds(p: Task) {
    p.Establishing? || p.Established? || p.Admitted? || p.Defaulted? || p.Taken? || p.Swapped? || p.Snapped?
    || p.Rotating? || p.Rotated? || p.Opened? || p.Adopted? || p.AdoptSnapped?
  }

  /** `bus` is what the bus accepts for each session; `records` the binding
      records by key. The rest is history: which context each generation named,
      how many contexts there were, the team the window settled on, whether the
      "lost its connection meanwhile" branch was ever taken, and for each bound
      call, renewal and mark the contexts it involved. */
  datatype World = World(
    st: State,
    tasks: map<nat, Task>,
    holder: Option<nat>,
    bus: map<nat, Cred>,
    records: map<nat, Option<Cred>>,
    named: map<nat, nat>,
    contexts: nat,
    team: Option<string>,
    lost: bool,
    bound: seq<(nat, nat)>,
    touched: seq<(nat, nat)>)

  datatype Event =
    | Spawn(t: nat, task: Task)
    | Lock(t: nat)
    | EstablishOk(t: nat, cand: Candidate)
    | EstablishFails(t: nat)
    | CheckTeam(t: nat)
    | Defaults(t: nat)
    | Take(t: nat)
    | Swap(t: nat)
    | Snap(t: nat)
    | Flush(t: nat)
    | Relabel(t: nat)
    | Rotate(t: nat, token: nat, expires: int)
    | RotateFails(t: nat, busRotated: bool, token: nat)
    | Open(t: nat, ok: bool)
    | Adopt(t: nat)
    | Call(t: nat, boundTo: Option<nat>)
    | CallRefused(t: nat)
    | CallEnds(t: nat)
    | Renew(t: nat)
    | RenewOk(t: nat, expires: int)
    | RenewRefused(t: nat)
    | SetKey(key: nat)

  function At(w: World, t: nat, p: Task): World { w.(tasks := w.tasks[t := p]) }

  function Ends(w: World, t: nat): World { w.(tasks := w.tasks - {t}) }

  function Released(w: World, t: nat): World { Ends(w, t).(holder := None) }

  /** A new context becomes current under the next generation. */
  function Connect(w: World, team: string, cred: Option<Cred>, expires: int): World {
    var gen := w.st.generation + 1;
    w.(st := w.st.(connected := Some(Context(w.contexts, team, cred, expires)), refused := false,
                   stranded := None, generation := gen),
       named := w.named[gen := w.contexts],
       contexts := w.contexts + 1,
       team := Some(team))
  }

  /** A failed adoption: the context is retired and its credential kept. */
  function Strand(w: World, c: Context, cred: Cred): World {
    w.(st := w.st.(connected := None, stranded := Some(Identity(c.team, Some(cred))), refused := true,
                   generation := w.st.generation + 1))
  }

  function CredOf(i: Option<Identity>): Option<Cred> { if i.Some? then i.value.cred else None }

  function Accepted(w: World, cred: Option<Cred>): map<nat, Cred> {
    match cred
    case Some(c) => w.bus[c.sessionId := c]
    case None => w.bus
  }

  /** Note that the bus refused the call of `ctx`, if its generation is current. */
  function MarkRefused(w: World, ctx: nat, gen: nat): World {
    if w.st.generation != gen then w
    else w.(st := w.st.(refused := true),
            touched := if w.st.connected.Some? then w.touched + [(ctx, w.st.connected.value.id)] else w.touched)
  }

  /** A step of `t` that settles no team and names no generation; of the tasks, `t`
      alone may end or go elsewhere. */
  predicate Moves(w: World, w': World, t: nat) {
    && w'.team == w.team && w'.named == w.named && w'.st.generation == w.st.generation && w'.st.key == w.st.key
    && (|| w'.tasks == w.tasks
        || w'.tasks == w.tasks - {t}
        || (t in w'.tasks && w'.tasks == w.tasks[t := w'.tasks[t]]))
  }

  function OnSpawn(w: World, t: nat, task: Task): (w': World)
    ensures Moves(w, w', t) && w'.st.labels == w.st.labels
  {
    if t in w.tasks then w
    else if task.ConnectWait? || task.AdoptWait? || task.Relabelling? || task.Recording? then At(w, t, task)
    else w
  }

  function OnLock(w: World, t: nat): (w': World)
    ensures Moves(w, w', t) && w'.st.labels == w.st.labels
  {
    if t !in w.tasks || w.holder.Some? then w
    else
      (match w.tasks[t]
       case ConnectWait(cfg) => At(w, t, Establishing(cfg)).(holder := Some(t))
       case AdoptWait =>
         if w.st.connected.Some? && w.st.connected.value.cred.Some?
         then At(w, t, Rotating(w.st.connected.value.cred.value)).(holder := Some(t))
         else Ends(w, t)
       case _ => w)
  }

  function OnEstablishOk(w: World, t: nat, cand: Candidate): (w': World)
    ensures Moves(w, w', t) && w'.st.labels == w.st.labels
  {
    if t in w.tasks && w.tasks[t].Establishing?
    then At(w, t, Established(w.tasks[t].cfg, cand)).(bus := Accepted(w, cand.cred)) else w
  }

  function OnEstablishFails(w: World, t: nat): (w': World)
    ensures Moves(w, w', t) && w'.st.labels == w.st.labels
  {
    if t in w.tasks && w.tasks[t].Establishing? then Released(w, t) else w
  }

  function OnCheckTeam(w: World, t: nat): (w': World)
    ensures Moves(w, w', t) && w'.st.labels == w.st.labels
  {
    if t !in w.tasks || !w.tasks[t].Established? then w
    else
      var was := IdentityOf(w.st);
      if was.Some? && was.value.team != w.tasks[t].cand.team then Released(w, t)
      else At(w, t, Admitted(w.tasks[t].cfg, w.tasks[t].cand))
  }

  function OnDefaults(w: World, t: nat): (w': World)
    ensures Moves(w, w', t)
  {
    if t in w.tasks && w.tasks[t].Admitted?
    then At(w, t, Defaulted(w.tasks[t].cfg, w.tasks[t].cand))
           .(st := w.st.(labels := WithDefaults(w.st.labels, w.tasks[t].cand))) else w
  }

  function OnTake(w: World, t: nat): (w': World)
    ensures Moves(w, w', t) && w'.st.labels == w.st.labels
  {
    if t in w.tasks && w.tasks[t].Defaulted?
    then At(w, t, Taken(w.tasks[t].cfg, w.tasks[t].cand)).(st := w.st.(connected := None)) else w
  }

  function OnSwap(w: World, t: nat): (w': World)
    ensures w'.st.labels == w.st.labels
  {
    if t in w.tasks && w.tasks[t].Taken?
    then
      var c := w.tasks[t].cand;
      At(Connect(w, c.team, c.cred, c.expires), t, Swapped(w.tasks[t].cfg)) else w
  }

  function OnSnap(w: World, t: nat): (w': World)
    ensures Moves(w, w', t) && w'.st.labels == w.st.labels
  {
    if t !in w.tasks then w
    else
      var record := CredOf(IdentityOf(w.st));
      (match w.tasks[t]
       case Swapped(cfg) => At(w, t, Snapped(cfg, w.st.key, record))
       case Adopted => At(w, t, AdoptSnapped(w.st.key, record))
       case Recording => At(w, t, RecordSnapped(w.st.key, record))
       case _ => w)
  }

  function OnFlush(w: World, t: nat): (w': World)
    ensures Moves(w, w', t) && w'.st.labels == w.st.labels
  {
    if t !in w.tasks then w
    else
      (match w.tasks[t]
       case Snapped(cfg, key, record) =>
         var w1 := w.(records := w.records[key := record]);
         if cfg.Some? then At(w1, t, Relabelling(cfg.value)).(holder := None) else Released(w1, t)
       case AdoptSnapped(key, record) => Released(w.(records := w.records[key := record]), t)
       case RecordSnapped(key, record) => Ends(w.(records := w.records[key := record]), t)
       case _ => w)
  }

  function OnRelabel(w: World, t: nat): (w': World)
    ensures Moves(w, w', t)
  {
    if t in w.tasks && w.tasks[t].Relabelling?
    then At(w, t, Recording).(st := w.st.(labels := Relabelled(w.st.labels, w.tasks[t].staged))) else w
  }

  function OnRotate(w: World, t: nat, token: nat, expires: int): (w': World)
    ensures Moves(w, w', t) && w'.st.labels == w.st.labels
  {
    if t in w.tasks && w.tasks[t].Rotating?
    then
      var cred := Cred(token, w.tasks[t].prior.sessionId, w.tasks[t].prior.epoch + 1);
      At(w, t, Rotated(cred, expires)).(bus := w.bus[cred.sessionId := cred]) else w
  }

  function OnRotateFails(w: World, t: nat, busRotated: bool, token: nat): (w': World)
    ensures Moves(w, w', t) && w'.st.labels == w.st.labels
  {
    if t in w.tasks && w.tasks[t].Rotating?
    then
      var cred := Cred(token, w.tasks[t].prior.sessionId, w.tasks[t].prior.epoch + 1);
      Released(if busRotated then w.(bus := w.bus[cred.sessionId := cred]) else w, t) else w
  }

  function OnOpen(w: World, t: nat, ok: bool): (w': World)
    ensures Moves(w, w', t) && w'.st.labels == w.st.labels
  {
    if t in w.tasks && w.tasks[t].Rotated? then At(w, t, Opened(w.tasks[t].cred, w.tasks[t].expires, ok)) else w
  }

  function OnAdopt(w: World, t: nat): (w': World)
    ensures w'.st.labels == w.st.labels
  {
    if t !in w.tasks || !w.tasks[t].Opened? then w
    else if w.st.connected.None? then Released(w, t).(lost := true)
    else
      var c := w.st.connected.value;
      var p := w.tasks[t];
      At(if p.ok then Connect(w, c.team, Some(p.cred), p.expires) else Strand(w, c, p.cred), t, Adopted)
  }

  function OnCall(w: World, t: nat, boundTo: Option<nat>): (w': World)
    ensures Moves(w, w', t) && w'.st.labels == w.st.labels
  {
    if t in w.tasks || w.st.connected.None? || (boundTo.Some? && boundTo.value != w.st.generation) then w
    else At(w, t, Calling(w.st.connected.value.id, w.st.generation))
           .(bound := if boundTo.Some? then w.bound + [(boundTo.value, w.st.connected.value.id)] else w.bound)
  }

  function OnCallRefused(w: World, t: nat): (w': World)
    ensures Moves(w, w', t) && w'.st.labels == w.st.labels
  {
    if t in w.tasks && w.tasks[t].Calling? then Ends(MarkRefused(w, w.tasks[t].ctx, w.tasks[t].gen), t) else w
  }

  function OnCallEnds(w: World, t: nat): (w': World)
    ensures Moves(w, w', t) && w'.st.labels == w.st.labels
  {
    if t in w.tasks && w.tasks[t].Calling? then Ends(w, t) else w
  }

  function OnRenew(w: World, t: nat): (w': World)
    ensures Moves(w, w', t) && w'.st.labels == w.st.labels
  {
    if t in w.tasks || w.st.connected.None? || w.st.connected.value.cred.None? then w
    else At(w, t, Renewing(w.st.connected.value.id, w.st.connected.value.cred.value, w.st.generation))
  }

  function OnRenewOk(w: World, t: nat, expires: int): (w': World)
    ensures Moves(w, w', t) && w'.st.labels == w.st.labels
  {
    if t !in w.tasks || !w.tasks[t].Renewing? then w
    else
      var p := w.tasks[t];
      var c := w.st.connected;
      if w.st.generation == p.gen && c.Some? && c.value.cred.Some?
         && c.value.cred.value.sessionId == p.asked.sessionId && c.value.cred.value.epoch == p.asked.epoch
      then Ends(w, t).(st := w.st.(connected := Some(c.value.(expires := expires))),
                       touched := w.touched + [(p.ctx, c.value.id)])
      else Ends(w, t)
  }

  function OnRenewRefused(w: World, t: nat): (w': World)
    ensures Moves(w, w', t) && w'.st.labels == w.st.labels
  {
    if t in w.tasks && w.tasks[t].Renewing? then Ends(MarkRefused(w, w.tasks[t].ctx, w.tasks[t].gen), t) else w
  }

  function OnSetKey(w: World, key: nat): (w': World)
    ensures w'.st.labels == w.st.labels
  {
    w.(st := w.st.(key := key))
  }

  function Next(w: World, e: Event): World {
    match e
    case Spawn(t, task) => OnSpawn(w, t, task)
    case Lock(t) => OnLock(w, t)
    case EstablishOk(t, cand) => OnEstablishOk(w, t, cand)
    case EstablishFails(t) => OnEstablishFails(w, t)
    case CheckTeam(t) => OnCheckTeam(w, t)
    case Defaults(t) => OnDefaults(w, t)
    case Take(t) => OnTake(w, t)
    case Swap(t) => OnSwap(w, t)
    case Snap(t) => OnSnap(w, t)
    case Flush(t) => OnFlush(w, t)
    case Relabel(t) => OnRelabel(w, t)
    case Rotate(t, token, expires) => OnRotate(w, t, token, expires)
    case RotateFails(t, busRotated, token) => OnRotateFails(w, t, busRotated, token)
    case Open(t, ok) => OnOpen(w, t, ok)
    case Adopt(t) => OnAdopt(w, t)
    case Call(t, boundTo) => OnCall(w, t, boundTo)
    case CallRefused(t) => OnCallRefused(w, t)
    case CallEnds(t) => OnCallEnds(w, t)
    case Renew(t) => OnRenew(w, t)
    case RenewOk(t, expires) => OnRenewOk(w, t, expires)
    case RenewRefused(t) => OnRenewRefused(w, t)
    case SetKey(key) => OnSetKey(w, key)
  }

  function Run(w: World, es: seq<Event>): World
    decreases |es|
  {
    if es == [] then w else Run(Next(w, es[0]), es[1..])
  }

  function Start(labels: Labels, key: nat): World {
    World(State(None, None, labels, 0, false, key), map[], None, map[], map[], map[], 0, None, false, [], [])
  }

  // -------------------------------------------------------------- invariant --

  /** What a task remembers of the window is still so. */
  ghost predicate TaskOk(w: World, p: Task) {
    match p
    case Admitted(_, cand) => w.team.Some? ==> cand.team == w.team.value
    case Defaulted(_, cand) => w.team.Some? ==> cand.team == w.team.value
    case Taken(_, cand) => w.team.Some? ==> cand.team == w.team.value
    case Rotating(prior) => w.st.connected.Some? && w.st.connected.value.cred == Some(prior)
    case Rotated(cred, _) => w.st.connected.Some? && CurrentOnBus(w, cred)
    case Opened(cred, _, _) => w.st.connected.Some? && CurrentOnBus(w, cred)
    case Adopted => CredOf(IdentityOf(w.st)).Some? && CurrentOnBus(w, CredOf(IdentityOf(w.st)).value)
    case AdoptSnapped(_, record) =>
      record.Some? && CurrentOnBus(w, record.value) && record == CredOf(IdentityOf(w.st))
    case Calling(ctx, gen) => gen in w.named && w.named[gen] == ctx
    case Renewing(ctx, _, gen) => gen in w.named && w.named[gen] == ctx
    case _ => true
  }

  ghost predicate CurrentOnBus(w: World, cred: Cred) {
    cred.sessionId in w.bus && w.bus[cred.sessionId] == cred
  }

  ghost predicate LockOk(w: World) {
    && (forall t <- w.tasks :: Holds(w.tasks[t]) <==> w.holder == Some(t))
    && (w.holder.Some? ==> w.holder.value in w.tasks)
  }

  ghost predicate TasksOk(w: World) { forall t <- w.tasks :: TaskOk(w, w.tasks[t]) }

  /** The one moment a window with a team has no identity. */
  predicate Switching(w: World) { w.holder.Some? && w.holder.value in w.tasks && w.tasks[w.holder.value].Taken? }

  ghost predicate TeamOk(w: World) {
    && (!Switching(w) ==> (w.team.Some? <==> IdentityOf(w.st).Some?))
    && (IdentityOf(w.st).Some? ==> w.team == Some(IdentityOf(w.st).value.team))
    && (Switching(w) ==> w.st.connected.None?)
    && (w.st.connected.Some? ==> w.st.stranded.None?)
  }

  ghost predicate GenOk(w: World) {
    && (forall g <- w.named :: g <= w.st.generation && w.named[g] < w.contexts)
    && (w.st.connected.Some? ==>
          w.st.generation in w.named && w.named[w.st.generation] == w.st.connected.value.id)
    && (forall i | 0 <= i < |w.bound| :: w.bound[i].0 in w.named && w.named[w.bound[i].0] == w.bound[i].1)
    && (forall i | 0 <= i < |w.touched| :: w.touched[i].0 == w.touched[i].1)
  }

  ghost predicate Inv(w: World) {
    LockOk(w) && TasksOk(w) && TeamOk(w) && GenOk(w) && !w.lost
  }

  lemma StartIsSound(labels: Labels, key: nat)
    ensures Inv(Start(labels, key))
  {}

  // ---------------------------------------------------------------- framing --

  ghost predicate NamesKept(w: World, w': World) {
    forall g <- w.named :: g in w'.named && w'.named[g] == w.named[g]
  }

  /** The same window, as far as a task can tell. */
  ghost predicate SameWindow(w: World, w': World) {
    && w'.team == w.team && w'.bus == w.bus && NamesKept(w, w')
    && IdentityOf(w'.st) == IdentityOf(w.st)
    && (w'.st.connected.Some? <==> w.st.connected.Some?)
  }

  lemma SameForTask(w: World, w': World, p: Task)
    requires TaskOk(w, p) && (SameWindow(w, w') || (!Holds(p) && NamesKept(w, w')))
    ensures TaskOk(w', p)
  {}

  /** Task `t` stepped: the others are where they were, and one of `t` and the
      window is enough to see that what they remember still holds. */
  ghost predicate OthersStay(w: World, w': World, t: nat) {
    && (forall u <- w.tasks :: u != t ==> u in w'.tasks)
    && (forall u <- w'.tasks :: u != t ==> u in w.tasks && w'.tasks[u] == w.tasks[u])
  }

  lemma TasksKeep(w: World, w': World, t: nat)
    requires Inv(w) && OthersStay(w, w', t) && NamesKept(w, w')
    requires SameWindow(w, w') || w.holder == Some(t)
    requires t in w'.tasks ==> TaskOk(w', w'.tasks[t])
    ensures TasksOk(w')
  {
    forall u <- w'.tasks ensures TaskOk(w', w'.tasks[u]) {
      if u != t {
        SameForTask(w, w', w.tasks[u]);
      }
    }
  }

  lemma HolderKeeps(w: World, w': World, t: nat)
    requires Inv(w) && OthersStay(w, w', t)
    requires if t in w'.tasks && Holds(w'.tasks[t])
             then w'.holder == Some(t) && (w.holder == Some(t) || w.holder == None)
             else w'.holder == (if w.holder == Some(t) then None else w.holder)
    ensures LockOk(w')
  {
    forall u <- w'.tasks ensures Holds(w'.tasks[u]) <==> w'.holder == Some(u) {
      if u != t {
        assert Holds(w.tasks[u]) <==> w.holder == Some(u);
      }
    }
  }

  // ------------------------------------------------------------- each event --

  lemma OneTask(w: World, t: nat)
    requires Inv(w) && t in w.tasks
    ensures TaskOk(w, w.tasks[t]) && (Holds(w.tasks[t]) <==> w.holder == Some(t))
  {}

  lemma EndKeeps(w: World, t: nat)
    requires Inv(w) && t in w.tasks && !Holds(w.tasks[t])
    ensures Inv(Ends(w, t))
  {
    var w' := Ends(w, t);
    OneTask(w, t);
    hide LockOk, TasksOk;
    HolderKeeps(w, w', t);
    TasksKeep(w, w', t);
  }

  /** A task goes on without touching the window. */
  lemma MoveKeeps(w: World, t: nat, p: Task)
    requires Inv(w) && t in w.tasks && !w.tasks[t].Taken? && !p.Taken? && TaskOk(w, p)
    requires Holds(p) <==> Holds(w.tasks[t])
    ensures Inv(At(w, t, p))
  {
    var w' := At(w, t, p);
    OneTask(w, t);
    hide LockOk, TasksOk, TaskOk;
    SameForTask(w, w', p);
    HolderKeeps(w, w', t);
    TasksKeep(w, w', t);
  }

  lemma AcquireKeeps(w: World, t: nat, p: Task)
    requires Inv(w) && t in w.tasks && w.holder.None? && !p.Taken? && Holds(p) && TaskOk(w, p)
    ensures Inv(At(w, t, p).(holder := Some(t)))
  {
    var w' := At(w, t, p).(holder := Some(t));
    OneTask(w, t);
    hide LockOk, TasksOk, TaskOk;
    SameForTask(w, w', p);
    HolderKeeps(w, w', t);
    TasksKeep(w, w', t);
  }

  lemma ReleaseKeeps(w: World, t: nat, next: Option<Task>)
    requires Inv(w) && t in w.tasks && Holds(w.tasks[t]) && !w.tasks[t].Taken?
    requires next.Some? ==> next.value.Relabelling?
    ensures Inv(if next.Some? then At(w, t, next.value).(holder := None) else Released(w, t))
  {
    var w' := if next.Some? then At(w, t, next.value).(holder := None) else Released(w, t);
    OneTask(w, t);
    hide LockOk, TasksOk;
    HolderKeeps(w, w', t);
    TasksKeep(w, w', t);
  }

  lemma FileKeeps(w: World, records: map<nat, Option<Cred>>)
    requires Inv(w)
    ensures Inv(w.(records := records))
  {
    var w' := w.(records := records);
    forall u <- w'.tasks ensures TaskOk(w', w'.tasks[u]) {
      SameForTask(w, w', w.tasks[u]);
    }
  }

  lemma MarkKeeps(w: World, ctx: nat, gen: nat)
    requires Inv(w) && gen in w.named && w.named[gen] == ctx
    ensures Inv(MarkRefused(w, ctx, gen))
  {
    var w' := MarkRefused(w, ctx, gen);
    forall u <- w'.tasks ensures TaskOk(w', w'.tasks[u]) {
      SameForTask(w, w', w.tasks[u]);
    }
  }

  lemma SpawnKeeps(w: World, t: nat, task: Task)
    requires Inv(w)
    ensures Inv(OnSpawn(w, t, task))
  {
    hide Moves;
    var w' := OnSpawn(w, t, task);
    if t in w.tasks {
      OneTask(w, t);
    }
    hide LockOk, TasksOk;
    if w' != w {
      HolderKeeps(w, w', t);
      TasksKeep(w, w', t);
    }
  }

  lemma LockKeeps(w: World, t: nat)
    requires Inv(w)
    ensures Inv(OnLock(w, t))
  {
    hide Moves;
    if t in w.tasks && w.holder.None? {
      OneTask(w, t);
      hide LockOk, TasksOk, GenOk, TeamOk, Inv;
      match w.tasks[t]
      case ConnectWait(cfg) => AcquireKeeps(w, t, Establishing(cfg));
      case AdoptWait =>
        if w.st.connected.Some? && w.st.connected.value.cred.Some? {
          AcquireKeeps(w, t, Rotating(w.st.connected.value.cred.value));
        } else {
          EndKeeps(w, t);
        }
      case _ =>
    }
  }

  lemma EstablishOkKeeps(w: World, t: nat, cand: Candidate)
    requires Inv(w)
    ensures Inv(OnEstablishOk(w, t, cand))
  {
    hide Moves;
    var w' := OnEstablishOk(w, t, cand);
    if t in w.tasks {
      OneTask(w, t);
    }
    hide LockOk, TasksOk;
    if w' != w {
      HolderKeeps(w, w', t);
      TasksKeep(w, w', t);
    }
  }

  lemma EstablishFailsKeeps(w: World, t: nat)
    requires Inv(w)
    ensures Inv(OnEstablishFails(w, t))
  {
    hide Moves;
    var w' := OnEstablishFails(w, t);
    if t in w.tasks {
      OneTask(w, t);
    }
    hide LockOk, TasksOk;
    if w' != w {
      HolderKeeps(w, w', t);
      TasksKeep(w, w', t);
    }
  }

  lemma CheckTeamKeeps(w: World, t: nat)
    requires Inv(w)
    ensures Inv(OnCheckTeam(w, t))
  {
    hide Moves;
    if t in w.tasks && w.tasks[t].Established? {
      OneTask(w, t);
      var p := w.tasks[t];
      var was := IdentityOf(w.st);
      assert TaskOk(w, Admitted(p.cfg, p.cand)) || (was.Some? && was.value.team != p.cand.team);
      hide LockOk, TasksOk, TeamOk, GenOk, TaskOk, Inv;
      if was.Some? && was.value.team != p.cand.team {
        ReleaseKeeps(w, t, None);
      } else {
        MoveKeeps(w, t, Admitted(p.cfg, p.cand));
      }
    }
  }

  lemma DefaultsKeeps(w: World, t: nat)
    requires Inv(w)
    ensures Inv(OnDefaults(w, t))
  {
    hide Moves;
    var w' := OnDefaults(w, t);
    if t in w.tasks {
      OneTask(w, t);
    }
    hide LockOk, TasksOk;
    if w' != w {
      HolderKeeps(w, w', t);
      TasksKeep(w, w', t);
    }
  }

  lemma TakeKeeps(w: World, t: nat)
    requires Inv(w)
    ensures Inv(OnTake(w, t))
  {
    hide Moves;
    var w' := OnTake(w, t);
    if t in w.tasks {
      OneTask(w, t);
    }
    hide LockOk, TasksOk;
    if w' != w {
      HolderKeeps(w, w', t);
      TasksKeep(w, w', t);
    }
  }

  lemma SwapKeeps(w: World, t: nat)
    requires Inv(w)
    ensures Inv(OnSwap(w, t))
  {
    hide Moves;
    var w' := OnSwap(w, t);
    if t in w.tasks {
      OneTask(w, t);
    }
    hide LockOk, TasksOk;
    if w' != w {
      HolderKeeps(w, w', t);
      TasksKeep(w, w', t);
    }
  }

  lemma RotateKeeps(w: World, t: nat, token: nat, expires: int)
    requires Inv(w)
    ensures Inv(OnRotate(w, t, token, expires))
  {
    hide Moves;
    var w' := OnRotate(w, t, token, expires);
    if t in w.tasks {
      OneTask(w, t);
    }
    hide LockOk, TasksOk;
    if w' != w {
      HolderKeeps(w, w', t);
      TasksKeep(w, w', t);
    }
  }

  lemma RotateFailsKeeps(w: World, t: nat, busRotated: bool, token: nat)
    requires Inv(w)
    ensures Inv(OnRotateFails(w, t, busRotated, token))
  {
    hide Moves;
    var w' := OnRotateFails(w, t, busRotated, token);
    if t in w.tasks {
      OneTask(w, t);
    }
    hide LockOk, TasksOk;
    if w' != w {
      HolderKeeps(w, w', t);
      TasksKeep(w, w', t);
    }
  }

  lemma OpenKeeps(w: World, t: nat, ok: bool)
    requires Inv(w)
    ensures Inv(OnOpen(w, t, ok))
  {
    hide Moves;
    if t in w.tasks && w.tasks[t].Rotated? {
      OneTask(w, t);
      MoveKeeps(w, t, Opened(w.tasks[t].cred, w.tasks[t].expires, ok));
    }
  }

  lemma ConnectedKeeps(w: World, t: nat, cred: Cred, expires: int)
    requires Inv(w) && t in w.tasks && w.tasks[t].Opened? && CurrentOnBus(w, cred)
    ensures w.st.connected.Some?
    ensures Inv(At(Connect(w, w.st.connected.value.team, Some(cred), expires), t, Adopted))
  {
    OneTask(w, t);
    hide LockOk, TasksOk;
    var w' := At(Connect(w, w.st.connected.value.team, Some(cred), expires), t, Adopted);
    HolderKeeps(w, w', t);
    TasksKeep(w, w', t);
  }

  lemma StrandedKeeps(w: World, t: nat, cred: Cred)
    requires Inv(w) && t in w.tasks && w.tasks[t].Opened? && CurrentOnBus(w, cred)
    ensures w.st.connected.Some? && Inv(At(Strand(w, w.st.connected.value, cred), t, Adopted))
  {
    OneTask(w, t);
    hide LockOk, TasksOk;
    var w' := At(Strand(w, w.st.connected.value, cred), t, Adopted);
    HolderKeeps(w, w', t);
    TasksKeep(w, w', t);
  }

  lemma AdoptKeeps(w: World, t: nat)
    requires Inv(w)
    ensures Inv(OnAdopt(w, t))
  {
    hide Moves;
    if t in w.tasks && w.tasks[t].Opened? {
      OneTask(w, t);
      hide LockOk, TasksOk, TeamOk, GenOk, Inv;
      if w.tasks[t].ok {
        ConnectedKeeps(w, t, w.tasks[t].cred, w.tasks[t].expires);
      } else {
        StrandedKeeps(w, t, w.tasks[t].cred);
      }
    }
  }

  lemma SnapKeeps(w: World, t: nat)
    requires Inv(w)
    ensures Inv(OnSnap(w, t))
  {
    hide Moves;
    if t in w.tasks {
      OneTask(w, t);
      var record := CredOf(IdentityOf(w.st));
      hide LockOk, TasksOk, GenOk, TeamOk, Inv;
      match w.tasks[t]
      case Swapped(cfg) => MoveKeeps(w, t, Snapped(cfg, w.st.key, record));
      case Adopted => MoveKeeps(w, t, AdoptSnapped(w.st.key, record));
      case Recording => MoveKeeps(w, t, RecordSnapped(w.st.key, record));
      case _ =>
    }
  }

  lemma FlushKeeps(w: World, t: nat)
    requires Inv(w)
    ensures Inv(OnFlush(w, t))
  {
    hide Moves;
    if t in w.tasks {
      OneTask(w, t);
      match w.tasks[t]
      case Snapped(cfg, key, record) =>
        var w1 := w.(records := w.records[key := record]);
        FileKeeps(w, w1.records);
        ReleaseKeeps(w1, t, if cfg.Some? then Some(Relabelling(cfg.value)) else None);
      case AdoptSnapped(key, record) =>
        var w1 := w.(records := w.records[key := record]);
        FileKeeps(w, w1.records);
        ReleaseKeeps(w1, t, None);
      case RecordSnapped(key, record) =>
        FileKeeps(w, w.records[key := record]);
        EndKeeps(w.(records := w.records[key := record]), t);
      case _ =>
    }
  }

  lemma RelabelKeeps(w: World, t: nat)
    requires Inv(w)
    ensures Inv(OnRelabel(w, t))
  {
    hide Moves;
    var w' := OnRelabel(w, t);
    if t in w.tasks {
      OneTask(w, t);
    }
    hide LockOk, TasksOk;
    if w' != w {
      HolderKeeps(w, w', t);
      TasksKeep(w, w', t);
    }
  }

  lemma CallKeeps(w: World, t: nat, boundTo: Option<nat>)
    requires Inv(w)
    ensures Inv(OnCall(w, t, boundTo))
  {
    hide Moves;
    var w' := OnCall(w, t, boundTo);
    if t in w.tasks {
      OneTask(w, t);
    }
    hide LockOk, TasksOk;
    if w' != w {
      HolderKeeps(w, w', t);
      TasksKeep(w, w', t);
    }
  }

  lemma CallRefusedKeeps(w: World, t: nat)
    requires Inv(w)
    ensures Inv(OnCallRefused(w, t))
  {
    hide Moves;
    if t in w.tasks && w.tasks[t].Calling? {
      OneTask(w, t);
      MarkKeeps(w, w.tasks[t].ctx, w.tasks[t].gen);
      EndKeeps(MarkRefused(w, w.tasks[t].ctx, w.tasks[t].gen), t);
    }
  }

  lemma CallEndsKeeps(w: World, t: nat)
    requires Inv(w)
    ensures Inv(OnCallEnds(w, t))
  {
    hide Moves;
    if t in w.tasks && w.tasks[t].Calling? {
      EndKeeps(w, t);
    }
  }

  lemma RenewKeeps(w: World, t: nat)
    requires Inv(w)
    ensures Inv(OnRenew(w, t))
  {
    hide Moves;
    var w' := OnRenew(w, t);
    if t in w.tasks {
      OneTask(w, t);
    }
    hide LockOk, TasksOk;
    if w' != w {
      HolderKeeps(w, w', t);
      TasksKeep(w, w', t);
    }
  }

  lemma RefreshKeeps(w: World, ctx: nat, expires: int)
    requires Inv(w) && w.st.connected.Some? && w.named[w.st.generation] == ctx
    ensures Inv(w.(st := w.st.(connected := Some(w.st.connected.value.(expires := expires))),
                   touched := w.touched + [(ctx, w.st.connected.value.id)]))
  {
    var w' := w.(st := w.st.(connected := Some(w.st.connected.value.(expires := expires))),
                 touched := w.touched + [(ctx, w.st.connected.value.id)]);
    forall u <- w'.tasks ensures TaskOk(w', w'.tasks[u]) {
      SameForTask(w, w', w.tasks[u]);
    }
  }

  lemma RenewOkKeeps(w: World, t: nat, expires: int)
    requires Inv(w)
    ensures Inv(OnRenewOk(w, t, expires))
  {
    hide Moves;
    if t in w.tasks && w.tasks[t].Renewing? {
      OneTask(w, t);
      var p := w.tasks[t];
      if w.st.generation == p.gen && w.st.connected.Some? {
        RefreshKeeps(w, p.ctx, expires);
        EndKeeps(w.(st := w.st.(connected := Some(w.st.connected.value.(expires := expires))),
                    touched := w.touched + [(p.ctx, w.st.connected.value.id)]), t);
      }
      EndKeeps(w, t);
    }
  }

  lemma RenewRefusedKeeps(w: World, t: nat)
    requires Inv(w)
    ensures Inv(OnRenewRefused(w, t))
  {
    hide Moves;
    if t in w.tasks && w.tasks[t].Renewing? {
      OneTask(w, t);
      MarkKeeps(w, w.tasks[t].ctx, w.tasks[t].gen);
      EndKeeps(MarkRefused(w, w.tasks[t].ctx, w.tasks[t].gen), t);
    }
  }

  lemma KeyKeeps(w: World, key: nat)
    requires Inv(w)
    ensures Inv(OnSetKey(w, key))
  {
    var w' := OnSetKey(w, key);
    forall u <- w'.tasks ensures TaskOk(w', w'.tasks[u]) {
      SameForTask(w, w', w.tasks[u]);
    }
  }

  predicate OfConnecting(e: Event) {
    e.Spawn? || e.Lock? || e.EstablishOk? || e.EstablishFails? || e.CheckTeam? || e.Defaults? || e.Take? || e.Swap?
  }

  lemma ConnectingNextKeeps(w: World, e: Event)
    requires Inv(w) && OfConnecting(e)
    ensures Inv(Next(w, e))
  {
    hide Inv, Moves, OnSpawn, OnLock, OnEstablishOk, OnEstablishFails, OnCheckTeam, OnDefaults, OnTake, OnSwap;
    match e
    case Spawn(t, task) => SpawnKeeps(w, t, task);
    case Lock(t) => LockKeeps(w, t);
    case EstablishOk(t, cand) => EstablishOkKeeps(w, t, cand);
    case EstablishFails(t) => EstablishFailsKeeps(w, t);
    case CheckTeam(t) => CheckTeamKeeps(w, t);
    case Defaults(t) => DefaultsKeeps(w, t);
    case Take(t) => TakeKeeps(w, t);
    case Swap(t) => SwapKeeps(w, t);
  }

  predicate OfRecording(e: Event) {
    e.Snap? || e.Flush? || e.Relabel? || e.Rotate? || e.RotateFails? || e.Open? || e.Adopt?
  }

  lemma RecordingNextKeeps(w: World, e: Event)
    requires Inv(w) && OfRecording(e)
    ensures Inv(Next(w, e))
  {
    hide Inv, Moves, OnSnap, OnFlush, OnRelabel, OnRotate, OnRotateFails, OnOpen, OnAdopt;
    match e
    case Snap(t) => SnapKeeps(w, t);
    case Flush(t) => FlushKeeps(w, t);
    case Relabel(t) => RelabelKeeps(w, t);
    case Rotate(t, token, expires) => RotateKeeps(w, t, token, expires);
    case RotateFails(t, busRotated, token) => RotateFailsKeeps(w, t, busRotated, token);
    case Open(t, ok) => OpenKeeps(w, t, ok);
    case Adopt(t) => AdoptKeeps(w, t);
  }

  predicate OfCalling(e: Event) {
    e.Call? || e.CallRefused? || e.CallEnds? || e.Renew? || e.RenewOk? || e.RenewRefused? || e.SetKey?
  }

  lemma CallingNextKeeps(w: World, e: Event)
    requires Inv(w) && OfCalling(e)
    ensures Inv(Next(w, e))
  {
    hide Inv, Moves, OnCall, OnCallRefused, OnCallEnds, OnRenew, OnRenewOk, OnRenewRefused, OnSetKey;
    match e
    case Call(t, boundTo) => CallKeeps(w, t, boundTo);
    case CallRefused(t) => CallRefusedKeeps(w, t);
    case CallEnds(t) => CallEndsKeeps(w, t);
    case Renew(t) => RenewKeeps(w, t);
    case RenewOk(t, expires) => RenewOkKeeps(w, t, expires);
    case RenewRefused(t) => RenewRefusedKeeps(w, t);
    case SetKey(key) => KeyKeeps(w, key);
  }

  lemma NextKeeps(w: World, e: Event)
    requires Inv(w)
    ensures Inv(Next(w, e))
  {
    hide Inv, Next;
    if OfConnecting(e) {
      ConnectingNextKeeps(w, e);
    } else if OfRecording(e) {
      RecordingNextKeeps(w, e);
    } else {
      CallingNextKeeps(w, e);
    }
  }

  // ------------------------------------------------------------------- runs --

  /** A step of `t` that settles no team, names no generation and leaves the other
      tasks where they are. */
  ghost predicate Framed(w: World, w': World, t: nat) {
    w'.team == w.team && w'.named == w.named && OthersStay(w, w', t)
  }

  lemma MovesFramed(w: World, w': World, t: nat)
    requires Moves(w, w', t)
    ensures Framed(w, w', t)
  {
  }

  /** Only a swap or an adoption does more. */
  lemma NextFramed(w: World, e: Event)
    requires !e.Swap? && !e.Adopt? && !e.SetKey?
    ensures Framed(w, Next(w, e), e.t)
  {
    NextMoves(w, e);
    hide Next;
    MovesFramed(w, Next(w, e), e.t);
  }

  lemma NextMoves(w: World, e: Event)
    requires !e.Swap? && !e.Adopt? && !e.SetKey?
    ensures Moves(w, Next(w, e), e.t)
  {
    hide Moves;
    hide OnSpawn, OnLock, OnEstablishOk, OnEstablishFails, OnCheckTeam, OnDefaults, OnTake, OnSwap, OnSnap;
    hide OnFlush, OnRelabel, OnRotate, OnRotateFails, OnOpen, OnAdopt, OnCall;
    hide OnCallRefused, OnCallEnds, OnRenew, OnRenewOk, OnRenewRefused, OnSetKey;
  }

  lemma SwapRemembers(w: World, t: nat)
    requires Inv(w)
    ensures var w' := OnSwap(w, t); (w.team.Some? ==> w'.team == w.team) && NamesKept(w, w') && OthersStay(w, w', t)
  {
    hide Moves;
    if t in w.tasks {
      OneTask(w, t);
    }
    hide LockOk, TasksOk;
  }

  lemma AdoptRemembers(w: World, t: nat)
    requires Inv(w)
    ensures var w' := OnAdopt(w, t); (w.team.Some? ==> w'.team == w.team) && NamesKept(w, w') && OthersStay(w, w', t)
  {
    hide Moves;
    if t in w.tasks {
      OneTask(w, t);
    }
    hide LockOk, TasksOk;
  }

  /** What a step never undoes: the team, and what each generation named. */
  lemma NextRemembers(w: World, e: Event)
    requires Inv(w)
    ensures w.team.Some? ==> Next(w, e).team == w.team
    ensures NamesKept(w, Next(w, e))
  {
    hide Inv, OnSwap, OnAdopt, Moves;
    match e
    case Swap(t) => SwapRemembers(w, t);
    case Adopt(t) => AdoptRemembers(w, t);
    case SetKey(key) =>
    case _ =>
      NextFramed(w, e);
      hide Next;
  }

  lemma {:induction false} RunKeeps(w: World, es: seq<Event>)
    requires Inv(w)
    ensures var w' := Run(w, es);
            Inv(w') && (w.team.Some? ==> w'.team == w.team) && NamesKept(w, w')
    decreases |es|
  {
    hide Next, Inv;
    if es == [] {
    } else {
      NextKeeps(w, es[0]);
      NextRemembers(w, es[0]);
      RunKeeps(Next(w, es[0]), es[1..]);
    }
  }

  // --------------------------------------------------------------- theorems --

  /** Over every interleaving: once the window has an identity, it has one in
      every later state where the switch lock is free, of the same team. The
      branch for a connection lost during an adoption is never taken. */
  lemma IdentityPersists(labels: Labels, key: nat, before: seq<Event>, later: seq<Event>)
    ensures var w := Run(Start(labels, key), before);
            var w' := Run(w, later);
            && (IdentityOf(w.st).Some? && w'.holder.None? ==>
                  IdentityOf(w'.st).Some? && IdentityOf(w'.st).value.team == IdentityOf(w.st).value.team)
            && !w'.lost
            && forall t <- w'.tasks :: w'.tasks[t].Opened? ==> w'.st.connected.Some?
  {
    StartIsSound(labels, key);
    RunKeeps(Start(labels, key), before);
    RunKeeps(Run(Start(labels, key), before), later);
    var w' := Run(Run(Start(labels, key), before), later);
    hide Run;
    forall t <- w'.tasks | w'.tasks[t].Opened? ensures w'.st.connected.Some? {
      OneTask(w', t);
    }
    hide LockOk, TasksOk, GenOk;
  }

  /** Over every interleaving: a generation names one context and keeps naming it,
      so all slices of a bound call run as one; a renewal's answer and a mark of
      refusal touch the current context only if they were for it. */
  lemma GenerationsFence(labels: Labels, key: nat, before: seq<Event>, later: seq<Event>)
    ensures var w := Run(Start(labels, key), before);
            var w' := Run(w, later);
            && NamesKept(w, w')
            && (forall i, j | 0 <= i < |w'.bound| && 0 <= j < |w'.bound| ::
                  w'.bound[i].0 == w'.bound[j].0 ==> w'.bound[i].1 == w'.bound[j].1)
            && (forall i | 0 <= i < |w'.touched| :: w'.touched[i].0 == w'.touched[i].1)
  {
    StartIsSound(labels, key);
    RunKeeps(Start(labels, key), before);
    RunKeeps(Run(Start(labels, key), before), later);
    hide Run, LockOk, TasksOk, TeamOk;
  }

  predicate Undecided(p: Task) { p.ConnectWait? || p.Establishing? || p.Established? }

  predicate Committed(p: Task) { p.Admitted? || p.Defaulted? || p.Taken? }

  /** The events of one connect, in any order. */
  predicate OfConnect(e: Event, t: nat) {
    match e
    case Lock(u) => u == t
    case EstablishOk(u, _) => u == t
    case EstablishFails(u) => u == t
    case CheckTeam(u) => u == t
    case Defaults(u) => u == t
    case Take(u) => u == t
    case Swap(u) => u == t
    case Snap(u) => u == t
    case Flush(u) => u == t
    case Relabel(u) => u == t
    case _ => false
  }

  /** Until it is admitted a connect has changed nothing; once admitted it ends
      under a new generation. */
  ghost predicate AllOrNothing(before: State, w: World, t: nat) {
    || w.st.generation > before.generation
    || (t in w.tasks && Committed(w.tasks[t]))
    || ((t in w.tasks ==> Undecided(w.tasks[t])) && w.st == before)
  }

  lemma {:induction false} ConnectRun(before: State, w: World, es: seq<Event>, t: nat)
    requires AllOrNothing(before, w, t) && w.st.generation >= before.generation
    requires forall i | 0 <= i < |es| :: OfConnect(es[i], t)
    ensures AllOrNothing(before, Run(w, es), t) && Run(w, es).st.generation >= before.generation
    decreases |es|
  {
    if es == [] {
    } else {
      ConnectStep(before, w, es[0], t);
      hide Next;
      ConnectRun(before, Next(w, es[0]), es[1..], t);
    }
  }

  lemma GenerationGrows(w: World, e: Event)
    requires !e.Adopt? && !e.SetKey?
    ensures Next(w, e).st.generation >= w.st.generation
  {
    if e.Swap? {
      hide Moves;
    } else {
      NextMoves(w, e);
      hide Next;
    }
  }

  lemma ConnectStep(before: State, w: World, e: Event, t: nat)
    requires AllOrNothing(before, w, t) && w.st.generation >= before.generation && OfConnect(e, t)
    ensures AllOrNothing(before, Next(w, e), t) && Next(w, e).st.generation >= before.generation
  {
    GenerationGrows(w, e);
    if t !in w.tasks {
      NothingWithoutTask(w, e, t);
    } else if Committed(w.tasks[t]) {
      CommittedStep(w, e, t);
    } else if Undecided(w.tasks[t]) {
      UndecidedStep(w, e, t);
    }
    hide Next;
  }

  /** A connect, and so a `configure_session`, that ends without a new generation
      has left the window exactly as it was: labels, connection and all. */
  lemma FailedConfigureLeavesNoTrace(w: World, es: seq<Event>, t: nat)
    requires t in w.tasks && w.tasks[t].ConnectWait?
    requires forall i | 0 <= i < |es| :: OfConnect(es[i], t)
    ensures var w' := Run(w, es);
            t !in w'.tasks && w'.st.generation == w.st.generation ==> w'.st == w.st
  {
    ConnectRun(w.st, w, es, t);
  }

  predicate Reuses(e: Event, t: nat) { (e.Spawn? || e.Call? || e.Renew?) && e.t == t }

  predicate Unswapped(w: World, t: nat) { t in w.tasks ==> Undecided(w.tasks[t]) || Committed(w.tasks[t]) }

  lemma TooEarly(w: World, e: Event, t: nat)
    requires t in w.tasks && Undecided(w.tasks[t])
    requires e in {Defaults(t), Take(t), Swap(t), Snap(t), Flush(t), Relabel(t)}
    ensures Next(w, e) == w
  {
    hide At, Ends, Released, Connect, IdentityOf, CredOf, WithDefaults, Relabelled, Moves;
  }

  lemma UndecidedStep(w: World, e: Event, t: nat)
    requires t in w.tasks && Undecided(w.tasks[t]) && OfConnect(e, t)
    ensures Next(w, e).st == w.st && Unswapped(Next(w, e), t)
  {
    hide Accepted, Moves;
    if e in {Defaults(t), Take(t), Swap(t), Snap(t), Flush(t), Relabel(t)} {
      TooEarly(w, e, t);
      hide Next;
    }
  }

  lemma NotYet(w: World, e: Event, t: nat)
    requires t in w.tasks && Committed(w.tasks[t]) && OfConnect(e, t) && !e.Defaults? && !e.Take? && !e.Swap?
    ensures Next(w, e) == w
  {
    hide At, Ends, Released, IdentityOf, CredOf, Accepted, Relabelled, Moves;
  }

  lemma CommittedStep(w: World, e: Event, t: nat)
    requires t in w.tasks && Committed(w.tasks[t]) && OfConnect(e, t)
    ensures var w' := Next(w, e);
            && t in w'.tasks
            && (|| (Committed(w'.tasks[t]) && w'.st.generation == w.st.generation)
                || (w'.tasks[t].Swapped? && w'.st.generation == w.st.generation + 1))
  {
    hide WithDefaults, Moves;
    if !e.Defaults? && !e.Take? && !e.Swap? {
      NotYet(w, e, t);
      hide Next;
    }
  }

  lemma StepBySelf(w: World, e: Event, t: nat)
    requires t in w.tasks && Unswapped(w, t) && OfConnect(e, t)
    ensures var w' := Next(w, e);
            && (Committed(w.tasks[t]) ==> t in w'.tasks && (Committed(w'.tasks[t]) || w'.tasks[t].Swapped?))
            && (Undecided(w.tasks[t]) ==> w'.st == w.st && Unswapped(w', t))
  {
    if Committed(w.tasks[t]) {
      CommittedStep(w, e, t);
    } else {
      UndecidedStep(w, e, t);
    }
    hide Next;
  }

  lemma ConnectElsewhere(w: World, u: nat, t: nat)
    requires u != t
    ensures var w' := OnSwap(w, u); (t in w.tasks <==> t in w'.tasks) && (t in w.tasks ==> w'.tasks[t] == w.tasks[t])
    ensures var w' := OnAdopt(w, u); (t in w.tasks <==> t in w'.tasks) && (t in w.tasks ==> w'.tasks[t] == w.tasks[t])
  {
  }

  lemma ElsewhereStays(w: World, e: Event, t: nat)
    requires !e.SetKey? && e.t != t
    ensures t in w.tasks <==> t in Next(w, e).tasks
    ensures t in w.tasks ==> Next(w, e).tasks[t] == w.tasks[t]
  {
    hide Moves, OnSwap, OnAdopt;
    if e.Swap? || e.Adopt? {
      ConnectElsewhere(w, e.t, t);
    } else {
      NextFramed(w, e);
      hide Next;
    }
  }

  lemma NothingWithoutTask(w: World, e: Event, t: nat)
    requires t !in w.tasks && OfConnect(e, t)
    ensures Next(w, e) == w
  {
    hide At, Released, Connect, IdentityOf, CredOf, Accepted, WithDefaults, Relabelled, Moves;
  }

  lemma StepByOther(w: World, e: Event, t: nat)
    requires Unswapped(w, t) && !Reuses(e, t) && !(t in w.tasks && OfConnect(e, t))
    ensures var w' := Next(w, e);
            && (t in w.tasks <==> t in w'.tasks)
            && (t in w.tasks ==> w'.tasks[t] == w.tasks[t])
            && (t !in w.tasks && OfConnect(e, t) ==> w' == w)
  {
    if OfConnect(e, t) {
      NothingWithoutTask(w, e, t);
    } else if e.SetKey? {
    } else if e.t != t {
      ElsewhereStays(w, e, t);
      hide Next;
    } else {
      OtherKind(w, e, t);
      hide Next;
    }
  }

  /** A step of another kind of task does nothing to a connect. */
  lemma OtherKind(w: World, e: Event, t: nat)
    requires Unswapped(w, t) && !Reuses(e, t) && !OfConnect(e, t) && !e.SetKey? && e.t == t
    ensures Next(w, e) == w
  {
    hide At, Ends, Released, Connect, Strand, MarkRefused, Moves;
  }

  /** A connect among everything else that goes on: it never got as far as the
      swap, at no point of the run. */
  ghost predicate NeverSwaps(w: World, es: seq<Event>, t: nat)
    decreases |es|
  {
    es != [] ==> Unswapped(Next(w, es[0]), t) && NeverSwaps(Next(w, es[0]), es[1..], t)
  }

  /** None of its own steps changed anything of the window. */
  ghost predicate OwnStepsQuiet(w: World, es: seq<Event>, t: nat)
    decreases |es|
  {
    es != [] ==>
      (OfConnect(es[0], t) ==> Next(w, es[0]).st == w.st) && OwnStepsQuiet(Next(w, es[0]), es[1..], t)
  }

  lemma {:induction false} CommittedStays(w: World, es: seq<Event>, t: nat)
    requires t in w.tasks && Committed(w.tasks[t])
    requires forall i | 0 <= i < |es| :: !Reuses(es[i], t)
    ensures NeverSwaps(w, es, t) ==> t in Run(w, es).tasks
    decreases |es|
  {
    if es == [] {
    } else if NeverSwaps(w, es, t) {
      if OfConnect(es[0], t) {
        StepBySelf(w, es[0], t);
      } else {
        StepByOther(w, es[0], t);
      }
      hide Next;
      CommittedStays(Next(w, es[0]), es[1..], t);
    }
  }

  /** The same in every interleaving: whatever else goes on, a connect that ends
      without having swapped changed the window by none of its own steps. */
  lemma {:induction false} FailureIsQuiet(w: World, es: seq<Event>, t: nat)
    requires t in w.tasks ==> Undecided(w.tasks[t])
    requires forall i | 0 <= i < |es| :: !Reuses(es[i], t)
    ensures NeverSwaps(w, es, t) && t !in Run(w, es).tasks ==> OwnStepsQuiet(w, es, t)
    decreases |es|
  {
    if es == [] {
    } else if NeverSwaps(w, es, t) && t !in Run(w, es).tasks {
      var w' := Next(w, es[0]);
      if t in w.tasks && OfConnect(es[0], t) {
        StepBySelf(w, es[0], t);
      } else {
        StepByOther(w, es[0], t);
      }
      hide Next;
      if t in w'.tasks && Committed(w'.tasks[t]) {
        CommittedStays(w', es[1..], t);
      } else {
        FailureIsQuiet(w', es[1..], t);
      }
    }
  }

  ghost predicate Fills(was: Option<string>, after: Option<string>) { was.Some? ==> after == was }

  /** Labels that were set are as they were; a role is nobody's default. */
  ghost predicate OnlyFilled(l: Labels, l': Labels) {
    Fills(l.project, l'.project) && Fills(l.channel, l'.channel) && l'.role == l.role
  }

  lemma LabelsStep(w: World, e: Event)
    ensures !e.Defaults? && !e.Relabel? ==> Next(w, e).st.labels == w.st.labels
    ensures e.Defaults? ==> OnlyFilled(w.st.labels, Next(w, e).st.labels)
  {
    if e.Defaults? {
      hide Moves;
    } else {
      hide Moves;
      hide OnSpawn, OnLock, OnEstablishOk, OnEstablishFails, OnCheckTeam, OnDefaults, OnTake, OnSwap, OnSnap;
      hide OnFlush, OnRelabel, OnRotate, OnRotateFails, OnOpen, OnAdopt, OnCall, OnCallRefused, OnCallEnds;
      hide OnRenew, OnRenewOk, OnRenewRefused, OnSetKey;
    }
  }

  /** A connect that was admitted fills each empty label with the default it brings,
      and an empty one stays so only if it brings none. */
  lemma DefaultsAreTaken(w: World, t: nat)
    requires t in w.tasks && w.tasks[t].Admitted?
    ensures var l, l', c := w.st.labels, Next(w, Defaults(t)).st.labels, w.tasks[t].cand;
            && (l'.project.None? <==> l.project.None? && c.project.None?)
            && (l.project.None? ==> l'.project == c.project)
            && (l'.channel.None? <==> l.channel.None? && c.channel.None?)
            && (l.channel.None? ==> l'.channel == c.channel)
  {
    hide Moves;
  }

  function LastKey(key: nat, es: seq<Event>): nat
    decreases |es|
  {
    if es == [] then key else LastKey(if es[0].SetKey? then es[0].key else key, es[1..])
  }

  lemma KeyStep(w: World, e: Event)
    ensures Next(w, e).st.key == if e.SetKey? then e.key else w.st.key
  {
    if e.Swap? || e.Adopt? || e.SetKey? {
      hide Moves;
    } else {
      NextMoves(w, e);
      hide Next;
    }
  }

  /** Over every run the record's key is the one last bound, and a record is taken
      for the key of that moment. */
  lemma {:induction false} KeyIsTheLastBound(w: World, es: seq<Event>)
    ensures Run(w, es).st.key == LastKey(w.st.key, es)
    decreases |es|
  {
    if es == [] {
    } else {
      KeyStep(w, es[0]);
      hide Next;
      KeyIsTheLastBound(Next(w, es[0]), es[1..]);
    }
  }

  /** Over every interleaving: whatever connects, adopts or renews, a label that
      was set changes only by the relabelling of a `configure_session`. */
  lemma {:induction false} SetLabelsStay(w: World, es: seq<Event>)
    requires forall i | 0 <= i < |es| :: !es[i].Relabel?
    ensures OnlyFilled(w.st.labels, Run(w, es).st.labels)
    decreases |es|
  {
    if es == [] {
    } else {
      LabelsStep(w, es[0]);
      hide Next;
      SetLabelsStay(Next(w, es[0]), es[1..]);
    }
  }

  lemma RelabellingIsExact(w: World, t: nat)
    requires t in w.tasks && w.tasks[t].Relabelling?
    ensures var asked := w.tasks[t].staged;
            var l, l' := w.st.labels, Next(w, Relabel(t)).st.labels;
            && l'.project == (if asked.project.Some? then asked.project.value else l.project)
            && l'.role == (if asked.role.Some? then asked.role.value else l.role)
            && l'.channel == (if asked.channel.Some? then asked.channel.value else l.channel)
  {
    hide Moves;
  }

  /** What the relabellings of a run last asked of a label; `None` if none did. */
  function LastAsked(w: World, es: seq<Event>, pick: Staged -> Option<Option<string>>): Option<Option<string>>
    decreases |es|
  {
    if es == [] then None
    else
      var later := LastAsked(Next(w, es[0]), es[1..], pick);
      if later.Some? then later else AskedBy(w, es[0], pick)
  }

  /** The defaults that connects of a run brought for a label. */
  function Offered(w: World, es: seq<Event>, pick: Candidate -> Option<string>): set<string>
    decreases |es|
  {
    if es == [] then {}
    else OfferedBy(w, es[0], pick) + Offered(Next(w, es[0]), es[1..], pick)
  }

  function OfferedBy(w: World, e: Event, pick: Candidate -> Option<string>): set<string> {
    if e.Defaults? && e.t in w.tasks && w.tasks[e.t].Admitted? && pick(w.tasks[e.t].cand).Some?
    then {pick(w.tasks[e.t].cand).value} else {}
  }

  /** A label after a run: what was last asked for, or else what it was; where that
      is empty, still empty or one of the defaults offered. */
  ghost predicate Settles(
    was: Option<string>, asked: Option<Option<string>>, now: Option<string>, offered: set<string>)
  {
    var due := if asked.Some? then asked.value else was;
    if due.Some? then now == due else now.Some? ==> now.value in offered
  }

  /** One step of one label: relabelled, filled or left alone. */
  ghost predicate SettlesOnce(
    was: Option<string>, asked: Option<Option<string>>, now: Option<string>, offered: set<string>)
  {
    if asked.Some? then now == asked.value
    else now == was || (was.None? && now.Some? && now.value in offered)
  }

  lemma SettlesThen(
    was: Option<string>, asked: Option<Option<string>>, mid: Option<string>, offered: set<string>,
    later: Option<Option<string>>, now: Option<string>, more: set<string>)
    requires SettlesOnce(was, asked, mid, offered) && Settles(mid, later, now, more)
    ensures Settles(was, if later.Some? then later else asked, now, offered + more)
  {
  }

  function AskedBy(w: World, e: Event, pick: Staged -> Option<Option<string>>): Option<Option<string>> {
    if e.Relabel? && e.t in w.tasks && w.tasks[e.t].Relabelling? then pick(w.tasks[e.t].staged) else None
  }

  function ProjectOf(s: Staged): Option<Option<string>> { s.project }

  function RoleOf(s: Staged): Option<Option<string>> { s.role }

  function ChannelOf(s: Staged): Option<Option<string>> { s.channel }

  function DefaultProject(c: Candidate): Option<string> { c.project }

  function DefaultChannel(c: Candidate): Option<string> { c.channel }

  function NoDefault(c: Candidate): Option<string> { None }

  lemma LabelsStepExactly(w: World, e: Event)
    ensures var l, l' := w.st.labels, Next(w, e).st.labels;
            && SettlesOnce(l.project, AskedBy(w, e, ProjectOf), l'.project, OfferedBy(w, e, DefaultProject))
            && SettlesOnce(l.role, AskedBy(w, e, RoleOf), l'.role, OfferedBy(w, e, NoDefault))
            && SettlesOnce(l.channel, AskedBy(w, e, ChannelOf), l'.channel, OfferedBy(w, e, DefaultChannel))
  {
    if e.Relabel? {
      if e.t in w.tasks && w.tasks[e.t].Relabelling? {
        RelabellingIsExact(w, e.t);
      } else {
        assert Next(w, e) == w;
      }
      hide Next;
    } else if e.Defaults? {
      hide Moves;
    } else {
      LabelsStep(w, e);
      hide Next;
    }
  }

  /** Over every interleaving of configures, connects, adoptions and calls: each
      label is the one last asked for, else the one it was; an empty project or
      channel may have been filled, with a default that some connect brought. */
  lemma {:induction false} LabelsAreTheLastAsked(w: World, es: seq<Event>)
    ensures var l, l' := w.st.labels, Run(w, es).st.labels;
            && Settles(l.project, LastAsked(w, es, ProjectOf), l'.project, Offered(w, es, DefaultProject))
            && Settles(l.role, LastAsked(w, es, RoleOf), l'.role, {})
            && Settles(l.channel, LastAsked(w, es, ChannelOf), l'.channel, Offered(w, es, DefaultChannel))
    decreases |es|
  {
    hide Next, Settles, SettlesOnce;
    if es == [] {
      NothingAsked(w.st.labels.project);
      NothingAsked(w.st.labels.role);
      NothingAsked(w.st.labels.channel);
    } else {
      var e, w1 := es[0], Next(w, es[0]);
      var l, m, l' := w.st.labels, w1.st.labels, Run(w, es).st.labels;
      LabelsStepExactly(w, e);
      LabelsAreTheLastAsked(w1, es[1..]);
      var rest := es[1..];
      var none: set<string> := {};
      assert none + none == none;
      assert OfferedBy(w, e, NoDefault) == {};
      hide Run, OfferedBy, AskedBy;
      SettlesThen(l.project, AskedBy(w, e, ProjectOf), m.project, OfferedBy(w, e, DefaultProject),
                  LastAsked(w1, rest, ProjectOf), l'.project, Offered(w1, rest, DefaultProject));
      SettlesThen(l.role, AskedBy(w, e, RoleOf), m.role, none, LastAsked(w1, rest, RoleOf), l'.role, none);
      SettlesThen(l.channel, AskedBy(w, e, ChannelOf), m.channel, OfferedBy(w, e, DefaultChannel),
                  LastAsked(w1, rest, ChannelOf), l'.channel, Offered(w1, rest, DefaultChannel));
    }
  }

  lemma NothingAsked(was: Option<string>)
    ensures Settles(was, None, was, {})
  {
  }

  // ----------------------------------------------------------- the record --

  /** The binding record under `key` is the credential the window speaks with,
      and the one the bus accepts. */
  ghost predicate RecordCurrent(w: World, key: nat) {
    && key in w.records && w.records[key].Some?
    && w.records[key] == CredOf(IdentityOf(w.st))
    && CurrentOnBus(w, w.records[key].value)
  }

  /** When an adoption writes its record and returns, connected or stranded, the
      record holds the secret and epoch the bus rotated to. */
  lemma AdoptionRecordsTheSecret(labels: Labels, key: nat, es: seq<Event>, t: nat)
    ensures var w := Run(Start(labels, key), es);
            t in w.tasks && w.tasks[t].AdoptSnapped? ==>
              var w' := Next(w, Flush(t));
              RecordCurrent(w', w.tasks[t].key) && w'.holder.None?
  {
    hide Moves;
    StartIsSound(labels, key);
    RunKeeps(Start(labels, key), es);
    var w := Run(Start(labels, key), es);
    hide Run, LockOk, TasksOk;
    if t in w.tasks && w.tasks[t].AdoptSnapped? {
      OneTask(w, t);
    }
  }

  /** A record taken from the window and not yet written. */
  predicate Pending(p: Task, key: nat) { p.RecordSnapped? && p.key == key }

  ghost predicate NoneStale(w: World, key: nat) {
    key in w.records && forall t <- w.tasks :: Pending(w.tasks[t], key) ==> w.tasks[t].record == w.records[key]
  }

  predicate TakesNoLock(es: seq<Event>) { forall i | 0 <= i < |es| :: !es[i].Lock? }

  predicate NeedsLock(e: Event) {
    e.EstablishOk? || e.EstablishFails? || e.CheckTeam? || e.Defaults? || e.Take? || e.Swap?
    || e.Rotate? || e.RotateFails? || e.Open? || e.Adopt?
  }

  lemma NothingWithoutLock(w: World, e: Event)
    requires NeedsLock(e) && (e.t in w.tasks ==> !Holds(w.tasks[e.t]))
    ensures Next(w, e) == w
  {
    hide Moves;
    hide At, Released, Connect, Strand, Accepted, IdentityOf, WithDefaults;
  }

  lemma QuietSnap(w: World, t: nat, key: nat)
    requires w.holder.None? && RecordCurrent(w, key) && NoneStale(w, key) && (t in w.tasks ==> !Holds(w.tasks[t]))
    ensures var w' := OnSnap(w, t); w'.holder.None? && RecordCurrent(w', key) && NoneStale(w', key)
  {
    hide Moves;
  }

  lemma QuietFlush(w: World, t: nat, key: nat)
    requires w.holder.None? && RecordCurrent(w, key) && NoneStale(w, key) && (t in w.tasks ==> !Holds(w.tasks[t]))
    ensures var w' := OnFlush(w, t); w'.holder.None? && RecordCurrent(w', key) && NoneStale(w', key)
  {
    hide Moves;
  }

  lemma QuietRenewal(w: World, t: nat, expires: int, key: nat)
    requires w.holder.None? && RecordCurrent(w, key) && NoneStale(w, key)
    ensures var w' := OnRenewOk(w, t, expires); w'.holder.None? && RecordCurrent(w', key) && NoneStale(w', key)
  {
    hide Moves;
  }

  lemma QuietCall(w: World, e: Event, key: nat)
    requires w.holder.None? && RecordCurrent(w, key) && NoneStale(w, key)
    requires !NeedsLock(e) && !e.Lock? && !e.Snap? && !e.Flush?
    ensures var w' := Next(w, e); w'.holder.None? && RecordCurrent(w', key) && NoneStale(w', key)
  {
    hide Moves, Relabelled;
    if e.RenewOk? {
      QuietRenewal(w, e.t, e.expires, key);
      hide OnRenewOk;
    }
  }

  lemma QuietStep(w: World, e: Event, key: nat)
    requires Inv(w) && w.holder.None? && !e.Lock?
    requires RecordCurrent(w, key) && NoneStale(w, key)
    ensures var w' := Next(w, e);
            w'.holder.None? && RecordCurrent(w', key) && NoneStale(w', key)
  {
    hide Moves;
    if !e.SetKey? && e.t in w.tasks {
      OneTask(w, e.t);
    }
    hide TasksOk, TeamOk, GenOk, LockOk;
    if NeedsLock(e) {
      NothingWithoutLock(w, e);
      hide Next;
    } else if e.Snap? {
      QuietSnap(w, e.t, key);
    } else if e.Flush? {
      QuietFlush(w, e.t, key);
    } else {
      QuietCall(w, e, key);
    }
  }

  lemma {:induction false} QuietRun(w: World, es: seq<Event>, key: nat)
    requires Inv(w) && w.holder.None? && TakesNoLock(es)
    requires RecordCurrent(w, key) && NoneStale(w, key)
    ensures RecordCurrent(Run(w, es), key)
    decreases |es|
  {
    hide Next, Inv, RecordCurrent, NoneStale;
    if es == [] {
    } else {
      QuietStep(w, es[0], key);
      NextKeeps(w, es[0]);
      QuietRun(Next(w, es[0]), es[1..], key);
    }
  }

  /** Until the switch lock is taken again the record stays current, if and only
      if no `configure_session` still has an older one in hand: its record is
      taken and written outside the switch lock. */
  lemma RecordStaysCurrentIff(w: World, key: nat)
    requires Inv(w) && w.holder.None? && RecordCurrent(w, key)
    ensures (forall es: seq<Event> :: TakesNoLock(es) ==> RecordCurrent(Run(w, es), key)) <==> NoneStale(w, key)
  {
    hide Moves;
    if NoneStale(w, key) {
      forall es: seq<Event> | TakesNoLock(es) ensures RecordCurrent(Run(w, es), key) {
        QuietRun(w, es, key);
      }
    } else {
      var t :| t in w.tasks && Pending(w.tasks[t], key) && w.tasks[t].record != w.records[key];
      var es := [Flush(t)];
      assert es[1..] == [];
      assert Run(w, es) == Next(w, Flush(t));
      assert TakesNoLock(es);
      assert !RecordCurrent(Run(w, es), key);
    }
  }

  // ---------------------------------------------------- the record in a run --

  /** Between taking the connection away, or adopting one, and writing the record. */
  predicate Owes(p: Task) { p.Taken? || p.Swapped? || p.Snapped? || p.Adopted? || p.AdoptSnapped? }

  /** The lock holder will still write the record before it lets go. */
  predicate Owing(w: World) {
    w.holder.Some? && w.holder.value in w.tasks && Owes(w.tasks[w.holder.value])
  }

  /** Nothing is owed, and the record under `key` is the window's credential. */
  ghost predicate Own(w: World, key: nat) {
    !Owing(w) && IdentityOf(w.st).Some? ==> key in w.records && w.records[key] == CredOf(IdentityOf(w.st))
  }

  ghost predicate SnapOk(w: World, key: nat, p: Task) {
    (p.Snapped? || p.AdoptSnapped?) ==> p.key == key && p.record == CredOf(IdentityOf(w.st))
  }

  /** What the holder took to write is still the window's. */
  ghost predicate HolderSnapOk(w: World, key: nat) {
    w.holder.Some? && w.holder.value in w.tasks ==> SnapOk(w, key, w.tasks[w.holder.value])
  }

  /** Records are taken under the lock for `key` only. */
  predicate Keyed(w: World, e: Event, key: nat) {
    e.Snap? && e.t in w.tasks && Holds(w.tasks[e.t]) ==> w.st.key == key
  }

  /** A record taken outside the lock and written late. */
  predicate Late(w: World, e: Event, key: nat) {
    e.Flush? && e.t in w.tasks && w.tasks[e.t].RecordSnapped? && w.tasks[e.t].key == key
  }

  /** What is written late is still the window's own, or the holder will write over
      it. */
  predicate Tidy(w: World, e: Event, key: nat) {
    Late(w, e, key) && !Owing(w) && IdentityOf(w.st).Some? ==> w.tasks[e.t].record == CredOf(IdentityOf(w.st))
  }

  ghost predicate AllKeyed(w: World, es: seq<Event>, key: nat)
    decreases |es|
  {
    es != [] ==> Keyed(w, es[0], key) && AllKeyed(Next(w, es[0]), es[1..], key)
  }

  ghost predicate AllTidy(w: World, es: seq<Event>, key: nat)
    decreases |es|
  {
    es != [] ==> Tidy(w, es[0], key) && AllTidy(Next(w, es[0]), es[1..], key)
  }

  /** At every point of the run. */
  ghost predicate AlwaysOwn(w: World, es: seq<Event>, key: nat)
    decreases |es|
  {
    Own(w, key) && (es != [] ==> AlwaysOwn(Next(w, es[0]), es[1..], key))
  }

  lemma OwnFlush(w: World, t: nat, key: nat)
    requires Inv(w) && Own(w, key) && HolderSnapOk(w, key) && Tidy(w, Flush(t), key)
    ensures var w' := OnFlush(w, t); Own(w', key) && HolderSnapOk(w', key)
  {
    hide Moves;
    if t in w.tasks {
      OneTask(w, t);
    }
    hide LockOk, TasksOk, TeamOk, GenOk;
  }

  lemma OwnSnap(w: World, t: nat, key: nat)
    requires Inv(w) && Own(w, key) && HolderSnapOk(w, key) && Keyed(w, Snap(t), key)
    ensures var w' := OnSnap(w, t); Own(w', key) && HolderSnapOk(w', key)
  {
    hide Moves;
    if t in w.tasks {
      OneTask(w, t);
    }
    hide LockOk, TasksOk, TeamOk, GenOk;
  }

  /** The steps by which the holder comes to owe a record. */
  lemma OwnTakeOrSwap(w: World, t: nat, key: nat)
    requires Inv(w) && Own(w, key) && HolderSnapOk(w, key)
    ensures Own(OnTake(w, t), key) && HolderSnapOk(OnTake(w, t), key)
    ensures Own(OnSwap(w, t), key) && HolderSnapOk(OnSwap(w, t), key)
  {
    hide Moves;
    if t in w.tasks {
      OneTask(w, t);
    }
    hide LockOk, TasksOk, TeamOk, GenOk, IdentityOf, CredOf;
  }

  lemma OwnAdopt(w: World, t: nat, key: nat)
    requires Inv(w) && Own(w, key) && HolderSnapOk(w, key)
    ensures Own(OnAdopt(w, t), key) && HolderSnapOk(OnAdopt(w, t), key)
  {
    if t in w.tasks {
      OneTask(w, t);
    }
    hide LockOk, TasksOk, TeamOk, GenOk, IdentityOf, CredOf;
  }

  /** A step of `t` that leaves credential and records alone, and is none of those
      during which a record is owed. */
  ghost predicate Aside(w: World, w': World, t: nat) {
    || w' == w
    || (&& IdentityOf(w'.st) == IdentityOf(w.st) && w'.records == w.records
        && (t in w.tasks ==> !Owes(w.tasks[t])) && (t in w'.tasks ==> !Owes(w'.tasks[t])))
  }

  lemma OwnAside(w: World, w': World, t: nat, key: nat)
    requires LockOk(w) && LockOk(w') && OthersStay(w, w', t) && Aside(w, w', t) && Own(w, key) && HolderSnapOk(w, key)
    ensures Own(w', key) && HolderSnapOk(w', key)
  {
    hide IdentityOf, CredOf;
    if w' != w {
      if Owing(w) {
        assert w.holder.value != t && Holds(w.tasks[w.holder.value]);
      }
      if Owing(w') {
        assert w'.holder.value != t && Holds(w'.tasks[w'.holder.value]);
      }
    }
  }

  lemma LockAside(w: World, t: nat)
    ensures Aside(w, OnLock(w, t), t)
  {
    hide Moves;
  }

  lemma EstablishAside(w: World, e: Event)
    requires e.EstablishOk? || e.EstablishFails? || e.Open?
    ensures Aside(w, Next(w, e), e.t)
  {
    hide Moves, Accepted, IdentityOf;
  }

  lemma LabelAside(w: World, e: Event)
    requires e.CheckTeam? || e.Defaults? || e.Relabel?
    ensures Aside(w, Next(w, e), e.t)
  {
    hide Moves, WithDefaults, Relabelled;
  }

  lemma RotateAside(w: World, e: Event)
    requires e.Rotate? || e.RotateFails?
    ensures Aside(w, Next(w, e), e.t)
  {
    hide Moves, IdentityOf;
  }

  lemma CallAside(w: World, e: Event)
    requires e.Spawn? || e.Call? || e.CallEnds? || e.Renew?
    ensures Aside(w, Next(w, e), e.t)
  {
    hide Moves, IdentityOf;
  }

  lemma RefusalAside(w: World, e: Event)
    requires e.CallRefused? || e.RenewRefused?
    ensures Aside(w, Next(w, e), e.t)
  {
    hide Moves;
  }

  lemma RenewalAside(w: World, t: nat, expires: int)
    ensures Aside(w, OnRenewOk(w, t, expires), t)
  {
    hide Moves;
  }

  lemma NextAside(w: World, e: Event)
    requires !e.Take? && !e.Swap? && !e.Adopt? && !e.Snap? && !e.Flush? && !e.SetKey?
    ensures Aside(w, Next(w, e), e.t)
  {
    hide Aside, Moves, OnLock, OnRenewOk;
    match e {
      case Lock(t) => LockAside(w, t);
      case RenewOk(t, expires) => RenewalAside(w, t, expires);
      case _ =>
        hide Next;
        if e.EstablishOk? || e.EstablishFails? || e.Open? {
          EstablishAside(w, e);
        } else if e.CheckTeam? || e.Defaults? || e.Relabel? {
          LabelAside(w, e);
        } else if e.Rotate? || e.RotateFails? {
          RotateAside(w, e);
        } else if e.CallRefused? || e.RenewRefused? {
          RefusalAside(w, e);
        } else {
          CallAside(w, e);
        }
    }
  }

  lemma LocksKeep(w: World, e: Event)
    requires Inv(w) && !e.Swap? && !e.Adopt? && !e.SetKey?
    ensures LockOk(w) && LockOk(Next(w, e)) && OthersStay(w, Next(w, e), e.t)
  {
    NextKeeps(w, e);
    NextFramed(w, e);
    hide Next, LockOk, TasksOk, TeamOk, GenOk;
  }

  lemma OwnStep(w: World, e: Event, key: nat)
    requires Inv(w) && Own(w, key) && HolderSnapOk(w, key) && Keyed(w, e, key) && Tidy(w, e, key)
    ensures Own(Next(w, e), key) && HolderSnapOk(Next(w, e), key)
  {
    if e.Snap? {
      hide Own, HolderSnapOk, OnSnap;
      OwnSnap(w, e.t, key);
    } else if e.Flush? {
      hide Own, HolderSnapOk, OnFlush;
      OwnFlush(w, e.t, key);
    } else if e.Take? || e.Swap? {
      hide Own, HolderSnapOk, OnTake, OnSwap;
      OwnTakeOrSwap(w, e.t, key);
    } else if e.Adopt? {
      hide Own, HolderSnapOk, OnAdopt;
      OwnAdopt(w, e.t, key);
    } else if e.SetKey? {
      hide Inv;
    } else {
      hide Next, Inv, LockOk, Aside, Own, HolderSnapOk;
      NextAside(w, e);
      LocksKeep(w, e);
      OwnAside(w, Next(w, e), e.t, key);
    }
  }

  /** One late flush of a record that is not the window's own is seen at once. */
  lemma UntidyShows(w: World, e: Event, key: nat)
    requires Inv(w) && !Tidy(w, e, key)
    ensures !Own(Next(w, e), key)
  {
    hide Moves;
    OneTask(w, e.t);
    hide TasksOk, TeamOk, GenOk;
    FlushIs(w, e.t);
    hide Next;
  }

  lemma {:induction false} AlwaysOwnIff(w: World, es: seq<Event>, key: nat)
    requires Inv(w) && Own(w, key) && HolderSnapOk(w, key) && AllKeyed(w, es, key)
    ensures AlwaysOwn(w, es, key) <==> AllTidy(w, es, key)
    decreases |es|
  {
    if es == [] {
    } else {
      hide Next, Inv, Own, HolderSnapOk, Keyed, Tidy;
      var w' := Next(w, es[0]);
      NextKeeps(w, es[0]);
      if Tidy(w, es[0], key) {
        OwnStep(w, es[0], key);
        AlwaysOwnIff(w', es[1..], key);
      } else {
        UntidyShows(w, es[0], key);
        assert !AlwaysOwn(w', es[1..], key);
      }
    }
  }

  /** Over every whole run, whatever is connected, switched, rotated and adopted in
      it: the record is the window's own credential whenever the lock holder owes
      none, if and only if no `configure_session` writes late a record that is not. */
  lemma RecordFollowsIff(labels: Labels, key: nat, es: seq<Event>)
    requires AllKeyed(Start(labels, key), es, key)
    ensures AlwaysOwn(Start(labels, key), es, key) <==> AllTidy(Start(labels, key), es, key)
  {
    StartIsSound(labels, key);
    AlwaysOwnIff(Start(labels, key), es, key);
  }

  // --------------------------------------------------------------- a witness --

  lemma {:induction false} RunAlong(ws: seq<World>, es: seq<Event>)
    requires |ws| == |es| + 1 && forall i | 0 <= i < |es| :: ws[i + 1] == Next(ws[i], es[i])
    ensures Run(ws[0], es) == ws[|es|]
    decreases |es|
  {
    hide Next;
    if es == [] {
    } else {
      RunAlong(ws[1..], es[1..]);
    }
  }

  /** The connect of a `configure_session`, up to the swap. */
  function ConnectEvents(t: nat, cfg: Staged, cand: Candidate): seq<Event> {
    [Spawn(t, ConnectWait(Some(cfg))), Lock(t), EstablishOk(t, cand)] + [CheckTeam(t), Defaults(t), Take(t), Swap(t)]
  }

  /** The rest of it, up to the record it takes outside the lock. */
  function ConfigureEvents(t: nat): seq<Event> { [Snap(t), Flush(t), Relabel(t), Snap(t)] }

  /** A whole adoption, by which the bus rotates to `token`. */
  function AdoptionEvents(u: nat, token: nat): seq<Event> {
    [Spawn(u, AdoptWait), Lock(u), Rotate(u, token, 0), Open(u, true), Adopt(u), Snap(u), Flush(u)]
  }

  lemma Establishes(w0: World, t: nat, cfg: Staged, cand: Candidate)
    requires t !in w0.tasks && w0.holder.None?
    ensures var w := Run(w0, [Spawn(t, ConnectWait(Some(cfg))), Lock(t), EstablishOk(t, cand)]);
            && w.tasks == w0.tasks[t := Established(Some(cfg), cand)] && w.holder == Some(t) && w.st == w0.st
            && w.contexts == w0.contexts
  {
    hide Moves, Accepted;
    var w1 := At(w0, t, ConnectWait(Some(cfg)));
    assert w1 == Next(w0, Spawn(t, ConnectWait(Some(cfg))));
    var w2 := At(w1, t, Establishing(Some(cfg))).(holder := Some(t));
    assert w2 == Next(w1, Lock(t));
    var w3 := At(w2, t, Established(Some(cfg), cand)).(bus := Accepted(w2, cand.cred));
    assert w3 == Next(w2, EstablishOk(t, cand));
    hide Next;
    assert w3.tasks == w0.tasks[t := Established(Some(cfg), cand)];
    RunAlong([w0, w1, w2, w3], [Spawn(t, ConnectWait(Some(cfg))), Lock(t), EstablishOk(t, cand)]);
  }

  lemma Admits(w: World, t: nat, cfg: Staged, cand: Candidate)
    requires t in w.tasks && w.tasks[t] == Established(Some(cfg), cand) && IdentityOf(w.st).None?
    ensures var w1 := At(w, t, Admitted(Some(cfg), cand));
            var w2 := At(w1, t, Defaulted(Some(cfg), cand)).(st := w.st.(labels := WithDefaults(w.st.labels, cand)));
            w1 == Next(w, CheckTeam(t)) && w2 == Next(w1, Defaults(t))
  {
    hide Moves, WithDefaults;
  }

  lemma TakesAndSwaps(w: World, t: nat, cfg: Staged, cand: Candidate)
    requires t in w.tasks && w.tasks[t] == Defaulted(Some(cfg), cand)
    ensures var w1 := At(w, t, Taken(Some(cfg), cand)).(st := w.st.(connected := None));
            var w2 := At(Connect(w1, cand.team, cand.cred, cand.expires), t, Swapped(Some(cfg)));
            w1 == Next(w, Take(t)) && w2 == Next(w1, Swap(t))
  {
    hide Moves;
  }

  lemma SwapsIn(w0: World, t: nat, cfg: Staged, cand: Candidate)
    requires t in w0.tasks && w0.tasks[t] == Established(Some(cfg), cand) && IdentityOf(w0.st).None?
    ensures var w := Run(w0, [CheckTeam(t), Defaults(t), Take(t), Swap(t)]);
            && w.tasks == w0.tasks[t := Swapped(Some(cfg))] && w.holder == w0.holder
            && w.st.key == w0.st.key
            && w.st.connected == Some(Context(w0.contexts, cand.team, cand.cred, cand.expires))
  {
    hide Next, WithDefaults;
    Admits(w0, t, cfg, cand);
    var w1 := At(w0, t, Admitted(Some(cfg), cand));
    var w2 := At(w1, t, Defaulted(Some(cfg), cand)).(st := w0.st.(labels := WithDefaults(w0.st.labels, cand)));
    TakesAndSwaps(w2, t, cfg, cand);
    var w3 := At(w2, t, Taken(Some(cfg), cand)).(st := w2.st.(connected := None));
    var w4 := At(Connect(w3, cand.team, cand.cred, cand.expires), t, Swapped(Some(cfg)));
    assert w4.tasks == w0.tasks[t := Swapped(Some(cfg))];
    RunAlong([w0, w1, w2, w3, w4], [CheckTeam(t), Defaults(t), Take(t), Swap(t)]);
  }

  lemma Connects(t: nat, cfg: Staged, cand: Candidate, labels: Labels, key: nat)
    ensures var w := Run(Start(labels, key), ConnectEvents(t, cfg, cand));
            && w.tasks == map[t := Swapped(Some(cfg))] && w.holder == Some(t)
            && w.st.key == key && w.st.connected == Some(Context(0, cand.team, cand.cred, cand.expires))
  {
    hide Next, Run;
    var w0 := Start(labels, key);
    var opening := [Spawn(t, ConnectWait(Some(cfg))), Lock(t), EstablishOk(t, cand)];
    Establishes(w0, t, cfg, cand);
    SwapsIn(Run(w0, opening), t, cfg, cand);
    RunAppends(w0, opening, [CheckTeam(t), Defaults(t), Take(t), Swap(t)]);
  }

  lemma SnapIs(w: World, t: nat)
    requires t in w.tasks
    ensures var record := CredOf(IdentityOf(w.st));
            var p := w.tasks[t];
            && (p.Swapped? ==> Next(w, Snap(t)) == At(w, t, Snapped(p.cfg, w.st.key, record)))
            && (p.Adopted? ==> Next(w, Snap(t)) == At(w, t, AdoptSnapped(w.st.key, record)))
            && (p.Recording? ==> Next(w, Snap(t)) == At(w, t, RecordSnapped(w.st.key, record)))
  {
    hide Moves;
    hide At, IdentityOf, CredOf;
  }

  lemma FlushIs(w: World, t: nat)
    requires t in w.tasks
    ensures var p := w.tasks[t];
            && (p.Snapped? && p.cfg.Some? ==>
                  Next(w, Flush(t))
                  == At(w.(records := w.records[p.key := p.record]), t, Relabelling(p.cfg.value)).(holder := None))
            && (p.AdoptSnapped? ==> Next(w, Flush(t)) == Released(w.(records := w.records[p.key := p.record]), t))
            && (p.RecordSnapped? ==> Next(w, Flush(t)) == Ends(w.(records := w.records[p.key := p.record]), t))
  {
    hide Moves;
    hide At, Released, Ends;
  }

  lemma RelabelIs(w: World, t: nat)
    requires t in w.tasks && w.tasks[t].Relabelling?
    ensures Next(w, Relabel(t))
            == At(w, t, Recording).(st := w.st.(labels := Relabelled(w.st.labels, w.tasks[t].staged)))
  {
    hide At, Relabelled, Moves;
  }

  lemma Configures(w0: World, t: nat, cfg: Staged, cred: Cred)
    requires t in w0.tasks && w0.tasks[t] == Swapped(Some(cfg))
    requires CredOf(IdentityOf(w0.st)) == Some(cred)
    ensures var w := Run(w0, ConfigureEvents(t));
            && w.tasks == w0.tasks[t := RecordSnapped(w0.st.key, Some(cred))] && w.holder.None?
            && w.st.key == w0.st.key && w.st.connected == w0.st.connected
  {
    hide Moves;
    var record := Some(cred);
    var w1 := At(w0, t, Snapped(Some(cfg), w0.st.key, record));
    SnapIs(w0, t);
    var w2 := At(w1.(records := w1.records[w0.st.key := record]), t, Relabelling(cfg)).(holder := None);
    FlushIs(w1, t);
    var w3 := At(w2, t, Recording).(st := w2.st.(labels := Relabelled(w2.st.labels, cfg)));
    RelabelIs(w2, t);
    hide Next;
    assert IdentityOf(w3.st) == IdentityOf(w0.st);
    SnapIs(w3, t);
    var w4 := At(w3, t, RecordSnapped(w0.st.key, record));
    hide IdentityOf, CredOf, Relabelled;
    assert w4.tasks == w0.tasks[t := RecordSnapped(w0.st.key, Some(cred))];
    RunAlong([w0, w1, w2, w3, w4], ConfigureEvents(t));
  }

  lemma SpawnAndLock(w: World, u: nat, cred: Cred)
    requires u !in w.tasks && w.holder.None?
    requires w.st.connected.Some? && w.st.connected.value.cred == Some(cred)
    ensures Next(w, Spawn(u, AdoptWait)) == At(w, u, AdoptWait)
    ensures Next(At(w, u, AdoptWait), Lock(u)) == At(w, u, Rotating(cred)).(holder := Some(u))
  {
    hide Moves;
    assert w.tasks[u := AdoptWait][u := Rotating(cred)] == w.tasks[u := Rotating(cred)];
  }

  lemma RotateAndOpen(w: World, u: nat, token: nat, cred: Cred)
    requires u in w.tasks && w.tasks[u] == Rotating(cred)
    ensures var next := Cred(token, cred.sessionId, cred.epoch + 1);
            var w' := At(w, u, Rotated(next, 0)).(bus := w.bus[cred.sessionId := next]);
            && Next(w, Rotate(u, token, 0)) == w'
            && Next(w', Open(u, true)) == At(w, u, Opened(next, 0, true)).(bus := w.bus[cred.sessionId := next])
  {
    hide Moves;
    var next := Cred(token, cred.sessionId, cred.epoch + 1);
    assert w.tasks[u := Rotated(next, 0)][u := Opened(next, 0, true)] == w.tasks[u := Opened(next, 0, true)];
  }

  lemma Rotates(w0: World, u: nat, token: nat, cred: Cred)
    requires u !in w0.tasks && w0.holder.None?
    requires w0.st.connected.Some? && w0.st.connected.value.cred == Some(cred)
    ensures var next := Cred(token, cred.sessionId, cred.epoch + 1);
            Run(w0, [Spawn(u, AdoptWait), Lock(u), Rotate(u, token, 0), Open(u, true)])
            == At(w0, u, Opened(next, 0, true)).(holder := Some(u), bus := w0.bus[cred.sessionId := next])
  {
    hide Moves, Next;
    var next := Cred(token, cred.sessionId, cred.epoch + 1);
    var w1 := At(w0, u, AdoptWait);
    var w2 := At(w0, u, Rotating(cred)).(holder := Some(u));
    SpawnAndLock(w0, u, cred);
    RotateAndOpen(w2, u, token, cred);
    var w3 := At(w2, u, Rotated(next, 0)).(bus := w2.bus[cred.sessionId := next]);
    var w4 := At(w2, u, Opened(next, 0, true)).(bus := w2.bus[cred.sessionId := next]);
    assert w4.tasks == w0.tasks[u := Opened(next, 0, true)];
    RunAlong([w0, w1, w2, w3, w4], [Spawn(u, AdoptWait), Lock(u), Rotate(u, token, 0), Open(u, true)]);
  }

  lemma AdoptIs(w: World, u: nat, next: Cred)
    requires u in w.tasks && w.tasks[u] == Opened(next, 0, true) && w.st.connected.Some?
    ensures var w' := Next(w, Adopt(u));
            && w'.tasks == w.tasks[u := Adopted] && w'.bus == w.bus && w'.records == w.records
            && w'.st.key == w.st.key && CredOf(IdentityOf(w'.st)) == Some(next)
  {
    hide Moves;
  }

  lemma Adopts(w0: World, u: nat, next: Cred)
    requires u in w0.tasks && w0.tasks[u] == Opened(next, 0, true) && w0.st.connected.Some?
    ensures var w := Run(w0, [Adopt(u), Snap(u), Flush(u)]);
            && w.tasks == w0.tasks - {u} && w.holder.None? && w.bus == w0.bus
            && w.records == w0.records[w0.st.key := Some(next)] && CredOf(IdentityOf(w.st)) == Some(next)
  {
    hide Next, Moves, IdentityOf, CredOf;
    var w1 := Next(w0, Adopt(u));
    AdoptIs(w0, u, next);
    SnapIs(w1, u);
    var w2 := At(w1, u, AdoptSnapped(w0.st.key, Some(next)));
    FlushIs(w2, u);
    var w3 := Released(w2.(records := w2.records[w0.st.key := Some(next)]), u);
    assert w3.tasks == w0.tasks - {u};
    hide At, Released;
    RunAlong([w0, w1, w2, w3], [Adopt(u), Snap(u), Flush(u)]);
  }

  /** An adoption that nothing interrupts. */
  lemma AdoptsAlone(w0: World, u: nat, token: nat, cred: Cred)
    requires u !in w0.tasks && w0.holder.None?
    requires w0.st.connected.Some? && w0.st.connected.value.cred == Some(cred)
    ensures var w := Run(w0, AdoptionEvents(u, token));
            var next := Cred(token, cred.sessionId, cred.epoch + 1);
            && w.tasks == w0.tasks && w.holder.None? && CurrentOnBus(w, next)
            && w.records == w0.records[w0.st.key := Some(next)] && CredOf(IdentityOf(w.st)) == Some(next)
  {
    hide Next;
    var rotation := [Spawn(u, AdoptWait), Lock(u), Rotate(u, token, 0), Open(u, true)];
    Rotates(w0, u, token, cred);
    RunAppends(w0, rotation, [Adopt(u), Snap(u), Flush(u)]);
    assert AdoptionEvents(u, token) == rotation + [Adopt(u), Snap(u), Flush(u)];
    hide Run;
    var w := At(w0, u, Opened(Cred(token, cred.sessionId, cred.epoch + 1), 0, true))
             .(holder := Some(u), bus := w0.bus[cred.sessionId := Cred(token, cred.sessionId, cred.epoch + 1)]);
    assert w.tasks - {u} == w0.tasks;
    Adopts(w, u, Cred(token, cred.sessionId, cred.epoch + 1));
  }

  /** Nothing is left to do, and the record is not the window's credential nor one
      the bus accepts. */
  ghost predicate LeftStale(w: World, key: nat) {
    && w.tasks == map[] && w.holder.None?
    && key in w.records && w.records[key].Some?
    && w.records[key] != CredOf(IdentityOf(w.st))
    && !CurrentOnBus(w, w.records[key].value)
  }

  lemma WritesLate(w: World, t: nat, key: nat, stale: Cred, next: Cred)
    requires w.tasks == map[t := RecordSnapped(key, Some(stale))] && w.holder.None?
    requires CredOf(IdentityOf(w.st)) == Some(next) && CurrentOnBus(w, next)
    requires next.sessionId == stale.sessionId && next.epoch > stale.epoch
    ensures LeftStale(Run(w, [Flush(t)]), key)
  {
    hide Moves;
    FlushIs(w, t);
    var w' := Ends(w.(records := w.records[key := Some(stale)]), t);
    hide Next;
    assert w'.tasks == map[] && LeftStale(w', key);
    hide LeftStale;
    RunAlong([w, w'], [Flush(t)]);
  }

  lemma ConnectsAndConfigures(t: nat, cfg: Staged, cand: Candidate, cred: Cred, labels: Labels, key: nat)
    requires cand.cred == Some(cred)
    ensures var w := Run(Run(Start(labels, key), ConnectEvents(t, cfg, cand)), ConfigureEvents(t));
            && w.tasks == map[t := RecordSnapped(key, Some(cred))] && w.holder.None? && w.st.key == key
            && w.st.connected.Some? && w.st.connected.value.cred == Some(cred)
  {
    Connects(t, cfg, cand, labels, key);
    hide Start, ConnectEvents, ConfigureEvents, Run;
    Configures(Run(Start(labels, key), ConnectEvents(t, cfg, cand)), t, cfg, cred);
  }

  /** The case is real: a `configure_session` overtaken by an adoption between
      taking its record and writing it leaves on file the secret the bus no longer
      accepts, and no task to put it right. */
  lemma OvertakenConfigureLosesTheSecret(labels: Labels, key: nat)
    ensures exists es: seq<Event> :: LeftStale(Run(Start(labels, key), es), key)
  {
    hide *;
    var first := Cred(1, 0, 0);
    var cfg := Staged(None, None, None);
    var cand := Candidate("team", Some(first), 0, None, None);
    ConnectsAndConfigures(0, cfg, cand, first, labels, key);
    var w := Run(Run(Start(labels, key), ConnectEvents(0, cfg, cand)), ConfigureEvents(0));
    AdoptsAlone(w, 1, 2, first);
    WritesLate(Run(w, AdoptionEvents(1, 2)), 0, key, first, Cred(2, 0, 1));
    RunInTurn(Start(labels, key), ConnectEvents(0, cfg, cand), ConfigureEvents(0), AdoptionEvents(1, 2), [Flush(0)]);
  }

  lemma RunInTurn(w: World, a: seq<Event>, b: seq<Event>, c: seq<Event>, d: seq<Event>)
    ensures Run(w, a + b + c + d) == Run(Run(Run(Run(w, a), b), c), d)
  {
    hide Run;
    RunAppends(w, a, b);
    RunAppends(w, a + b, c);
    RunAppends(w, a + b + c, d);
  }

  lemma {:induction false} RunAppends(w: World, es: seq<Event>, fs: seq<Event>)
    ensures Run(w, es + fs) == Run(Run(w, es), fs)
    decreases |es|
  {
    hide Next;
    if es == [] {
      assert es + fs == fs;
    } else {
      assert (es + fs)[0] == es[0] && (es + fs)[1..] == es[1..] + fs;
      RunAppends(Next(w, es[0]), es[1..], fs);
    }
  }
}
