/** Live session runtimes shared by connections: acquisition that joins a pending opening, attachment,
    operations, disposal when idle, and shutdown. Every segment between two awaits is one atomic action. */
module Sessions {

  import opened Wrappers

  type SessionId = string
  type ConnectionId = nat

  datatype Status = Held | Disposing | Disposed

  /** A runtime handed over by the service, and how often its disposal was started. */
  datatype Runtime = Runtime(id: SessionId, status: Status, disposals: nat)

  /** A pending `create`: waiting for its runtime, for the runtime's snapshot, for the disposal of a
      runtime it gives up, or settled with a session or an error. */
  datatype CreateStage = Acquiring | Snapshotting(runtime: nat) | Discarding(runtime: nat) | Settled(live: Option<nat>)

  datatype Create = Create(id: SessionId, stage: CreateStage)

  datatype LiveSession = LiveSession(id: SessionId, runtime: nat, connections: set<ConnectionId>, operationCount: nat,
                                     terminal: bool, disposing: bool)

  datatype Connection = Connection(ready: bool, sessionIds: set<SessionId>)

  /** `creates`, `lives` and `runtimes` are the objects allocated so far; the two maps are the manager's. */
  datatype State = State(
    liveSessions: map<SessionId, nat>,
    openingSessions: map<SessionId, nat>,
    creates: seq<Create>,
    lives: seq<LiveSession>,
    runtimes: seq<Runtime>,
    connections: map<ConnectionId, Connection>,
    closing: bool,
    closers: seq<set<nat>>)

  const INITIAL := State(map[], map[], [], [], [], map[], false, [])

  datatype Action =
    | StartCreate(id: SessionId)
    | RuntimeArrives(create: nat)
    | RuntimeRefused(create: nat)
    | SnapshotTaken(create: nat, terminal: bool)
    | SnapshotRejected(create: nat)
    | DiscardSettles(create: nat)
    | ForgetOpening(create: nat)
    | ConnectionReady(connection: ConnectionId)
    | Attach(connection: ConnectionId, live: nat)
    | Detach(connection: ConnectionId, id: SessionId)
    | Disconnect(connection: ConnectionId)
    | StartOperation(connection: ConnectionId, id: SessionId)
    | EndOperation(live: nat)
    | Terminate(live: nat)
    | MaybeDispose(live: nat, idle: bool)
    | DisposalSettles(live: nat)
    | BeginClosing
    | CloseAwaitsOpenings
    | CloseCollects(closer: nat)

  // ---------------------------------------------------------------------------------------------
  // Transitions
  // ---------------------------------------------------------------------------------------------

  function WithCreate(s: State, k: nat, stage: CreateStage): State
    requires k < |s.creates|
  {
    s.(creates := s.creates[k := s.creates[k].(stage := stage)])
  }

  function WithLive(s: State, l: nat, live: LiveSession): State
    requires l < |s.lives|
  {
    s.(lives := s.lives[l := live])
  }

  /** Calls `dispose` on a runtime. */
  function Dispose(r: Runtime): Runtime { r.(status := Disposing, disposals := r.disposals + 1) }

  function StartDisposal(s: State, r: nat): State
    requires r < |s.runtimes|
  {
    s.(runtimes := s.runtimes[r := Dispose(s.runtimes[r])])
  }

  function EndDisposal(s: State, r: nat): State
    requires r < |s.runtimes|
  {
    s.(runtimes := s.runtimes[r := s.runtimes[r].(status := Disposed)])
  }

  /** The connection leaves the registered sessions of the given ids. */
  function Leave(s: State, c: ConnectionId, ids: set<SessionId>): seq<LiveSession> {
    seq(|s.lives|, l requires 0 <= l < |s.lives| =>
      var live := s.lives[l];
      if live.id in ids && live.id in s.liveSessions && s.liveSessions[live.id] == l
      then live.(connections := live.connections - {c}) else live)
  }

  /** The guard of `maybeDispose`. */
  predicate MayDispose(s: State, l: nat, idle: bool)
    requires l < |s.lives|
  {
    var live := s.lives[l];
    !s.closing && !live.disposing && live.connections == {} && live.operationCount == 0 && (live.terminal || idle)
  }

  predicate Registered(s: State, l: nat) {
    l < |s.lives| && s.lives[l].id in s.liveSessions && s.liveSessions[s.lives[l].id] == l
  }

  predicate Enabled(s: State, a: Action) {
    match a
    case StartCreate(id) => id !in s.liveSessions && id !in s.openingSessions
    case RuntimeArrives(k) => k < |s.creates| && s.creates[k].stage == Acquiring
    case RuntimeRefused(k) => k < |s.creates| && s.creates[k].stage == Acquiring
    case SnapshotTaken(k, _) => k < |s.creates| && s.creates[k].stage.Snapshotting?
    case SnapshotRejected(k) =>
      k < |s.creates| && s.creates[k].stage.Snapshotting? && s.creates[k].stage.runtime < |s.runtimes|
    case DiscardSettles(k) =>
      k < |s.creates| && s.creates[k].stage.Discarding? && s.creates[k].stage.runtime < |s.runtimes|
    case ForgetOpening(k) =>
      && k < |s.creates| && s.creates[k].stage.Settled?
      && s.creates[k].id in s.openingSessions && s.openingSessions[s.creates[k].id] == k
    case ConnectionReady(c) => c !in s.connections
    case Attach(c, l) => c in s.connections && s.connections[c].ready && l < |s.lives|
    case Detach(c, id) => c in s.connections && id in s.connections[c].sessionIds
    case Disconnect(c) => c in s.connections
    case StartOperation(c, id) =>
      && c in s.connections && id in s.connections[c].sessionIds && id in s.liveSessions
      && s.liveSessions[id] < |s.lives|
      && !s.lives[s.liveSessions[id]].terminal && !s.lives[s.liveSessions[id]].disposing
    case EndOperation(l) => l < |s.lives| && s.lives[l].operationCount > 0
    case Terminate(l) => l < |s.lives|
    case MaybeDispose(l, idle) => l < |s.lives| && MayDispose(s, l, idle) && s.lives[l].runtime < |s.runtimes|
    case DisposalSettles(l) =>
      && l < |s.lives| && s.lives[l].disposing && s.lives[l].runtime < |s.runtimes|
      && s.runtimes[s.lives[l].runtime].status == Disposing
    case BeginClosing => true
    case CloseAwaitsOpenings => s.closing
    case CloseCollects(j) =>
      && s.closing && j < |s.closers|
      && forall k :: k in s.closers[j] ==> k < |s.creates| && s.creates[k].stage.Settled?
  }

  /** The runtimes `close` disposes itself: those of registered sessions not yet being disposed. */
  function Victims(s: State, ids: set<SessionId>): set<nat> {
    set id | id in ids && id in s.liveSessions && s.liveSessions[id] < |s.lives| && !s.lives[s.liveSessions[id]].disposing
      :: s.lives[s.liveSessions[id]].runtime
  }

  /** The runtimes after `close` has visited the registered sessions of the given ids. */
  function Collected(s: State, ids: set<SessionId>): (r: seq<Runtime>)
    ensures |r| == |s.runtimes|
  {
    seq(|s.runtimes|, r requires 0 <= r < |s.runtimes| =>
      if r in Victims(s, ids) then Dispose(s.runtimes[r]) else s.runtimes[r])
  }

  function Next(s: State, a: Action): State
    requires Enabled(s, a)
  {
    match a
    case StartCreate(id) =>
      s.(creates := s.creates + [Create(id, Acquiring)], openingSessions := s.openingSessions[id := |s.creates|])
    case RuntimeArrives(k) =>
      var r := |s.runtimes|;
      var s1 := s.(runtimes := s.runtimes + [Runtime(s.creates[k].id, Held, 0)]);
      if s.closing then WithCreate(StartDisposal(s1, r), k, Discarding(r)) else WithCreate(s1, k, Snapshotting(r))
    case RuntimeRefused(k) => WithCreate(s, k, Settled(None))
    case SnapshotTaken(k, terminal) =>
      var id := s.creates[k].id;
      var live := LiveSession(id, s.creates[k].stage.runtime, {}, 0, terminal, false);
      WithCreate(s, k, Settled(Some(|s.lives|))).(
        lives := s.lives + [live], liveSessions := s.liveSessions[id := |s.lives|])
    case SnapshotRejected(k) =>
      WithCreate(StartDisposal(s, s.creates[k].stage.runtime), k, Discarding(s.creates[k].stage.runtime))
    case DiscardSettles(k) => WithCreate(EndDisposal(s, s.creates[k].stage.runtime), k, Settled(None))
    case ForgetOpening(k) => s.(openingSessions := s.openingSessions - {s.creates[k].id})
    case ConnectionReady(c) => s.(connections := s.connections[c := Connection(true, {})])
    case Attach(c, l) =>
      var connection := s.connections[c];
      WithLive(s, l, s.lives[l].(connections := s.lives[l].connections + {c})).(
        connections := s.connections[c := connection.(sessionIds := connection.sessionIds + {s.lives[l].id})])
    case Detach(c, id) =>
      var connection := s.connections[c];
      s.(lives := Leave(s, c, {id}),
         connections := s.connections[c := connection.(sessionIds := connection.sessionIds - {id})])
    case Disconnect(c) =>
      s.(lives := Leave(s, c, s.connections[c].sessionIds),
         connections := s.connections[c := Connection(false, {})])
    case StartOperation(c, id) =>
      var l := s.liveSessions[id];
      WithLive(s, l, s.lives[l].(operationCount := s.lives[l].operationCount + 1))
    case EndOperation(l) => WithLive(s, l, s.lives[l].(operationCount := s.lives[l].operationCount - 1))
    case Terminate(l) => WithLive(s, l, s.lives[l].(terminal := true))
    case MaybeDispose(l, _) => WithLive(StartDisposal(s, s.lives[l].runtime), l, s.lives[l].(disposing := true))
    case DisposalSettles(l) =>
      var s1 := EndDisposal(s, s.lives[l].runtime);
      if Registered(s, l) then s1.(liveSessions := s.liveSessions - {s.lives[l].id}) else s1
    case BeginClosing => s.(closing := true)
    case CloseAwaitsOpenings => s.(closers := s.closers + [s.openingSessions.Values])
    case CloseCollects(j) =>
      s.(liveSessions := map[], runtimes := Collected(s, s.liveSessions.Keys))
  }

  // ---------------------------------------------------------------------------------------------
  // Invariant: who owns a runtime
  // ---------------------------------------------------------------------------------------------

  /** The runtime an unsettled `create` is responsible for. */
  function Carries(stage: CreateStage): Option<nat> {
    match stage
    case Snapshotting(r) => Some(r)
    case Discarding(r) => Some(r)
    case _ => None
  }

  /** An unsettled `create` is the registered opening of its id, which has no live session; its runtime is
      held while it awaits the snapshot, being disposed while it discards. */
  ghost predicate CreateOk(s: State, k: nat)
    requires k < |s.creates|
  {
    var c := s.creates[k];
    && (!c.stage.Settled? ==> && c.id in s.openingSessions && s.openingSessions[c.id] == k
                              && c.id !in s.liveSessions)
    && (Carries(c.stage).Some? ==>
          var r := Carries(c.stage).value;
          && r < |s.runtimes| && s.runtimes[r].id == c.id
          && s.runtimes[r].status == (if c.stage.Snapshotting? then Held else Disposing)
          && forall l :: 0 <= l < |s.lives| ==> s.lives[l].runtime != r)
  }

  /** A live session's runtime is its own; disposal began exactly when it says so, unless the server closes;
      a session being disposed runs no operation; outside close an unregistered session is being disposed. */
  ghost predicate LiveOk(s: State, l: nat)
    requires l < |s.lives|
  {
    var live := s.lives[l];
    && live.runtime < |s.runtimes| && s.runtimes[live.runtime].id == live.id
    && (forall l' :: 0 <= l' < |s.lives| && l' != l ==> s.lives[l'].runtime != live.runtime)
    && (live.disposing ==> s.runtimes[live.runtime].status != Held && live.operationCount == 0)
    && (Registered(s, l) && !live.disposing ==> s.runtimes[live.runtime].status == Held)
    && (!s.closing && !live.disposing ==> Registered(s, l))
  }

  ghost predicate InOpening(s: State, r: nat)
    requires r < |s.runtimes|
  {
    var id := s.runtimes[r].id;
    && id in s.openingSessions && s.openingSessions[id] < |s.creates|
    && Carries(s.creates[s.openingSessions[id]].stage) == Some(r)
  }

  ghost predicate InLive(s: State, r: nat)
    requires r < |s.runtimes|
  {
    var id := s.runtimes[r].id;
    id in s.liveSessions && s.liveSessions[id] < |s.lives| && s.lives[s.liveSessions[id]].runtime == r
  }

  /** Disposal starts at most once; a runtime that is held, and outside close one not yet disposed, is reachable by its
      id. */
  ghost predicate RuntimeOk(s: State, r: nat)
    requires r < |s.runtimes|
  {
    && s.runtimes[r].disposals == (if s.runtimes[r].status == Held then 0 else 1)
    && (s.runtimes[r].status == Held || (!s.closing && s.runtimes[r].status != Disposed) ==> InOpening(s, r) || InLive(s, r))
  }

  ghost predicate MapsOk(s: State) {
    && (forall id :: id in s.liveSessions ==> s.liveSessions[id] < |s.lives| && s.lives[s.liveSessions[id]].id == id)
    && (forall id :: id in s.openingSessions ==>
          s.openingSessions[id] < |s.creates| && s.creates[s.openingSessions[id]].id == id)
  }

  ghost predicate Inv(s: State) {
    && MapsOk(s)
    && (forall k :: 0 <= k < |s.creates| ==> CreateOk(s, k))
    && (forall l :: 0 <= l < |s.lives| ==> LiveOk(s, l))
    && (forall r :: 0 <= r < |s.runtimes| ==> RuntimeOk(s, r))
  }

  /** Creates, runtimes and registrations unchanged; each session keeps its runtime, and its disposal. */
  ghost predicate OnlySessionsChange(s: State, s': State) {
    && s'.creates == s.creates && s'.runtimes == s.runtimes && s'.closing == s.closing
    && s'.liveSessions == s.liveSessions && s'.openingSessions == s.openingSessions
    && |s'.lives| == |s.lives|
    && forall l :: 0 <= l < |s.lives| ==>
         && s'.lives[l].id == s.lives[l].id && s'.lives[l].runtime == s.lives[l].runtime
         && s'.lives[l].disposing == s.lives[l].disposing
         && (s'.lives[l].disposing ==> s'.lives[l].operationCount <= s.lives[l].operationCount)
  }

  lemma SessionChangeKeeps(s: State, s': State)
    requires Inv(s) && OnlySessionsChange(s, s')
    ensures Inv(s')
  {
    forall k | 0 <= k < |s'.creates| ensures CreateOk(s', k) { assert CreateOk(s, k); }
    forall l | 0 <= l < |s'.lives| ensures LiveOk(s', l) { assert LiveOk(s, l); }
    forall r | 0 <= r < |s'.runtimes| ensures RuntimeOk(s', r) { assert RuntimeOk(s, r); }
  }

  lemma StartCreateKeeps(s: State, id: SessionId)
    requires Inv(s) && Enabled(s, StartCreate(id))
    ensures Inv(Next(s, StartCreate(id)))
  {
    var s' := Next(s, StartCreate(id));
    forall k | 0 <= k < |s'.creates| ensures CreateOk(s', k) { if k < |s.creates| { assert CreateOk(s, k); } }
    forall l | 0 <= l < |s'.lives| ensures LiveOk(s', l) { assert LiveOk(s, l); }
    forall r | 0 <= r < |s'.runtimes| ensures RuntimeOk(s', r) { assert RuntimeOk(s, r); }
  }

  lemma RuntimeArrivesKeeps(s: State, k: nat)
    requires Inv(s) && Enabled(s, RuntimeArrives(k))
    ensures Inv(Next(s, RuntimeArrives(k)))
  {
    var s' := Next(s, RuntimeArrives(k));
    assert CreateOk(s, k);
    forall i | 0 <= i < |s'.creates| ensures CreateOk(s', i) { assert CreateOk(s, i); LivesBelow(s); }
    forall l | 0 <= l < |s'.lives| ensures LiveOk(s', l) { assert LiveOk(s, l); }
    forall r | 0 <= r < |s'.runtimes| ensures RuntimeOk(s', r) { if r < |s.runtimes| { assert RuntimeOk(s, r); } }
  }

  lemma LivesBelow(s: State)
    requires Inv(s)
    ensures forall l :: 0 <= l < |s.lives| ==> s.lives[l].runtime < |s.runtimes|
  {
    forall l | 0 <= l < |s.lives| ensures s.lives[l].runtime < |s.runtimes| { assert LiveOk(s, l); }
  }

  lemma RuntimeRefusedKeeps(s: State, k: nat)
    requires Inv(s) && Enabled(s, RuntimeRefused(k))
    ensures Inv(Next(s, RuntimeRefused(k)))
  {
    var s' := Next(s, RuntimeRefused(k));
    forall i | 0 <= i < |s'.creates| ensures CreateOk(s', i) { assert CreateOk(s, i); }
    forall l | 0 <= l < |s'.lives| ensures LiveOk(s', l) { assert LiveOk(s, l); }
    forall r | 0 <= r < |s'.runtimes| ensures RuntimeOk(s', r) { assert RuntimeOk(s, r); }
  }

  /** Two creates never carry the same runtime, since a runtime's id names one opening. */
  lemma CarriedOnce(s: State, i: nat, k: nat)
    requires Inv(s) && i < |s.creates| && k < |s.creates|
    requires Carries(s.creates[i].stage).Some? && Carries(s.creates[i].stage) == Carries(s.creates[k].stage)
    ensures i == k
  {
    assert CreateOk(s, i) && CreateOk(s, k);
  }

  lemma SnapshotTakenKeeps(s: State, k: nat, terminal: bool)
    requires Inv(s) && Enabled(s, SnapshotTaken(k, terminal))
    ensures Inv(Next(s, SnapshotTaken(k, terminal)))
  {
    var s' := Next(s, SnapshotTaken(k, terminal));
    assert CreateOk(s, k);
    var id := s.creates[k].id;
    forall i | 0 <= i < |s'.creates|
      ensures CreateOk(s', i)
    {
      assert CreateOk(s, i);
      if i != k && Carries(s.creates[i].stage) == Some(s.creates[k].stage.runtime) { CarriedOnce(s, i, k); }
    }
    forall l | 0 <= l < |s'.lives| ensures LiveOk(s', l) { if l < |s.lives| { assert LiveOk(s, l); } }
    forall r | 0 <= r < |s'.runtimes| ensures RuntimeOk(s', r) { assert RuntimeOk(s, r); }
  }

  lemma SnapshotRejectedKeeps(s: State, k: nat)
    requires Inv(s) && Enabled(s, SnapshotRejected(k))
    ensures Inv(Next(s, SnapshotRejected(k)))
  {
    var s' := Next(s, SnapshotRejected(k));
    assert CreateOk(s, k);
    forall i | 0 <= i < |s'.creates|
      ensures CreateOk(s', i)
    {
      assert CreateOk(s, i);
      if i != k && Carries(s.creates[i].stage) == Some(s.creates[k].stage.runtime) { CarriedOnce(s, i, k); }
    }
    forall l | 0 <= l < |s'.lives| ensures LiveOk(s', l) { assert LiveOk(s, l); }
    forall r | 0 <= r < |s'.runtimes| ensures RuntimeOk(s', r) { assert RuntimeOk(s, r); }
  }

  lemma DiscardSettlesKeeps(s: State, k: nat)
    requires Inv(s) && Enabled(s, DiscardSettles(k))
    ensures Inv(Next(s, DiscardSettles(k)))
  {
    var s' := Next(s, DiscardSettles(k));
    assert CreateOk(s, k);
    forall i | 0 <= i < |s'.creates|
      ensures CreateOk(s', i)
    {
      assert CreateOk(s, i);
      if i != k && Carries(s.creates[i].stage) == Some(s.creates[k].stage.runtime) { CarriedOnce(s, i, k); }
    }
    forall l | 0 <= l < |s'.lives| ensures LiveOk(s', l) { assert LiveOk(s, l); }
    forall r | 0 <= r < |s'.runtimes| ensures RuntimeOk(s', r) { assert RuntimeOk(s, r); }
  }

  lemma ForgetOpeningKeeps(s: State, k: nat)
    requires Inv(s) && Enabled(s, ForgetOpening(k))
    ensures Inv(Next(s, ForgetOpening(k)))
  {
    var s' := Next(s, ForgetOpening(k));
    forall i | 0 <= i < |s'.creates| ensures CreateOk(s', i) { assert CreateOk(s, i); }
    forall l | 0 <= l < |s'.lives| ensures LiveOk(s', l) { assert LiveOk(s, l); }
    forall r | 0 <= r < |s'.runtimes| ensures RuntimeOk(s', r) { assert RuntimeOk(s, r); }
  }

  lemma MaybeDisposeKeeps(s: State, l: nat, idle: bool)
    requires Inv(s) && Enabled(s, MaybeDispose(l, idle))
    ensures Inv(Next(s, MaybeDispose(l, idle)))
  {
    var s' := Next(s, MaybeDispose(l, idle));
    assert LiveOk(s, l);
    forall i | 0 <= i < |s'.creates| ensures CreateOk(s', i) { assert CreateOk(s, i); }
    forall i | 0 <= i < |s'.lives| ensures LiveOk(s', i) { assert LiveOk(s, i); }
    forall r | 0 <= r < |s'.runtimes| ensures RuntimeOk(s', r) { assert RuntimeOk(s, r); }
  }

  lemma DisposalSettlesKeeps(s: State, l: nat)
    requires Inv(s) && Enabled(s, DisposalSettles(l))
    ensures Inv(Next(s, DisposalSettles(l)))
  {
    var s' := Next(s, DisposalSettles(l));
    assert LiveOk(s, l);
    forall i | 0 <= i < |s'.creates| ensures CreateOk(s', i) { assert CreateOk(s, i); }
    forall i | 0 <= i < |s'.lives| ensures LiveOk(s', i) { SettlingKeepsLive(s, l, i); }
    forall r | 0 <= r < |s'.runtimes| ensures RuntimeOk(s', r) { assert RuntimeOk(s, r); }
  }

  lemma SettlingKeepsLive(s: State, l: nat, i: nat)
    requires Inv(s) && Enabled(s, DisposalSettles(l)) && i < |s.lives|
    ensures LiveOk(Next(s, DisposalSettles(l)), i)
  {
    assert LiveOk(s, l) && LiveOk(s, i);
  }

  lemma CloseKeeps(s: State, a: Action)
    requires Inv(s) && Enabled(s, a) && (a.BeginClosing? || a.CloseAwaitsOpenings? || a.CloseCollects?)
    ensures Inv(Next(s, a))
  {
    var s' := Next(s, a);
    forall i | 0 <= i < |s'.creates|
      ensures CreateOk(s', i)
    {
      assert CreateOk(s, i);
      if a.CloseCollects? && Carries(s.creates[i].stage).Some? {
        assert Carries(s.creates[i].stage).value !in Victims(s, s.liveSessions.Keys);
      }
    }
    forall l | 0 <= l < |s'.lives| ensures LiveOk(s', l) { assert LiveOk(s, l); }
    forall r | 0 <= r < |s'.runtimes|
      ensures RuntimeOk(s', r)
    {
      assert RuntimeOk(s, r);
      if a.CloseCollects? && r in Victims(s, s.liveSessions.Keys) {
        var id :| id in s.liveSessions && s.liveSessions[id] < |s.lives| && !s.lives[s.liveSessions[id]].disposing
                  && s.lives[s.liveSessions[id]].runtime == r;
        assert LiveOk(s, s.liveSessions[id]);
      } else if a.CloseCollects? && s.runtimes[r].status == Held && InLive(s, r) {
        HeldIsCollected(s, r);
      }
    }
  }

  lemma HeldIsCollected(s: State, r: nat)
    requires Inv(s) && r < |s.runtimes| && s.runtimes[r].status == Held && InLive(s, r)
    ensures r in Victims(s, s.liveSessions.Keys)
  {
    var id := s.runtimes[r].id;
    assert LiveOk(s, s.liveSessions[id]);
    assert id in s.liveSessions.Keys;
  }

  /** Every action keeps the invariant. */
  lemma NextKeeps(s: State, a: Action)
    requires Inv(s) && Enabled(s, a)
    ensures Inv(Next(s, a))
  {
    match a
    case StartCreate(id) => StartCreateKeeps(s, id);
    case RuntimeArrives(k) => RuntimeArrivesKeeps(s, k);
    case RuntimeRefused(k) => RuntimeRefusedKeeps(s, k);
    case SnapshotTaken(k, terminal) => SnapshotTakenKeeps(s, k, terminal);
    case SnapshotRejected(k) => SnapshotRejectedKeeps(s, k);
    case DiscardSettles(k) => DiscardSettlesKeeps(s, k);
    case ForgetOpening(k) => ForgetOpeningKeeps(s, k);
    case MaybeDispose(l, idle) => MaybeDisposeKeeps(s, l, idle);
    case DisposalSettles(l) => DisposalSettlesKeeps(s, l);
    case BeginClosing => CloseKeeps(s, a);
    case CloseAwaitsOpenings => CloseKeeps(s, a);
    case CloseCollects(_) => CloseKeeps(s, a);
    case _ =>
      SessionActionsOnly(s, a);
      SessionChangeKeeps(s, Next(s, a));
  }

  /** Connections and operations touch nothing a runtime's ownership depends on. */
  lemma SessionActionsOnly(s: State, a: Action)
    requires Inv(s) && Enabled(s, a)
    requires a.ConnectionReady? || a.Attach? || a.Detach? || a.Disconnect? || a.StartOperation? || a.EndOperation?
             || a.Terminate?
    ensures OnlySessionsChange(s, Next(s, a))
  {
  }

  // ---------------------------------------------------------------------------------------------
  // Runs
  // ---------------------------------------------------------------------------------------------

  ghost predicate IsRun(s: State, run: seq<Action>)
    decreases |run|
  {
    run == [] || (Enabled(s, run[0]) && IsRun(Next(s, run[0]), run[1..]))
  }

  ghost function After(s: State, run: seq<Action>): State
    requires IsRun(s, run)
    decreases |run|
  {
    if run == [] then s else After(Next(s, run[0]), run[1..])
  }

  lemma {:induction false} RunKeeps(s: State, run: seq<Action>)
    requires Inv(s) && IsRun(s, run)
    ensures Inv(After(s, run))
    decreases |run|
  {
    if run != [] {
      NextKeeps(s, run[0]);
      RunKeeps(Next(s, run[0]), run[1..]);
    }
  }

  ghost predicate StartsOn(s: State, a: Action, l: nat) {
    a.StartOperation? && a.id in s.liveSessions && s.liveSessions[a.id] == l
  }

  /** How many operations a run starts on a live session, and how many it ends. */
  ghost function Starts(s: State, run: seq<Action>, l: nat): nat
    requires IsRun(s, run)
    decreases |run|
  {
    if run == [] then 0 else (if StartsOn(s, run[0], l) then 1 else 0) + Starts(Next(s, run[0]), run[1..], l)
  }

  ghost function Ends(run: seq<Action>, l: nat): nat {
    if run == [] then 0 else (if run[0] == EndOperation(l) then 1 else 0) + Ends(run[1..], l)
  }

  ghost function Count(s: State, l: nat): nat { if l < |s.lives| then s.lives[l].operationCount else 0 }

  lemma CountStep(s: State, a: Action, l: nat)
    requires Enabled(s, a)
    ensures Count(Next(s, a), l)
            == Count(s, l) + (if StartsOn(s, a, l) then 1 else 0) - (if a == EndOperation(l) then 1 else 0)
  {
  }

  /** Over a run a session's counter grows by the operations started on it and not ended. */
  lemma {:induction false} CountIsRunning(s: State, run: seq<Action>, l: nat)
    requires IsRun(s, run)
    ensures Count(After(s, run), l) == Count(s, l) + Starts(s, run, l) - Ends(run, l)
    decreases |run|
  {
    if run != [] {
      CountStep(s, run[0], l);
      CountIsRunning(Next(s, run[0]), run[1..], l);
    }
  }

  /** Over every interleaving: each runtime's disposal starts at most once, also during close; outside close at most one
      acquired runtime per session id is not yet disposed; and every session counts the operations started on it and not
      ended, and while there is one its runtime is held, outside close. */
  lemma RuntimeSafety(run: seq<Action>)
    requires IsRun(INITIAL, run)
    ensures var s := After(INITIAL, run);
            && (forall r :: 0 <= r < |s.runtimes| ==> s.runtimes[r].disposals <= 1)
            && (forall l :: 0 <= l < |s.lives| ==> s.lives[l].operationCount == Starts(INITIAL, run, l) - Ends(run, l))
            && (!s.closing ==>
                  && (forall r, q :: 0 <= r < q < |s.runtimes| && s.runtimes[r].id == s.runtimes[q].id
                        ==> s.runtimes[r].status == Disposed || s.runtimes[q].status == Disposed)
                  && (forall l: nat :: Starts(INITIAL, run, l) > Ends(run, l) ==>
                        && l < |s.lives| && s.lives[l].runtime < |s.runtimes|
                        && s.runtimes[s.lives[l].runtime].status == Held))
  {
    RunKeeps(INITIAL, run);
    var s := After(INITIAL, run);
    forall r | 0 <= r < |s.runtimes| ensures s.runtimes[r].disposals <= 1 { assert RuntimeOk(s, r); }
    forall l | 0 <= l < |s.lives|
      ensures s.lives[l].operationCount == Starts(INITIAL, run, l) - Ends(run, l)
    {
      CountIsRunning(INITIAL, run, l);
    }
    if !s.closing {
      forall r, q | 0 <= r < q < |s.runtimes| && s.runtimes[r].id == s.runtimes[q].id
        ensures s.runtimes[r].status == Disposed || s.runtimes[q].status == Disposed
      {
        OneRuntimePerId(s, r, q);
      }
      forall l: nat | Starts(INITIAL, run, l) > Ends(run, l)
        ensures l < |s.lives| && s.lives[l].runtime < |s.runtimes| && s.runtimes[s.lives[l].runtime].status == Held
      {
        CountIsRunning(INITIAL, run, l);
        assert LiveOk(s, l);
      }
    }
  }

  ghost predicate AwaitsSnapshot(s: State, r: nat) { exists k: nat :: k < |s.creates| && s.creates[k].stage == Snapshotting(r) }
  ghost predicate Serves(s: State, r: nat) { exists l: nat :: Registered(s, l) && s.lives[l].runtime == r && !s.lives[l].disposing }

  lemma HeldIsOwned(s: State, r: nat)
    requires Inv(s) && r < |s.runtimes| && s.runtimes[r].status == Held
    ensures AwaitsSnapshot(s, r) || Serves(s, r)
  {
    assert RuntimeOk(s, r);
    var id := s.runtimes[r].id;
    if InLive(s, r) {
      assert LiveOk(s, s.liveSessions[id]) && Registered(s, s.liveSessions[id]);
    } else {
      assert CreateOk(s, s.openingSessions[id]);
    }
  }

  /** Over every interleaving no held runtime is lost: a create awaits its snapshot, or a registered session serves it. */
  lemma NoRuntimeIsLost(run: seq<Action>)
    requires IsRun(INITIAL, run)
    ensures var s := After(INITIAL, run);
            forall r :: 0 <= r < |s.runtimes| && s.runtimes[r].status == Held ==> AwaitsSnapshot(s, r) || Serves(s, r)
  {
    RunKeeps(INITIAL, run);
    var s := After(INITIAL, run);
    forall r | 0 <= r < |s.runtimes| && s.runtimes[r].status == Held
      ensures AwaitsSnapshot(s, r) || Serves(s, r)
    {
      HeldIsOwned(s, r);
    }
  }

  /** When `close` has collected, only creates that await a snapshot hold a runtime: none of those it waited for. */
  lemma CloseCollectsAll(s: State, j: nat)
    requires Inv(s) && Enabled(s, CloseCollects(j))
    ensures var s' := Next(s, CloseCollects(j));
            forall r :: 0 <= r < |s'.runtimes| && s'.runtimes[r].status == Held ==>
              exists k: nat :: k < |s'.creates| && k !in s.closers[j] && s'.creates[k].stage == Snapshotting(r)
  {
    var s' := Next(s, CloseCollects(j));
    NextKeeps(s, CloseCollects(j));
    forall r | 0 <= r < |s'.runtimes| && s'.runtimes[r].status == Held
      ensures exists k: nat :: k < |s'.creates| && k !in s.closers[j] && s'.creates[k].stage == Snapshotting(r)
    {
      HeldIsOwned(s', r);
    }
  }

  /** A session keeps its id and runtime. It is terminal from the moment its runtime fails, and disposal begins, outside
      close, only for a session nobody is connected to and that runs nothing, when its runtime is idle or failed. */
  lemma LiveStep(s: State, a: Action, l: nat)
    requires Enabled(s, a) && l < |s.lives|
    ensures var was, after, starts := s.lives[l], Next(s, a).lives[l], a.MaybeDispose? && a.live == l;
            && after.id == was.id && after.runtime == was.runtime
            && (after.terminal <==> was.terminal || a == Terminate(l))
            && (after.disposing <==> was.disposing || starts)
            && (starts ==> !s.closing && !was.disposing && was.connections == {} && was.operationCount == 0
                           && (was.terminal || a.idle))
  {
  }

  /** Conversely nothing keeps such a session's runtime from being disposed. */
  lemma IdleMayGo(s: State, l: nat, idle: bool)
    requires Inv(s) && l < |s.lives|
    ensures Enabled(s, MaybeDispose(l, idle))
            <==> !s.closing && !s.lives[l].disposing && s.lives[l].connections == {} && s.lives[l].operationCount == 0
                 && (s.lives[l].terminal || idle)
  {
    assert LiveOk(s, l);
  }

  /** A connection lists what it attached to and has not left, and nothing once it is lost. */
  lemma ConnectionStep(s: State, a: Action, c: ConnectionId)
    requires Enabled(s, a) && c in s.connections
    ensures c in Next(s, a).connections
    ensures var was, after := s.connections[c], Next(s, a).connections[c];
            && (after.ready <==> was.ready && a != Action.Disconnect(c))
            && forall id :: id in after.sessionIds
                 <==> || (a.Attach? && a.connection == c && id == s.lives[a.live].id)
                      || (id in was.sessionIds && a != Action.Disconnect(c) && a != Detach(c, id))
  {
  }

  /** A session registers, unconnected and idle, with the id of its create and the runtime whose snapshot was taken. */
  lemma RegisterStep(s: State, k: nat, terminal: bool)
    requires Inv(s) && Enabled(s, SnapshotTaken(k, terminal))
    ensures var s', l := Next(s, SnapshotTaken(k, terminal)), |s.lives|;
            && Registered(s', l) && s'.lives[l].id == s.creates[k].id && s'.creates[k].stage == Settled(Some(l))
            && s.creates[k].stage == Snapshotting(s'.lives[l].runtime) && s'.runtimes == s.runtimes
            && s'.lives[l].connections == {} && s'.lives[l].operationCount == 0
            && s'.lives[l].terminal == terminal && !s'.lives[l].disposing
  {
  }

  /** A runtime's disposal begins when its snapshot is refused, its idle session goes, or close collects it; and nothing
      else begins it. */
  lemma DisposalBegins(s: State, a: Action, r: nat)
    requires Inv(s) && Enabled(s, a) && r < |s.runtimes| && s.runtimes[r].status == Held
    ensures r < |Next(s, a).runtimes|
    ensures Next(s, a).runtimes[r].status
            == if || (a.SnapshotRejected? && s.creates[a.create].stage == Snapshotting(r))
                  || (a.MaybeDispose? && s.lives[a.live].runtime == r)
                  || (a.CloseCollects? && Serves(s, r))
               then Disposing else Held
  {
    assert RuntimeOk(s, r);
    if a.DiscardSettles? || a.SnapshotRejected? {
      assert CreateOk(s, a.create);
    } else if a.DisposalSettles? {
      assert LiveOk(s, a.live);
    } else if a.CloseCollects? {
      assert r in Victims(s, s.liveSessions.Keys) <==> Serves(s, r) by {
        VictimServes(s, r);
      }
    }
  }

  lemma VictimServes(s: State, r: nat)
    requires Inv(s)
    ensures r in Victims(s, s.liveSessions.Keys) <==> Serves(s, r)
  {
    if Serves(s, r) {
      var l: nat :| Registered(s, l) && s.lives[l].runtime == r && !s.lives[l].disposing;
      assert s.lives[l].id in s.liveSessions.Keys;
    }
    if r in Victims(s, s.liveSessions.Keys) {
      var id :| id in s.liveSessions && s.liveSessions[id] < |s.lives| && !s.lives[s.liveSessions[id]].disposing
                && s.lives[s.liveSessions[id]].runtime == r;
      assert Registered(s, s.liveSessions[id]);
    }
  }

  /** A runtime that arrives is held while its snapshot is taken, or given up at once when the server closes. */
  lemma ArrivalStep(s: State, k: nat)
    requires Enabled(s, RuntimeArrives(k))
    ensures var s', r := Next(s, RuntimeArrives(k)), |s.runtimes|;
            && |s'.runtimes| == r + 1 && s'.runtimes[..r] == s.runtimes && s'.runtimes[r].id == s.creates[k].id
            && (if s.closing then s'.runtimes[r].status == Disposing && s'.creates[k].stage == Discarding(r)
                else s'.runtimes[r].status == Held && s'.creates[k].stage == Snapshotting(r))
  {
  }

  /** A settled disposal leaves its runtime disposed and its session, and only that one, no longer registered. */
  lemma DisposalEnds(s: State, l: nat)
    requires Inv(s) && Enabled(s, DisposalSettles(l))
    ensures var s' := Next(s, DisposalSettles(l));
            && s.lives[l].runtime < |s'.runtimes| && s'.runtimes[s.lives[l].runtime].status == Disposed
            && forall i: nat :: Registered(s', i) <==> Registered(s, i) && i != l
  {
    assert LiveOk(s, l);
    var s' := Next(s, DisposalSettles(l));
    forall i: nat
      ensures Registered(s', i) <==> Registered(s, i) && i != l
    {
      assert i < |s.lives| && Registered(s, i) && Registered(s, l) && i != l ==> s.lives[i].id != s.lives[l].id;
    }
  }

  /** A create that gives its runtime up settles without a session once that is disposed, as one that was refused does. */
  lemma CreateEnds(s: State, a: Action)
    requires Inv(s) && Enabled(s, a) && (a.DiscardSettles? || a.RuntimeRefused? || a.SnapshotRejected?)
    ensures var before, after, s' := s.creates[a.create].stage, Next(s, a).creates[a.create].stage, Next(s, a);
            && s'.liveSessions == s.liveSessions && s'.lives == s.lives
            && (a.SnapshotRejected? ==> before.runtime < |s'.runtimes| && after == Discarding(before.runtime))
            && (a.DiscardSettles? ==> && before.runtime < |s'.runtimes| && s'.runtimes[before.runtime].status == Disposed
                                      && after == Settled(None))
            && (a.RuntimeRefused? ==> s'.runtimes == s.runtimes && after == Settled(None))
  {
    assert CreateOk(s, a.create);
  }

  lemma OneRuntimePerId(s: State, r: nat, q: nat)
    requires Inv(s) && !s.closing && r < |s.runtimes| && q < |s.runtimes| && r != q
    requires s.runtimes[r].id == s.runtimes[q].id
    ensures s.runtimes[r].status == Disposed || s.runtimes[q].status == Disposed
  {
    assert RuntimeOk(s, r) && RuntimeOk(s, q);
    var id := s.runtimes[r].id;
    if id in s.openingSessions {
      assert CreateOk(s, s.openingSessions[id]);
    }
  }

  /** An operation only ever starts on a runtime that is held. */
  lemma OperationStartsOnHeldRuntime(s: State, c: ConnectionId, id: SessionId)
    requires Inv(s) && Enabled(s, StartOperation(c, id))
    ensures var live := s.lives[s.liveSessions[id]];
            live.id == id && live.runtime < |s.runtimes| && s.runtimes[live.runtime].status == Held
  {
    assert LiveOk(s, s.liveSessions[id]);
  }

  // ---------------------------------------------------------------------------------------------
  // Attachments
  // ---------------------------------------------------------------------------------------------

  /** A connection lists a session exactly when the session registered under that id lists the connection;
      sessions that are unregistered or being disposed list nobody. */
  ghost predicate Attachments(s: State) {
    && (forall c, id :: c in s.connections ==>
          (id in s.connections[c].sessionIds
           <==> id in s.liveSessions && s.liveSessions[id] < |s.lives| && c in s.lives[s.liveSessions[id]].connections))
    && (forall l :: 0 <= l < |s.lives| && (s.lives[l].disposing || !Registered(s, l)) ==> s.lives[l].connections == {})
    && (forall l, c :: 0 <= l < |s.lives| && c in s.lives[l].connections ==> c in s.connections)
  }

  /** Attaching keeps the two sides agreed exactly when the acquired session is still registered and not
      being disposed, as when it is attached in the step that makes it available. */
  lemma AttachAgreesIff(s: State, c: ConnectionId, l: nat)
    requires Inv(s) && Attachments(s) && Enabled(s, Attach(c, l))
    ensures Attachments(Next(s, Attach(c, l))) <==> Registered(s, l) && !s.lives[l].disposing
  {
    var s' := Next(s, Attach(c, l));
    assert c in s'.lives[l].connections;
    if Registered(s, l) && !s.lives[l].disposing {
      var id := s.lives[l].id;
      forall d, i | d in s'.connections
        ensures i in s'.connections[d].sessionIds
                <==> i in s'.liveSessions && s'.liveSessions[i] < |s'.lives| && d in s'.lives[s'.liveSessions[i]].connections
      {
        assert i in s.liveSessions && s.liveSessions[i] == l ==> i == id;
      }
    }
  }

  lemma LeaveAgrees(s: State, c: ConnectionId, ids: set<SessionId>, ready: bool)
    requires Inv(s) && Attachments(s) && c in s.connections && ids <= s.connections[c].sessionIds
    ensures Attachments(s.(lives := Leave(s, c, ids),
                           connections := s.connections[c := Connection(ready, s.connections[c].sessionIds - ids)]))
  {
    var s' := s.(lives := Leave(s, c, ids),
                 connections := s.connections[c := Connection(ready, s.connections[c].sessionIds - ids)]);
    forall l | 0 <= l < |s'.lives|
      ensures s'.lives[l].connections <= s.lives[l].connections
      ensures Registered(s', l) <==> Registered(s, l)
    {
    }
  }

  /** Outside close every action keeps attachments agreed, attaching under the condition above. */
  lemma AttachmentsKept(s: State, a: Action)
    requires Inv(s) && Attachments(s) && Enabled(s, a) && !Next(s, a).closing
    requires a.Attach? ==> Registered(s, a.live) && !s.lives[a.live].disposing
    ensures Attachments(Next(s, a))
  {
    if a.Attach? {
      AttachAgreesIff(s, a.connection, a.live);
    } else if a.Detach? {
      LeaveAgrees(s, a.connection, {a.id}, s.connections[a.connection].ready);
    } else if a.Disconnect? {
      var ids := s.connections[a.connection].sessionIds;
      LeaveAgrees(s, a.connection, ids, false);
      assert ids - ids == {};
    } else if a.SnapshotTaken? {
      RegisterAgrees(s, a.create, a.terminal);
    } else if a.DisposalSettles? {
      UnregisterAgrees(s, a.live);
    } else {
      OtherActionsAttachNothing(s, a);
      SameAttachments(s, Next(s, a));
    }
  }

  ghost predicate AttachesNothing(s: State, s': State) {
    && s'.liveSessions == s.liveSessions && |s'.lives| == |s.lives|
    && (forall l :: 0 <= l < |s.lives| ==>
          && s'.lives[l].id == s.lives[l].id && s'.lives[l].connections == s.lives[l].connections
          && (s'.lives[l].disposing ==> s.lives[l].disposing || s.lives[l].connections == {}))
    && (forall c :: c in s.connections ==> c in s'.connections && s'.connections[c] == s.connections[c])
    && (forall c :: c in s'.connections && c !in s.connections ==> s'.connections[c].sessionIds == {})
  }

  lemma OtherActionsAttachNothing(s: State, a: Action)
    requires Enabled(s, a) && !Next(s, a).closing
    requires !a.Attach? && !a.Detach? && !a.Disconnect? && !a.SnapshotTaken? && !a.DisposalSettles?
    ensures AttachesNothing(s, Next(s, a))
  {
  }

  lemma SameAttachments(s: State, s': State)
    requires Attachments(s) && AttachesNothing(s, s')
    ensures Attachments(s')
  {
    forall l | 0 <= l < |s'.lives| ensures Registered(s', l) <==> Registered(s, l) {}
    forall c, id | c in s'.connections
      ensures id in s'.connections[c].sessionIds
              <==> id in s'.liveSessions && s'.liveSessions[id] < |s'.lives| && c in s'.lives[s'.liveSessions[id]].connections
    {
      if c !in s.connections && id in s.liveSessions && s.liveSessions[id] < |s.lives| {
        assert c !in s.lives[s.liveSessions[id]].connections;
      }
    }
  }

  lemma RegisterAgrees(s: State, k: nat, terminal: bool)
    requires Inv(s) && Attachments(s) && Enabled(s, SnapshotTaken(k, terminal))
    ensures Attachments(Next(s, SnapshotTaken(k, terminal)))
  {
    var s' := Next(s, SnapshotTaken(k, terminal));
    var id := s.creates[k].id;
    assert CreateOk(s, k);
    forall l | 0 <= l < |s.lives| ensures Registered(s', l) <==> Registered(s, l) {}
    forall c, i | c in s'.connections
      ensures i in s'.connections[c].sessionIds
              <==> i in s'.liveSessions && s'.liveSessions[i] < |s'.lives| && c in s'.lives[s'.liveSessions[i]].connections
    {
      if i != id && i in s.liveSessions { assert s.liveSessions[i] < |s.lives|; }
    }
  }

  lemma UnregisterAgrees(s: State, l: nat)
    requires Inv(s) && Attachments(s) && Enabled(s, DisposalSettles(l))
    ensures Attachments(Next(s, DisposalSettles(l)))
  {
    var s' := Next(s, DisposalSettles(l));
    forall i | 0 <= i < |s.lives| && i != l ensures Registered(s', i) <==> Registered(s, i) {
      if Registered(s, i) && Registered(s, l) { assert s.lives[i].id != s.lives[l].id; }
    }
  }

  /** A run in which every attach happens while its session is registered and not being disposed. */
  ghost predicate PromptRun(s: State, run: seq<Action>)
    decreases |run|
  {
    run == []
    || (&& Enabled(s, run[0])
        && (run[0].Attach? ==> Registered(s, run[0].live) && !s.lives[run[0].live].disposing)
        && PromptRun(Next(s, run[0]), run[1..]))
  }

  lemma {:induction false} PromptIsRun(s: State, run: seq<Action>)
    requires PromptRun(s, run)
    ensures IsRun(s, run)
    decreases |run|
  {
    if run != [] { PromptIsRun(Next(s, run[0]), run[1..]); }
  }

  lemma {:induction false} ClosingStays(s: State, run: seq<Action>)
    requires IsRun(s, run)
    ensures s.closing ==> After(s, run).closing
    decreases |run|
  {
    if run != [] { ClosingStays(Next(s, run[0]), run[1..]); }
  }

  lemma {:induction false} PromptRunKeeps(s: State, run: seq<Action>)
    requires Inv(s) && Attachments(s) && PromptRun(s, run) && IsRun(s, run) && !After(s, run).closing
    ensures Attachments(After(s, run))
    decreases |run|
  {
    if run != [] {
      ClosingStays(Next(s, run[0]), run[1..]);
      NextKeeps(s, run[0]);
      AttachmentsKept(s, run[0]);
      PromptRunKeeps(Next(s, run[0]), run[1..]);
    }
  }

  /** In every non-closing state reached by prompt attaches, connections and registered sessions list each
      other, and a session being disposed has no connections. */
  lemma AttachmentSafety(run: seq<Action>)
    requires PromptRun(INITIAL, run) && IsRun(INITIAL, run) && !After(INITIAL, run).closing
    ensures Attachments(After(INITIAL, run))
  {
    PromptRunKeeps(INITIAL, run);
  }

  ghost predicate Reachable(s: State) {
    exists run :: IsRun(INITIAL, run) && After(INITIAL, run) == s
  }

  lemma {:induction false} RunAppend(s: State, run: seq<Action>, a: Action)
    requires IsRun(s, run) && Enabled(After(s, run), a)
    ensures IsRun(s, run + [a]) && After(s, run + [a]) == Next(After(s, run), a)
    decreases |run|
  {
    if run == [] {
      assert [a][1..] == [];
    } else {
      RunAppend(Next(s, run[0]), run[1..], a);
      assert (run + [a])[1..] == run[1..] + [a];
    }
  }

  lemma ReachNext(s: State, a: Action) returns (s': State)
    requires Reachable(s) && Enabled(s, a)
    ensures s' == Next(s, a) && Reachable(s')
  {
    s' := Next(s, a);
    var run :| IsRun(INITIAL, run) && After(INITIAL, run) == s;
    RunAppend(INITIAL, run, a);
  }

  /** Without that condition the agreement fails: a session that becomes idle between becoming available and
      being attached is disposed with a connection on it. */
  lemma LateAttachDisagrees()
    ensures exists s :: Reachable(s) && !s.closing && |s.lives| == 1
                        && s.lives[0].disposing && s.lives[0].connections == {7}
  {
    assert IsRun(INITIAL, []) && After(INITIAL, []) == INITIAL;
    var s1 := ReachNext(INITIAL, ConnectionReady(7));
    var s2 := ReachNext(s1, StartCreate("s"));
    var s3 := ReachNext(s2, RuntimeArrives(0));
    var s4 := ReachNext(s3, SnapshotTaken(0, false));
    var s5 := ReachNext(s4, MaybeDispose(0, true));
    var s6 := ReachNext(s5, Attach(7, 0));
    assert s6.lives[0].connections == {7};
  }

  // ---------------------------------------------------------------------------------------------
  // The imperative manager
  // ---------------------------------------------------------------------------------------------

  /** What the loop of `acquire` does before it first waits. */
  datatype Acquisition =
    | Locked
    | AwaitDisposal(live: nat)
    | Existing(live: nat)
    | Joined(create: nat)
    | Started(create: nat)

  datatype Refusal = NotAttached | NotLive

  lemma LeaveOne(s: State, c: ConnectionId, id: SessionId)
    requires MapsOk(s)
    ensures Leave(s, c, {id})
            == if id !in s.liveSessions then s.lives
               else s.lives[s.liveSessions[id] :=
                      s.lives[s.liveSessions[id]].(connections := s.lives[s.liveSessions[id]].connections - {c})]
  {
  }

  lemma LeaveMore(s: State, c: ConnectionId, ids: set<SessionId>, id: SessionId)
    requires id !in ids
    ensures Leave(s.(lives := Leave(s, c, ids)), c, {id}) == Leave(s, c, ids + {id})
    ensures MapsOk(s) ==> MapsOk(s.(lives := Leave(s, c, ids)))
  {
  }

  lemma LeaveNone(s: State, c: ConnectionId)
    ensures Leave(s, c, {}) == s.lives
  {
  }

  lemma CollectMore(s: State, ids: set<SessionId>, id: SessionId)
    requires Inv(s) && id !in ids && id in s.liveSessions
    ensures var live := s.lives[s.liveSessions[id]];
            && live.runtime < |s.runtimes|
            && Collected(s, ids + {id})
               == if live.disposing then Collected(s, ids)
                  else Collected(s, ids)[live.runtime := Dispose(Collected(s, ids)[live.runtime])]
  {
    var live := s.lives[s.liveSessions[id]];
    assert LiveOk(s, s.liveSessions[id]);
    forall i | i in ids && i in s.liveSessions && s.liveSessions[i] < |s.lives|
      ensures s.lives[s.liveSessions[i]].runtime != live.runtime
    {
      assert s.lives[s.liveSessions[i]].id == i;
    }
    assert live.runtime !in Victims(s, ids);
    assert Victims(s, ids + {id}) == if live.disposing then Victims(s, ids) else Victims(s, ids) + {live.runtime} by {
      if !live.disposing { assert id in ids + {id}; }
    }
  }

  class LiveSessionManager {
    var liveSessions: map<SessionId, nat>
    var openingSessions: map<SessionId, nat>
    var creates: seq<Create>
    var lives: seq<LiveSession>
    var runtimes: seq<Runtime>
    var connections: map<ConnectionId, Connection>
    var closing: bool
    var closers: seq<set<nat>>

    ghost function View(): State
      reads this
    {
      State(liveSessions, openingSessions, creates, lives, runtimes, connections, closing, closers)
    }

    ghost predicate Valid()
      reads this
    {
      Inv(View())
    }

    constructor ()
      ensures Valid() && View() == INITIAL
    {
      liveSessions, openingSessions, creates, lives := map[], map[], [], [];
      runtimes, connections, closing, closers := [], map[], false, [];
    }

    /** One turn of `acquire`: an existing session, an opening to join, or a new one. */
    method Acquire(id: SessionId) returns (outcome: Acquisition)
      requires Valid()
      modifies this
      ensures Valid()
      ensures outcome.Started? <==> old(Enabled(View(), StartCreate(id)))
      ensures View() == if outcome.Started? then Next(old(View()), StartCreate(id)) else old(View())
      ensures match outcome
              case Locked => id in liveSessions && lives[liveSessions[id]].terminal
              case AwaitDisposal(l) => Registered(View(), l) && lives[l].id == id && lives[l].disposing
              case Existing(l) =>
                Registered(View(), l) && lives[l].id == id && !lives[l].disposing && !lives[l].terminal
              case Joined(k) => id !in liveSessions && id in openingSessions && openingSessions[id] == k
              case Started(k) => id in openingSessions && openingSessions[id] == k == old(|creates|)
    {
      if id in liveSessions {
        var existing := liveSessions[id];
        if lives[existing].terminal {
          return Locked;
        }
        if lives[existing].disposing {
          return AwaitDisposal(existing);
        }
        return Existing(existing);
      }
      if id in openingSessions {
        return Joined(openingSessions[id]);
      }
      ghost var before := View();
      outcome := Started(|creates|);
      openingSessions := openingSessions[id := |creates|];
      creates := creates + [Create(id, Acquiring)];
      NextKeeps(before, StartCreate(id));
    }

    /** `create` continues with its runtime: gives it up at once when the server is closing. */
    method ResumeWithRuntime(k: nat)
      requires Valid() && Enabled(View(), RuntimeArrives(k))
      modifies this
      ensures Valid() && View() == Next(old(View()), RuntimeArrives(k))
    {
      ghost var before := View();
      var r := |runtimes|;
      runtimes := runtimes + [Runtime(creates[k].id, Held, 0)];
      if closing {
        runtimes := runtimes[r := Dispose(runtimes[r])];
        creates := creates[k := creates[k].(stage := Discarding(r))];
      } else {
        creates := creates[k := creates[k].(stage := Snapshotting(r))];
      }
      NextKeeps(before, RuntimeArrives(k));
    }

    /** `create` continues with the runtime's snapshot: registers the session, or gives the runtime up when
        the snapshot failed or names another session. */
    method ResumeWithSnapshot(k: nat, snapshotId: Option<SessionId>, terminal: bool)
      requires Valid() && Enabled(View(), SnapshotTaken(k, terminal)) && Enabled(View(), SnapshotRejected(k))
      modifies this
      ensures Valid()
      ensures View() == if snapshotId == Some(old(creates[k].id)) then Next(old(View()), SnapshotTaken(k, terminal))
                        else Next(old(View()), SnapshotRejected(k))
    {
      ghost var before := View();
      var id, r := creates[k].id, creates[k].stage.runtime;
      if snapshotId == Some(id) {
        var live := LiveSession(id, r, {}, 0, terminal, false);
        creates := creates[k := creates[k].(stage := Settled(Some(|lives|)))];
        liveSessions := liveSessions[id := |lives|];
        lives := lives + [live];
        NextKeeps(before, SnapshotTaken(k, terminal));
      } else {
        runtimes := runtimes[r := Dispose(runtimes[r])];
        creates := creates[k := creates[k].(stage := Discarding(r))];
        NextKeeps(before, SnapshotRejected(k));
      }
    }

    /** Starts disposing an idle session nobody uses. */
    method TryDispose(l: nat, idle: bool)
      requires Valid() && l < |lives|
      modifies this
      ensures Valid()
      ensures View() == if old(MayDispose(View(), l, idle)) && old(Enabled(View(), MaybeDispose(l, idle)))
                        then Next(old(View()), MaybeDispose(l, idle)) else old(View())
    {
      ghost var before := View();
      var live := lives[l];
      if closing || live.disposing || live.connections != {} || live.operationCount > 0 || (!live.terminal && !idle) {
        return;
      }
      assert LiveOk(before, l);
      runtimes := runtimes[live.runtime := Dispose(runtimes[live.runtime])];
      lives := lives[l := live.(disposing := true)];
      NextKeeps(before, MaybeDispose(l, idle));
    }

    /** Disposal has settled, successfully or not: the session is unregistered if it still is the registered one. */
    method FinishDisposal(l: nat)
      requires Valid() && Enabled(View(), DisposalSettles(l))
      modifies this
      ensures Valid() && View() == Next(old(View()), DisposalSettles(l))
    {
      ghost var before := View();
      var live := lives[l];
      runtimes := runtimes[live.runtime := runtimes[live.runtime].(status := Disposed)];
      if live.id in liveSessions && liveSessions[live.id] == l {
        liveSessions := liveSessions - {live.id};
      }
      NextKeeps(before, DisposalSettles(l));
    }

    /** Attaches a connection, or, when it has gone meanwhile, only offers the session for disposal. */
    method AttachConnection(c: ConnectionId, l: nat, idle: bool) returns (attached: bool)
      requires Valid() && c in connections && l < |lives|
      modifies this
      ensures Valid() && attached == old(connections[c].ready)
      ensures attached ==> View() == Next(old(View()), Attach(c, l))
      ensures !attached ==>
                View() == if old(MayDispose(View(), l, idle)) && old(Enabled(View(), MaybeDispose(l, idle)))
                          then Next(old(View()), MaybeDispose(l, idle)) else old(View())
    {
      ghost var before := View();
      attached := connections[c].ready;
      if !attached {
        TryDispose(l, idle);
        return;
      }
      connections := connections[c := connections[c].(sessionIds := connections[c].sessionIds + {lives[l].id})];
      lives := lives[l := lives[l].(connections := lives[l].connections + {c})];
      NextKeeps(before, Attach(c, l));
    }

    /** `detach` before it broadcasts or disposes. */
    method DetachConnection(c: ConnectionId, id: SessionId)
      requires Valid() && Enabled(View(), Detach(c, id))
      modifies this
      ensures Valid() && View() == Next(old(View()), Detach(c, id))
    {
      ghost var before := View();
      LeaveOne(before, c, id);
      connections := connections[c := connections[c].(sessionIds := connections[c].sessionIds - {id})];
      if id in liveSessions {
        var l := liveSessions[id];
        lives := lives[l := lives[l].(connections := lives[l].connections - {c})];
      }
      NextKeeps(before, Detach(c, id));
    }

    /** Takes a lost connection out of every session it was attached to. */
    method DropConnection(c: ConnectionId)
      requires Valid() && c in connections
      modifies this
      ensures Valid() && View() == Next(old(View()), Action.Disconnect(c))
    {
      ghost var before := View();
      var ids := connections[c].sessionIds;
      connections := connections[c := Connection(false, {})];
      LeaveNone(before, c);
      var pending := ids;
      assert ids - ids == {};
      while pending != {}
        invariant pending <= ids && liveSessions == before.liveSessions && lives == Leave(before, c, ids - pending)
        invariant View() == before.(connections := connections, lives := lives)
        invariant connections == before.connections[c := Connection(false, {})]
        decreases pending
      {
        var id :| id in pending;
        LeaveMore(before, c, ids - pending, id);
        LeaveOne(before.(lives := lives), c, id);
        assert ids - pending + {id} == ids - (pending - {id});
        if id in liveSessions {
          var l := liveSessions[id];
          lives := lives[l := lives[l].(connections := lives[l].connections - {c})];
        }
        pending := pending - {id};
      }
      assert ids - {} == ids;
      NextKeeps(before, Action.Disconnect(c));
    }

    /** `requireAttached`, then the start of the operation in the same segment. */
    method BeginOperation(c: ConnectionId, id: SessionId) returns (r: Result<nat, Refusal>)
      requires Valid() && c in connections
      modifies this
      ensures Valid()
      ensures r.Ok? <==> old(Enabled(View(), StartOperation(c, id)))
      ensures View() == if r.Ok? then Next(old(View()), StartOperation(c, id)) else old(View())
      ensures r.Ok? ==> && Registered(View(), r.value) && lives[r.value].id == id
                        && lives[r.value].runtime < |runtimes| && runtimes[lives[r.value].runtime].status == Held
      ensures r == Err(NotAttached) <==> id !in connections[c].sessionIds
    {
      ghost var before := View();
      if id !in connections[c].sessionIds {
        return Err(NotAttached);
      }
      if id !in liveSessions || lives[liveSessions[id]].terminal || lives[liveSessions[id]].disposing {
        return Err(NotLive);
      }
      var l := liveSessions[id];
      OperationStartsOnHeldRuntime(before, c, id);
      lives := lives[l := lives[l].(operationCount := lives[l].operationCount + 1)];
      NextKeeps(before, StartOperation(c, id));
      r := Ok(l);
    }

    /** The `finally` of an operation: counts it out, then offers the session for disposal. */
    method FinishOperation(l: nat, idle: bool)
      requires Valid() && Enabled(View(), EndOperation(l))
      modifies this
      ensures Valid()
      ensures var s := Next(old(View()), EndOperation(l));
              View() == if l < |s.lives| && MayDispose(s, l, idle) && Enabled(s, MaybeDispose(l, idle))
                        then Next(s, MaybeDispose(l, idle)) else s
    {
      ghost var before := View();
      lives := lives[l := lives[l].(operationCount := lives[l].operationCount - 1)];
      NextKeeps(before, EndOperation(l));
      TryDispose(l, idle);
    }

    /** `close` disposes the runtime of one session unless its disposal has begun. */
    method CollectOne(ghost before: State, ghost visited: set<SessionId>, id: SessionId)
      requires Inv(before) && id !in visited && id in before.liveSessions
      requires View() == before.(runtimes := Collected(before, visited))
      modifies this`runtimes
      ensures View() == before.(runtimes := Collected(before, visited + {id}))
    {
      CollectMore(before, visited, id);
      var live := lives[liveSessions[id]];
      if !live.disposing {
        runtimes := runtimes[live.runtime := Dispose(runtimes[live.runtime])];
      }
    }

    /** `close` after the openings it waited for have settled. */
    method Collect(j: nat)
      requires Valid() && Enabled(View(), CloseCollects(j))
      modifies this
      ensures Valid() && View() == Next(old(View()), CloseCollects(j))
    {
      ghost var before := View();
      var pending := liveSessions.Keys;
      assert liveSessions.Keys - liveSessions.Keys == {};
      assert Collected(before, {}) == before.runtimes;
      while pending != {}
        invariant pending <= before.liveSessions.Keys
        invariant View() == before.(runtimes := Collected(before, before.liveSessions.Keys - pending))
        decreases pending
      {
        var id :| id in pending;
        ghost var visited := before.liveSessions.Keys - pending;
        CollectOne(before, visited, id);
        assert visited + {id} == before.liveSessions.Keys - (pending - {id});
        pending := pending - {id};
      }
      assert before.liveSessions.Keys - {} == before.liveSessions.Keys;
      liveSessions := map[];
      assert View() == Next(before, CloseCollects(j));
      NextKeeps(before, CloseCollects(j));
    }
  }
}
