/** Publication of refreshed model catalogs: refreshes of one provider run concurrently, and their
    publications are serialized by a promise chain and guarded by generation numbers. Every segment between
    two awaits is one atomic action; runs are arbitrary interleavings of actions. */
module Catalog {

  import opened Wrappers

  type ProviderId = string

  datatype Model = Model(id: string, provider: ProviderId, data: int)
  datatype Entry = Entry(models: seq<Model>, checkedAt: int)

  /** What a publication does to the store, and the dynamic models it installs in memory. */
  datatype Persist = Keep | Remove | Write(entry: Entry)
  datatype Publication = Publication(persist: Persist, update: Option<seq<Model>>)

  /** One provider refresh: its provider object, its generation and its abort signal. */
  datatype Refresh = Refresh(provider: ProviderId, owner: nat, generation: nat, aborted: bool)

  /** A queued publication waits for the chain tail it found, then may be storing, then is finished. */
  datatype Stage = Waiting(previous: Option<nat>) | Storing(effective: bool) | Finished

  datatype Task = Task(provider: ProviderId, refresh: nat, publication: Publication, stage: Stage)

  /** A performed in-memory update, with the newest generation and the stored entry at that moment. */
  datatype Applied = Applied(task: nat, provider: ProviderId, refresh: nat, generation: nat, owner: nat,
                             persist: Persist, newest: nat, held: Option<Entry>, registered: Option<nat>)

  datatype State = State(
    providers: map<ProviderId, nat>,
    generations: map<ProviderId, nat>,
    controllers: map<ProviderId, nat>,
    chains: map<ProviderId, nat>,
    refreshes: seq<Refresh>,
    tasks: seq<Task>,
    store: map<ProviderId, Entry>,
    dynamic: map<nat, seq<Model>>,
    log: seq<Applied>)

  const INITIAL := State(map[], map[], map[], map[], [], [], map[], map[], [])

  datatype Action =
    | SetProvider(id: ProviderId, owner: nat)
    | DeleteProvider(id: ProviderId)
    | ClearProviders
    | BeginRefresh(id: ProviderId)
    | CallerAborts(refresh: nat)
    | EndRefresh(refresh: nat)
    | Publish(refresh: nat, publication: Publication)
    | StartTask(task: nat)
    | StoreTakesEffect(task: nat)
    | StoreFails(task: nat)
    | FinishTask(task: nat)
    | ClearChain(task: nat)

  function Get<K, V>(m: map<K, V>, k: K): Option<V> { if k in m then Some(m[k]) else None }

  function GenerationIn(generations: map<ProviderId, nat>, id: ProviderId): nat {
    if id in generations then generations[id] else 0
  }

  function Generation(s: State, id: ProviderId): nat { GenerationIn(s.generations, id) }

  /** The given providers move to their next generation. */
  function Bump(generations: map<ProviderId, nat>, ids: set<ProviderId>): map<ProviderId, nat> {
    map id | id in generations.Keys + ids ::
      if id in ids then GenerationIn(generations, id) + 1 else generations[id]
  }

  /** The refreshes controlled by the given providers are aborted. */
  function Abort(refreshes: seq<Refresh>, controllers: map<ProviderId, nat>, ids: set<ProviderId>): (r: seq<Refresh>)
    ensures |r| == |refreshes|
  {
    seq(|refreshes|, i requires 0 <= i < |refreshes| =>
      if refreshes[i].provider in ids && Get(controllers, refreshes[i].provider) == Some(i)
      then refreshes[i].(aborted := true) else refreshes[i])
  }

  function Supersede(s: State, ids: set<ProviderId>): State {
    s.(generations := Bump(s.generations, ids),
       controllers := s.controllers - ids,
       refreshes := Abort(s.refreshes, s.controllers, ids))
  }

  /** The guard evaluated before storing and again before updating. */
  predicate Current(s: State, task: nat)
    requires task < |s.tasks| && s.tasks[task].refresh < |s.refreshes|
  {
    var r := s.refreshes[s.tasks[task].refresh];
    !r.aborted && Get(s.generations, s.tasks[task].provider) == Some(r.generation)
  }

  function WithStage(s: State, task: nat, stage: Stage): State
    requires task < |s.tasks|
  {
    s.(tasks := s.tasks[task := s.tasks[task].(stage := stage)])
  }

  /** Runs the in-memory update of a publication. */
  function Apply(s: State, task: nat): State
    requires task < |s.tasks| && s.tasks[task].refresh < |s.refreshes|
  {
    var t := s.tasks[task];
    var r := s.refreshes[t.refresh];
    s.(dynamic := if t.publication.update.Some? then s.dynamic[r.owner := t.publication.update.value] else s.dynamic,
       log := s.log + [Applied(task, t.provider, t.refresh, r.generation, r.owner, t.publication.persist,
                               Generation(s, t.provider), Get(s.store, t.provider), Get(s.providers, t.provider))])
  }

  function Stored(store: map<ProviderId, Entry>, id: ProviderId, persist: Persist): map<ProviderId, Entry> {
    match persist
    case Keep => store
    case Remove => store - {id}
    case Write(entry) => store[id := entry]
  }

  predicate Enabled(s: State, a: Action) {
    match a
    case BeginRefresh(id) => id in s.providers
    case CallerAborts(r) => r < |s.refreshes|
    case EndRefresh(r) => r < |s.refreshes|
    case Publish(r, _) => r < |s.refreshes|
    case StartTask(t) =>
      && t < |s.tasks| && s.tasks[t].stage.Waiting? && s.tasks[t].refresh < |s.refreshes|
      && (var previous := s.tasks[t].stage.previous;
          previous.Some? ==> previous.value < |s.tasks| && s.tasks[previous.value].stage.Finished?)
    case StoreTakesEffect(t) => t < |s.tasks| && s.tasks[t].stage == Storing(false)
    case StoreFails(t) => t < |s.tasks| && s.tasks[t].stage.Storing?
    case FinishTask(t) => t < |s.tasks| && s.tasks[t].stage == Storing(true) && s.tasks[t].refresh < |s.refreshes|
    case ClearChain(t) => t < |s.tasks| && s.tasks[t].stage.Finished? && Get(s.chains, s.tasks[t].provider) == Some(t)
    case _ => true
  }

  function Next(s: State, a: Action): State
    requires Enabled(s, a)
  {
    match a
    case SetProvider(id, owner) =>
      var s1 := Supersede(s, {id});
      s1.(providers := s1.providers[id := owner])
    case DeleteProvider(id) =>
      var s1 := Supersede(s, {id});
      s1.(providers := s1.providers - {id})
    case ClearProviders =>
      var s1 := Supersede(s, s.providers.Keys + s.controllers.Keys);
      s1.(providers := map[])
    case BeginRefresh(id) =>
      var s1 := Supersede(s, {id});
      s1.(controllers := s1.controllers[id := |s1.refreshes|],
          refreshes := s1.refreshes + [Refresh(id, s.providers[id], Generation(s1, id), false)])
    case CallerAborts(r) => s.(refreshes := s.refreshes[r := s.refreshes[r].(aborted := true)])
    case EndRefresh(r) =>
      var id := s.refreshes[r].provider;
      if Get(s.controllers, id) == Some(r) then s.(controllers := s.controllers - {id}) else s
    case Publish(r, publication) =>
      var id := s.refreshes[r].provider;
      s.(tasks := s.tasks + [Task(id, r, publication, Waiting(Get(s.chains, id)))],
         chains := s.chains[id := |s.tasks|])
    case StartTask(t) =>
      if !Current(s, t) then WithStage(s, t, Finished)
      else if s.tasks[t].publication.persist.Keep? then Apply(WithStage(s, t, Finished), t)
      else WithStage(s, t, Storing(false))
    case StoreTakesEffect(t) =>
      WithStage(s, t, Storing(true)).(
        store := Stored(s.store, s.tasks[t].provider, s.tasks[t].publication.persist))
    case StoreFails(t) => WithStage(s, t, Finished)
    case FinishTask(t) =>
      if Current(s, t) then Apply(WithStage(s, t, Finished), t) else WithStage(s, t, Finished)
    case ClearChain(t) => s.(chains := s.chains - {s.tasks[t].provider})
  }

  // ---------------------------------------------------------------------------------------------
  // The promise chain orders publications
  // ---------------------------------------------------------------------------------------------

  /** A publication starts only when all earlier ones of its provider are finished. */
  ghost predicate Serialized(tasks: seq<Task>) {
    forall i, j :: 0 <= i < j < |tasks| && tasks[i].provider == tasks[j].provider && !tasks[j].stage.Waiting?
      ==> tasks[i].stage.Finished?
  }

  ghost predicate Linked(tasks: seq<Task>, j: nat)
    requires j < |tasks| && tasks[j].stage.Waiting?
  {
    match tasks[j].stage.previous
    case None => forall i :: 0 <= i < j && tasks[i].provider == tasks[j].provider ==> tasks[i].stage.Finished?
    case Some(q) =>
      && q < j && tasks[q].provider == tasks[j].provider
      && forall i :: q < i < j ==> tasks[i].provider != tasks[j].provider
  }

  ghost predicate AllLinked(tasks: seq<Task>) {
    forall j :: 0 <= j < |tasks| && tasks[j].stage.Waiting? ==> Linked(tasks, j)
  }

  /** A chain ends in its provider's last publication; a provider without chain has nothing outstanding. */
  ghost predicate Heads(tasks: seq<Task>, chains: map<ProviderId, nat>) {
    && (forall id :: id in chains ==> chains[id] < |tasks| && tasks[chains[id]].provider == id
                                      && forall i :: chains[id] < i < |tasks| ==> tasks[i].provider != id)
    && (forall i :: 0 <= i < |tasks| && tasks[i].provider !in chains ==> tasks[i].stage.Finished?)
  }

  ghost predicate ChainInv(tasks: seq<Task>, chains: map<ProviderId, nat>) {
    Serialized(tasks) && AllLinked(tasks) && Heads(tasks, chains)
  }

  lemma ChainPublish(tasks: seq<Task>, chains: map<ProviderId, nat>, id: ProviderId, r: nat, p: Publication)
    requires ChainInv(tasks, chains)
    ensures ChainInv(tasks + [Task(id, r, p, Waiting(Get(chains, id)))], chains[id := |tasks|])
  {
    var tasks' := tasks + [Task(id, r, p, Waiting(Get(chains, id)))];
    forall j | 0 <= j < |tasks'| && tasks'[j].stage.Waiting?
      ensures Linked(tasks', j)
    {
      if j < |tasks| { assert Linked(tasks, j); }
    }
  }

  /** A task that may start has no unfinished predecessor. */
  lemma StartableIsAlone(tasks: seq<Task>, t: nat)
    requires Serialized(tasks) && AllLinked(tasks) && t < |tasks| && tasks[t].stage.Waiting?
    requires tasks[t].stage.previous.Some? ==>
               tasks[t].stage.previous.value < |tasks| && tasks[tasks[t].stage.previous.value].stage.Finished?
    ensures forall i :: 0 <= i < t && tasks[i].provider == tasks[t].provider ==> tasks[i].stage.Finished?
  {
    assert Linked(tasks, t);
  }

  lemma ChainProgress(tasks: seq<Task>, chains: map<ProviderId, nat>, t: nat, stage: Stage)
    requires ChainInv(tasks, chains) && t < |tasks| && !stage.Waiting?
    requires !tasks[t].stage.Finished?
    requires forall i :: 0 <= i < t && tasks[i].provider == tasks[t].provider ==> tasks[i].stage.Finished?
    ensures ChainInv(tasks[t := tasks[t].(stage := stage)], chains)
  {
    ProgressSerialized(tasks, t, stage);
    var tasks' := tasks[t := tasks[t].(stage := stage)];
    assert Heads(tasks', chains);
    forall j | 0 <= j < |tasks'| && tasks'[j].stage.Waiting?
      ensures Linked(tasks', j)
    {
      assert Linked(tasks, j);
    }
  }

  lemma ProgressSerialized(tasks: seq<Task>, t: nat, stage: Stage)
    requires Serialized(tasks) && t < |tasks| && !tasks[t].stage.Finished?
    requires forall i :: 0 <= i < t && tasks[i].provider == tasks[t].provider ==> tasks[i].stage.Finished?
    ensures Serialized(tasks[t := tasks[t].(stage := stage)])
  {
  }

  lemma ChainClear(tasks: seq<Task>, chains: map<ProviderId, nat>, t: nat)
    requires ChainInv(tasks, chains) && t < |tasks| && tasks[t].stage.Finished?
    requires Get(chains, tasks[t].provider) == Some(t)
    ensures ChainInv(tasks, chains - {tasks[t].provider})
  {
  }

  // ---------------------------------------------------------------------------------------------
  // Generations
  // ---------------------------------------------------------------------------------------------

  /** Refreshes are never ahead of their provider's generation, and the newest one belongs to the provider
      object registered now. */
  ghost predicate RefreshInv(s: State, i: nat)
    requires i < |s.refreshes|
  {
    var r := s.refreshes[i];
    && r.provider in s.generations && r.generation <= s.generations[r.provider]
    && (r.generation == s.generations[r.provider] ==> Get(s.providers, r.provider) == Some(r.owner))
  }

  ghost predicate TaskInv(s: State, i: nat)
    requires i < |s.tasks|
  {
    var t := s.tasks[i];
    && t.refresh < |s.refreshes| && s.refreshes[t.refresh].provider == t.provider
    && (t.stage.Storing? ==> !t.publication.persist.Keep?)
    && (t.stage == Storing(true) ==> HoldsPersisted(Get(s.store, t.provider), t.publication.persist))
  }

  ghost predicate HoldsPersisted(held: Option<Entry>, persist: Persist) {
    match persist
    case Keep => true
    case Remove => held.None?
    case Write(entry) => held == Some(entry)
  }

  /** What was true when an update ran. */
  ghost predicate AppliedInv(s: State, i: nat)
    requires i < |s.log|
  {
    var e := s.log[i];
    && e.generation == e.newest <= Generation(s, e.provider)
    && HoldsPersisted(e.held, e.persist)
    && e.registered == Some(e.owner)
    && forall j :: 0 <= j < i && s.log[j].provider == e.provider ==> s.log[j].generation <= e.generation
  }

  /** A controller belongs to a refresh of its provider. */
  ghost predicate ControllersOk(controllers: map<ProviderId, nat>, refreshes: seq<Refresh>) {
    forall id :: id in controllers ==> controllers[id] < |refreshes| && refreshes[controllers[id]].provider == id
  }

  ghost predicate Inv(s: State) {
    && ChainInv(s.tasks, s.chains)
    && (forall i :: 0 <= i < |s.refreshes| ==> RefreshInv(s, i))
    && (forall i :: 0 <= i < |s.tasks| ==> TaskInv(s, i))
    && (forall i :: 0 <= i < |s.log| ==> AppliedInv(s, i))
    && ControllersOk(s.controllers, s.refreshes)
  }

  /** Superseding keeps every invariant except that registrations may now change. */
  lemma SupersedeKeeps(s: State, ids: set<ProviderId>, providers: map<ProviderId, nat>)
    requires Inv(s)
    requires forall id :: id !in ids ==> Get(providers, id) == Get(s.providers, id)
    ensures Inv(Supersede(s, ids).(providers := providers))
    ensures forall id :: Generation(s, id) <= Generation(Supersede(s, ids), id)
    ensures forall id :: id in ids ==> Generation(Supersede(s, ids), id) == Generation(s, id) + 1
  {
    var s' := Supersede(s, ids).(providers := providers);
    forall i | 0 <= i < |s'.refreshes|
      ensures RefreshInv(s', i)
    {
      assert RefreshInv(s, i);
    }
    forall i | 0 <= i < |s'.tasks|
      ensures TaskInv(s', i)
    {
      assert TaskInv(s, i);
    }
    forall i | 0 <= i < |s'.log|
      ensures AppliedInv(s', i)
    {
      assert AppliedInv(s, i);
    }
  }

  /** Tasks change stage without touching anything the generations depend on. */
  lemma StageKeeps(s: State, t: nat, stage: Stage, store: map<ProviderId, Entry>)
    requires Inv(s) && t < |s.tasks| && !s.tasks[t].stage.Finished? && !stage.Waiting?
    requires forall i :: 0 <= i < t && s.tasks[i].provider == s.tasks[t].provider ==> s.tasks[i].stage.Finished?
    requires stage.Storing? ==> !s.tasks[t].publication.persist.Keep?
    requires stage == Storing(true) ==> HoldsPersisted(Get(store, s.tasks[t].provider), s.tasks[t].publication.persist)
    requires forall id :: id != s.tasks[t].provider ==> Get(store, id) == Get(s.store, id)
    requires stage != Storing(true) ==> store == s.store
    ensures Inv(WithStage(s, t, stage).(store := store))
  {
    var s' := WithStage(s, t, stage).(store := store);
    ChainProgress(s.tasks, s.chains, t, stage);
    forall i | 0 <= i < |s'.tasks|
      ensures TaskInv(s', i)
    {
      assert TaskInv(s, i);
      // No other publication of this provider can be storing: it would come after an unfinished one.
      assert i != t && s.tasks[i].provider == s.tasks[t].provider ==> !s.tasks[i].stage.Storing?;
    }
    forall i | 0 <= i < |s'.refreshes| ensures RefreshInv(s', i) { assert RefreshInv(s, i); }
    forall i | 0 <= i < |s'.log| ensures AppliedInv(s', i) { assert AppliedInv(s, i); }
  }

  /** An update by a current task extends the log consistently. */
  lemma ApplyKeeps(s: State, t: nat)
    requires Inv(s) && t < |s.tasks| && s.tasks[t].refresh < |s.refreshes| && Current(s, t)
    requires HoldsPersisted(Get(s.store, s.tasks[t].provider), s.tasks[t].publication.persist)
    ensures Inv(Apply(s, t))
  {
    var s' := Apply(s, t);
    assert TaskInv(s, t);
    assert RefreshInv(s, s.tasks[t].refresh);
    forall i | 0 <= i < |s'.log|
      ensures AppliedInv(s', i)
    {
      if i < |s.log| {
        assert AppliedInv(s, i);
      } else {
        forall j | 0 <= j < i && s'.log[j].provider == s'.log[i].provider
          ensures s'.log[j].generation <= s'.log[i].generation
        {
          assert AppliedInv(s, j);
        }
      }
    }
    forall i | 0 <= i < |s'.tasks| ensures TaskInv(s', i) { assert TaskInv(s, i); }
    forall i | 0 <= i < |s'.refreshes| ensures RefreshInv(s', i) { assert RefreshInv(s, i); }
  }

  /** Generations never go backwards. */
  lemma GenerationsGrow(s: State, a: Action, id: ProviderId)
    requires Enabled(s, a)
    ensures Generation(s, id) <= Generation(Next(s, a), id)
  {
    GenerationStep(s, a, id);
  }

  /** Every action keeps the invariant. */
  lemma NextKeeps(s: State, a: Action)
    requires Inv(s) && Enabled(s, a)
    ensures Inv(Next(s, a))
  {
    match a
    case SetProvider(id, owner) => SupersedeKeeps(s, {id}, s.providers[id := owner]);
    case DeleteProvider(id) => SupersedeKeeps(s, {id}, s.providers - {id});
    case ClearProviders => SupersedeKeeps(s, s.providers.Keys + s.controllers.Keys, map[]);
    case BeginRefresh(id) => BeginKeeps(s, id);
    case CallerAborts(r) => AbortKeeps(s, r);
    case EndRefresh(r) => EndKeeps(s, r);
    case Publish(r, publication) => PublishKeeps(s, r, publication);
    case StartTask(t) => StartKeeps(s, t);
    case StoreTakesEffect(t) => EffectKeeps(s, t);
    case StoreFails(t) => StageKeeps(s, t, Finished, s.store);
    case FinishTask(t) => FinishKeeps(s, t);
    case ClearChain(t) => ClearKeeps(s, t);
  }

  lemma StartKeeps(s: State, t: nat)
    requires Inv(s) && Enabled(s, StartTask(t))
    ensures Inv(Next(s, StartTask(t)))
  {
    StartableIsAlone(s.tasks, t);
    var keep := s.tasks[t].publication.persist.Keep?;
    StageKeeps(s, t, if Current(s, t) && !keep then Storing(false) else Finished, s.store);
    if Current(s, t) && keep {
      ApplyKeeps(WithStage(s, t, Finished), t);
    }
  }

  lemma EffectKeeps(s: State, t: nat)
    requires Inv(s) && Enabled(s, StoreTakesEffect(t))
    ensures Inv(Next(s, StoreTakesEffect(t)))
  {
    assert TaskInv(s, t);
    StageKeeps(s, t, Storing(true), Stored(s.store, s.tasks[t].provider, s.tasks[t].publication.persist));
  }

  lemma FinishKeeps(s: State, t: nat)
    requires Inv(s) && Enabled(s, FinishTask(t))
    ensures Inv(Next(s, FinishTask(t)))
  {
    assert TaskInv(s, t);
    StageKeeps(s, t, Finished, s.store);
    if Current(s, t) {
      ApplyKeeps(WithStage(s, t, Finished), t);
    }
  }

  lemma BeginKeeps(s: State, id: ProviderId)
    requires Inv(s) && id in s.providers
    ensures Inv(Next(s, BeginRefresh(id)))
  {
    SupersedeKeeps(s, {id}, s.providers);
    var s1, s' := Supersede(s, {id}), Next(s, BeginRefresh(id));
    assert s1.(providers := s.providers) == s1;
    forall i | 0 <= i < |s'.refreshes| ensures RefreshInv(s', i) { if i < |s1.refreshes| { assert RefreshInv(s1, i); } }
    forall i | 0 <= i < |s'.tasks| ensures TaskInv(s', i) { assert TaskInv(s1, i); }
    forall i | 0 <= i < |s'.log| ensures AppliedInv(s', i) { assert AppliedInv(s1, i); }
  }

  lemma AbortKeeps(s: State, r: nat)
    requires Inv(s) && r < |s.refreshes|
    ensures Inv(Next(s, CallerAborts(r)))
  {
    var s' := Next(s, CallerAborts(r));
    forall i | 0 <= i < |s'.refreshes| ensures RefreshInv(s', i) { assert RefreshInv(s, i); }
    forall i | 0 <= i < |s'.tasks| ensures TaskInv(s', i) { assert TaskInv(s, i); }
    forall i | 0 <= i < |s'.log| ensures AppliedInv(s', i) { assert AppliedInv(s, i); }
  }

  lemma EndKeeps(s: State, r: nat)
    requires Inv(s) && r < |s.refreshes|
    ensures Inv(Next(s, EndRefresh(r)))
  {
    var s' := Next(s, EndRefresh(r));
    forall i | 0 <= i < |s'.refreshes| ensures RefreshInv(s', i) { assert RefreshInv(s, i); }
    forall i | 0 <= i < |s'.tasks| ensures TaskInv(s', i) { assert TaskInv(s, i); }
    forall i | 0 <= i < |s'.log| ensures AppliedInv(s', i) { assert AppliedInv(s, i); }
  }

  lemma PublishKeeps(s: State, r: nat, p: Publication)
    requires Inv(s) && r < |s.refreshes|
    ensures Inv(Next(s, Publish(r, p)))
  {
    var s' := Next(s, Publish(r, p));
    ChainPublish(s.tasks, s.chains, s.refreshes[r].provider, r, p);
    forall i | 0 <= i < |s'.refreshes| ensures RefreshInv(s', i) { assert RefreshInv(s, i); }
    forall i | 0 <= i < |s'.tasks| ensures TaskInv(s', i) { if i < |s.tasks| { assert TaskInv(s, i); } }
    forall i | 0 <= i < |s'.log| ensures AppliedInv(s', i) { assert AppliedInv(s, i); }
  }

  lemma ClearKeeps(s: State, t: nat)
    requires Inv(s) && Enabled(s, ClearChain(t))
    ensures Inv(Next(s, ClearChain(t)))
  {
    var s' := Next(s, ClearChain(t));
    ChainClear(s.tasks, s.chains, t);
    forall i | 0 <= i < |s'.refreshes| ensures RefreshInv(s', i) { assert RefreshInv(s, i); }
    forall i | 0 <= i < |s'.tasks| ensures TaskInv(s', i) { assert TaskInv(s, i); }
    forall i | 0 <= i < |s'.log| ensures AppliedInv(s', i) { assert AppliedInv(s, i); }
  }

  // ---------------------------------------------------------------------------------------------
  // Runs
  // ---------------------------------------------------------------------------------------------

  /** `run` is a run from `s`: each action is enabled where it happens. */
  ghost predicate IsRun(s: State, run: seq<Action>)
    decreases |run|
  {
    run == [] || (Enabled(s, run[0]) && IsRun(Next(s, run[0]), run[1..]))
  }

  ghost function After(s: State, run: seq<Action>): State
    requires IsRun(s, run)
    decreases |run|
  {
    if run == [] then s else After(Next(s, run[0]), run[1..])
  }

  /** An action updates memory at most once, and only at the generation that is newest then. */
  lemma NextLog(s: State, a: Action)
    requires Enabled(s, a)
    ensures var log := Next(s, a).log;
            || log == s.log
            || (&& |log| == |s.log| + 1 && log[..|s.log|] == s.log
                && log[|s.log|].generation == Generation(s, log[|s.log|].provider))
  {
    MemoryStep(s, a);
    if UpdatePoint(s, a) && Unsuperseded(s, a.task) {
      LogsNewest(s, a);
    }
  }

  lemma LogsNewest(s: State, a: Action)
    requires Enabled(s, a) && UpdatePoint(s, a) && Unsuperseded(s, a.task)
    ensures var log := Next(s, a).log; |log| > |s.log| && log[|s.log|].generation == Generation(s, log[|s.log|].provider)
  {
  }

  lemma {:induction false} RunKeeps(s: State, run: seq<Action>)
    requires Inv(s) && IsRun(s, run)
    ensures Inv(After(s, run))
    decreases |run|
  {
    if run != [] {
      NextKeeps(s, run[0]);
      RunKeeps(Next(s, run[0]), run[1..]);
    }
  }

  /** Updates performed during a run carry generations at least as new as those at its start. */
  lemma {:induction false} RunLog(s: State, run: seq<Action>, i: nat)
    requires IsRun(s, run) && |s.log| <= i < |After(s, run).log|
    ensures After(s, run).log[i].generation >= Generation(s, After(s, run).log[i].provider)
    decreases |run|
  {
    if run != [] {
      var s1 := Next(s, run[0]);
      var applied := After(s1, run[1..]).log[i];
      GenerationsGrow(s, run[0], applied.provider);
      if i < |s1.log| {
        LogGrows(s1, run[1..]);
        FirstUpdate(s, run[0], i);
      } else {
        RunLog(s1, run[1..], i);
      }
    }
  }

  lemma FirstUpdate(s: State, a: Action, i: nat)
    requires Enabled(s, a) && |s.log| <= i < |Next(s, a).log|
    ensures var applied := Next(s, a).log[i]; applied.generation == Generation(s, applied.provider)
  {
    NextLog(s, a);
  }

  lemma {:induction false} LogGrows(s: State, run: seq<Action>)
    requires IsRun(s, run)
    ensures s.log <= After(s, run).log
    decreases |run|
  {
    if run != [] {
      NextLog(s, run[0]);
      LogGrows(Next(s, run[0]), run[1..]);
    }
  }

  /** Over every interleaving: publications of one provider never overlap; an update runs only while its
      generation is the newest, on the provider object registered then, and with the store holding exactly
      what the publication persisted; applied generations never go backwards. */
  lemma PublicationSafety(run: seq<Action>)
    requires IsRun(INITIAL, run)
    ensures var s := After(INITIAL, run);
            && (forall i, j :: 0 <= i < j < |s.tasks| && s.tasks[i].stage.Storing? && s.tasks[j].stage.Storing?
                  ==> s.tasks[i].provider != s.tasks[j].provider)
            && (forall i :: 0 <= i < |s.log| ==>
                  && s.log[i].generation == s.log[i].newest
                  && HoldsPersisted(s.log[i].held, s.log[i].persist)
                  && s.log[i].registered == Some(s.log[i].owner))
            && (forall i, j :: 0 <= i < j < |s.log| && s.log[i].provider == s.log[j].provider
                  ==> s.log[i].generation <= s.log[j].generation)
  {
    RunKeeps(INITIAL, run);
    var s := After(INITIAL, run);
    forall j | 0 <= j < |s.log|
      ensures s.log[j].generation == s.log[j].newest && HoldsPersisted(s.log[j].held, s.log[j].persist)
      ensures s.log[j].registered == Some(s.log[j].owner)
      ensures forall i :: 0 <= i < j && s.log[i].provider == s.log[j].provider
                ==> s.log[i].generation <= s.log[j].generation
    {
      assert AppliedInv(s, j);
    }
  }

  /** Once a refresh is superseded, none of its publications ever updates memory again. */
  lemma SupersededNeverApplies(s: State, run: seq<Action>, refresh: nat)
    requires IsRun(s, run) && refresh < |s.refreshes|
    requires s.refreshes[refresh].generation < Generation(s, s.refreshes[refresh].provider)
    ensures var log := After(s, run).log;
            forall i :: |s.log| <= i < |log| && log[i].provider == s.refreshes[refresh].provider
              ==> log[i].generation > s.refreshes[refresh].generation
  {
    forall i | |s.log| <= i < |After(s, run).log|
      ensures After(s, run).log[i].generation >= Generation(s, After(s, run).log[i].provider)
    {
      RunLog(s, run, i);
    }
  }

  /** Removing all providers supersedes every refresh there is, also one whose controller is gone. */
  lemma ClearSupersedesAll(s: State, refresh: nat)
    requires Inv(s) && refresh < |s.refreshes|
    ensures var s' := Next(s, ClearProviders);
            && |s'.refreshes| == |s.refreshes| && s'.refreshes[refresh].generation == s.refreshes[refresh].generation
            && s'.refreshes[refresh].generation < Generation(s', s'.refreshes[refresh].provider)
  {
    assert RefreshInv(s, refresh);
    SupersedeKeeps(s, s.providers.Keys + s.controllers.Keys, map[]);
  }

  // ---------------------------------------------------------------------------------------------
  // Memory, store and generations over a run
  // ---------------------------------------------------------------------------------------------

  /** The models the logged updates install for a provider object: those of its last publication that has some. */
  ghost function Installed(tasks: seq<Task>, log: seq<Applied>, owner: nat): Option<seq<Model>>
    requires forall i :: 0 <= i < |log| ==> log[i].task < |tasks|
  {
    if log == [] then None
    else
      var last := log[|log| - 1];
      if last.owner == owner && tasks[last.task].publication.update.Some? then tasks[last.task].publication.update
      else Installed(tasks, log[..|log| - 1], owner)
  }

  /** The log names finished publications, each at most once, with their refresh and its provider object. */
  ghost predicate LogOk(s: State, i: nat)
    requires i < |s.log|
  {
    var e := s.log[i];
    && e.task < |s.tasks| && e.refresh < |s.refreshes|
    && s.tasks[e.task].stage.Finished? && s.tasks[e.task].refresh == e.refresh && s.refreshes[e.refresh].owner == e.owner
    && s.tasks[e.task].provider == e.provider && s.tasks[e.task].publication.persist == e.persist
    && forall j :: 0 <= j < i ==> s.log[j].task != e.task
  }

  ghost predicate Logged(s: State) { forall i {:trigger LogOk(s, i)} :: 0 <= i < |s.log| ==> LogOk(s, i) }

  /** What is in memory is exactly what the logged updates install. */
  ghost predicate InMemory(s: State)
    requires Logged(s)
  {
    LogTasks(s);
    forall owner: nat :: Get(s.dynamic, owner) == Installed(s.tasks, s.log, owner)
  }

  lemma LogTasks(s: State)
    requires Logged(s)
    ensures forall i :: 0 <= i < |s.log| ==> s.log[i].task < |s.tasks|
  {
    forall i | 0 <= i < |s.log|
      ensures s.log[i].task < |s.tasks|
    {
      assert LogOk(s, i);
    }
  }

  lemma {:induction false} InstalledSame(tasks: seq<Task>, tasks': seq<Task>, log: seq<Applied>, owner: nat)
    requires |tasks| <= |tasks'| && forall i :: 0 <= i < |log| ==> log[i].task < |tasks|
    requires forall t :: 0 <= t < |tasks| ==> tasks'[t].publication == tasks[t].publication
    ensures Installed(tasks', log, owner) == Installed(tasks, log, owner)
  {
    if log != [] {
      InstalledSame(tasks, tasks', log[..|log| - 1], owner);
    }
  }

  /** The refresh of a publication is not aborted, and no newer generation of its provider has begun. */
  ghost predicate Unsuperseded(s: State, t: nat)
    requires t < |s.tasks| && s.tasks[t].refresh < |s.refreshes|
  {
    var r := s.refreshes[s.tasks[t].refresh];
    !r.aborted && s.tasks[t].provider in s.generations && s.generations[s.tasks[t].provider] == r.generation
  }

  /** The steps at which a publication's update runs: its second check, or its only one when it persists nothing. */
  ghost predicate UpdatePoint(s: State, a: Action) {
    a.FinishTask? || (a.StartTask? && a.task < |s.tasks| && s.tasks[a.task].publication.persist.Keep?)
  }

  /** Memory and log change only at an update point of a publication that is not superseded, and then by exactly its
      update and its entry. */
  lemma MemoryStep(s: State, a: Action)
    requires Enabled(s, a)
    ensures var s' := Next(s, a);
            if UpdatePoint(s, a) && Unsuperseded(s, a.task) then
              && |s'.log| == |s.log| + 1 && s'.log[..|s.log|] == s.log
              && s'.log[|s.log|].task == a.task && s'.log[|s.log|].refresh == s.tasks[a.task].refresh
              && s'.log[|s.log|].owner == s.refreshes[s.tasks[a.task].refresh].owner
              && s'.log[|s.log|].provider == s.tasks[a.task].provider
              && s'.log[|s.log|].persist == s.tasks[a.task].publication.persist
              && s'.dynamic == (match s.tasks[a.task].publication.update
                                case None => s.dynamic
                                case Some(models) => s.dynamic[s.refreshes[s.tasks[a.task].refresh].owner := models])
            else s'.log == s.log && s'.dynamic == s.dynamic
  {
  }

  /** What a step leaves alone: publications only change their stage, and are not finished twice. */
  lemma TasksStay(s: State, a: Action)
    requires Enabled(s, a)
    ensures var s' := Next(s, a);
            && |s.tasks| <= |s'.tasks|
            && (forall t :: 0 <= t < |s.tasks| ==> s'.tasks[t] == s.tasks[t].(stage := s'.tasks[t].stage))
            && (forall t :: 0 <= t < |s.tasks| && s.tasks[t].stage.Finished? ==> s'.tasks[t].stage.Finished?)
            && (UpdatePoint(s, a) ==> s'.tasks[a.task].stage.Finished? && !s.tasks[a.task].stage.Finished?)
  {
    if a.StartTask? || a.FinishTask? || a.StoreTakesEffect? || a.StoreFails? {
      assert Next(s, a).tasks == s.tasks[a.task := s.tasks[a.task].(stage := Next(s, a).tasks[a.task].stage)];
    } else if a.Publish? {
      assert Next(s, a).tasks[..|s.tasks|] == s.tasks;
    } else {
      assert Next(s, a).tasks == s.tasks;
    }
  }

  /** Refreshes are never forgotten or changed but for being aborted: by their caller, or when their provider is
      superseded while they are the ones it controls. */
  lemma RefreshesStay(s: State, a: Action, r: nat)
    requires Enabled(s, a) && r < |s.refreshes|
    ensures var s', was := Next(s, a), s.refreshes[r];
            && r < |s'.refreshes| && s'.refreshes[r] == was.(aborted := s'.refreshes[r].aborted)
            && (s'.refreshes[r].aborted
                <==> was.aborted || a == CallerAborts(r)
                     || (Supersedes(s, a, was.provider) && Get(s.controllers, was.provider) == Some(r)))
  {
    if a.SetProvider? || a.DeleteProvider? || a.ClearProviders? || a.BeginRefresh? {
    } else if a.CallerAborts? {
      assert Next(s, a).refreshes == s.refreshes[a.refresh := s.refreshes[a.refresh].(aborted := true)];
    } else {
      assert Next(s, a).refreshes == s.refreshes;
    }
  }

  /** The actions that make a provider's refreshes stale. */
  ghost predicate Supersedes(s: State, a: Action, id: ProviderId) {
    || (a.SetProvider? && a.id == id)
    || (a.DeleteProvider? && a.id == id)
    || (a.BeginRefresh? && a.id == id)
    || (a.ClearProviders? && (id in s.providers || id in s.controllers))
  }

  lemma BumpAt(generations: map<ProviderId, nat>, ids: set<ProviderId>, id: ProviderId)
    ensures GenerationIn(Bump(generations, ids), id) == GenerationIn(generations, id) + if id in ids then 1 else 0
  {
  }

  /** A provider's generation counts the actions that superseded it. */
  lemma GenerationStep(s: State, a: Action, id: ProviderId)
    requires Enabled(s, a)
    ensures GenerationIn(Next(s, a).generations, id) == GenerationIn(s.generations, id) + if Supersedes(s, a, id) then 1 else 0
  {
    if a.SetProvider? || a.DeleteProvider? || a.BeginRefresh? {
      BumpAt(s.generations, {a.id}, id);
      assert Next(s, a).generations == Bump(s.generations, {a.id});
    } else if a.ClearProviders? {
      BumpAt(s.generations, s.providers.Keys + s.controllers.Keys, id);
    } else if Publishes(a) {
      PublishingRegistersNothing(s, a);
    } else {
      SignallingRegistersNothing(s, a);
    }
  }

  ghost function Supersedings(s: State, run: seq<Action>, id: ProviderId): nat
    requires IsRun(s, run)
    decreases |run|
  {
    if run == [] then 0 else (if Supersedes(s, run[0], id) then 1 else 0) + Supersedings(Next(s, run[0]), run[1..], id)
  }

  /** Over a run the generation of a provider grows by the number of actions that superseded it. */
  lemma {:induction false} GenerationsCount(s: State, run: seq<Action>, id: ProviderId)
    requires IsRun(s, run)
    ensures GenerationIn(After(s, run).generations, id) == GenerationIn(s.generations, id) + Supersedings(s, run, id)
    decreases |run|
  {
    if run != [] {
      var s1, rest := Next(s, run[0]), run[1..];
      GenerationStep(s, run[0], id);
      GenerationsCount(s1, rest, id);
      assert After(s, run) == After(s1, rest);
    }
  }

  /** A refresh begins with the generation it makes newest, on the provider object registered then, under control of its
      provider. */
  lemma BeginStep(s: State, id: ProviderId)
    requires Enabled(s, BeginRefresh(id))
    ensures var s', r := Next(s, BeginRefresh(id)), |s.refreshes|;
            && |s'.refreshes| == r + 1 && s'.refreshes[r].provider == id && s'.refreshes[r].owner == s.providers[id]
            && Get(s'.generations, id) == Some(s'.refreshes[r].generation) && !s'.refreshes[r].aborted
            && Get(s'.controllers, id) == Some(r) && s'.providers == s.providers
  {
  }

  /** The store changes only when a publication's store operation takes effect, at its provider and as it persists. */
  lemma StoreStep(s: State, a: Action, id: ProviderId)
    requires Enabled(s, a)
    ensures var before, after := Get(s.store, id), Get(Next(s, a).store, id);
            if !a.StoreTakesEffect? || s.tasks[a.task].provider != id then after == before
            else match s.tasks[a.task].publication.persist
                 case Keep => after == before
                 case Remove => after == None
                 case Write(entry) => after == Some(entry)
  {
    if a.StoreTakesEffect? {
    } else if Publishes(a) {
      StoreStays(s, a);
    } else if ChangesRegistration(a) || a.BeginRefresh? {
      ManagingPublishesNothing(s, a);
    } else {
      SignallingRegistersNothing(s, a);
    }
  }

  lemma StoreStays(s: State, a: Action)
    requires Enabled(s, a) && Publishes(a) && !a.StoreTakesEffect?
    ensures var s' := Next(s, a); s' == s.(tasks := s'.tasks, chains := s'.chains, dynamic := s'.dynamic, log := s'.log)
  {
    if a.StartTask? || a.FinishTask? {
      ChecksStay(s, a);
    }
  }

  /** A check of a publication touches stages and memory alone. */
  lemma ChecksStay(s: State, a: Action)
    requires Enabled(s, a) && (a.StartTask? || a.FinishTask?)
    ensures var s' := Next(s, a); s' == s.(tasks := s'.tasks, dynamic := s'.dynamic, log := s'.log)
  {
    var task := s.tasks[a.task];
    if Current(s, a.task) && (a.FinishTask? || task.publication.persist.Keep?) {
      ApplyStays(WithStage(s, a.task, Finished), a.task);
    }
  }

  lemma ApplyStays(s: State, t: nat)
    requires t < |s.tasks| && s.tasks[t].refresh < |s.refreshes|
    ensures Apply(s, t) == s.(dynamic := Apply(s, t).dynamic, log := Apply(s, t).log)
  {
  }

  /** A store operation is started for exactly the publications that persist something and are not superseded; the
      others are finished at once. */
  lemma StartStep(s: State, t: nat)
    requires Enabled(s, StartTask(t))
    ensures Next(s, StartTask(t)).tasks[t].stage
            == if Unsuperseded(s, t) && !s.tasks[t].publication.persist.Keep? then Storing(false) else Finished
  {
    if Unsuperseded(s, t) && s.tasks[t].publication.persist.Keep? {
      ApplyStays(WithStage(s, t, Finished), t);
    }
  }

  /** A publication is queued behind the one its provider queued last; a store operation that took effect has its second
      check to come, and one that failed or was checked again is finished. */
  lemma StageStep(s: State, a: Action)
    requires Enabled(s, a)
    ensures a.Publish? ==> Next(s, a).tasks == s.tasks + [Task(s.refreshes[a.refresh].provider, a.refresh, a.publication,
                             Waiting(Get(s.chains, s.refreshes[a.refresh].provider)))]
    ensures a.StoreTakesEffect? ==> Next(s, a).tasks[a.task].stage == Storing(true)
    ensures a.StoreFails? || a.FinishTask? ==> Next(s, a).tasks[a.task].stage == Finished
  {
    if a.FinishTask? && Current(s, a.task) {
      ApplyStays(WithStage(s, a.task, Finished), a.task);
    }
  }

  ghost predicate ChangesRegistration(a: Action) { a.SetProvider? || a.DeleteProvider? || a.ClearProviders? }

  /** The steps of a publication. */
  ghost predicate Publishes(a: Action) {
    a.Publish? || a.StartTask? || a.StoreTakesEffect? || a.StoreFails? || a.FinishTask? || a.ClearChain?
  }

  /** Publications leave registrations, generations, controllers and refreshes alone. */
  lemma PublishingRegistersNothing(s: State, a: Action)
    requires Enabled(s, a) && Publishes(a)
    ensures var s' := Next(s, a);
            s' == s.(tasks := s'.tasks, chains := s'.chains, store := s'.store, dynamic := s'.dynamic, log := s'.log)
  {
    if a.StartTask? || a.FinishTask? {
      ChecksStay(s, a);
    }
  }

  lemma SignallingRegistersNothing(s: State, a: Action)
    requires Enabled(s, a) && (a.CallerAborts? || a.EndRefresh?)
    ensures var s' := Next(s, a);
            s' == s.(refreshes := s'.refreshes, controllers := s'.controllers) && (a.CallerAborts? ==> s' == s.(refreshes := s'.refreshes))
  {
  }

  /** Managing providers and beginning refreshes leaves publications, store and memory alone. */
  lemma ManagingPublishesNothing(s: State, a: Action)
    requires Enabled(s, a) && (ChangesRegistration(a) || a.BeginRefresh?)
    ensures var s' := Next(s, a);
            s' == s.(providers := s'.providers, generations := s'.generations, controllers := s'.controllers, refreshes := s'.refreshes)
  {
  }

  /** The registered providers are those set and not deleted since. */
  lemma RegistrationStep(s: State, a: Action, id: ProviderId)
    requires Enabled(s, a)
    ensures Get(Next(s, a).providers, id)
            == if a.SetProvider? && a.id == id then Some(a.owner)
               else if a.ClearProviders? || (a.DeleteProvider? && a.id == id) then None
               else Get(s.providers, id)
  {
    if Publishes(a) {
      PublishingRegistersNothing(s, a);
    } else if !ChangesRegistration(a) && !a.BeginRefresh? {
      SignallingRegistersNothing(s, a);
    }
  }

  /** A refresh that begins takes control of its provider, one that ends gives up only its own control, and superseding
      takes control away. */
  lemma ControllerStep(s: State, a: Action, id: ProviderId)
    requires Enabled(s, a)
    ensures Get(Next(s, a).controllers, id)
            == if a.BeginRefresh? && a.id == id then Some(|s.refreshes|)
               else if Supersedes(s, a, id) then None
               else if a.EndRefresh? && s.refreshes[a.refresh].provider == id && Get(s.controllers, id) == Some(a.refresh) then None
               else Get(s.controllers, id)
  {
    if a.BeginRefresh? {
      BeginControls(s, a.id, id);
    } else if a.EndRefresh? {
      EndReleases(s, a.refresh, id);
    } else if ChangesRegistration(a) {
      SupersedingReleases(s, a, id);
    } else if Publishes(a) {
      PublishingRegistersNothing(s, a);
    } else {
      SignallingRegistersNothing(s, a);
    }
  }

  lemma BeginControls(s: State, begun: ProviderId, id: ProviderId)
    requires Enabled(s, BeginRefresh(begun))
    ensures Get(Next(s, BeginRefresh(begun)).controllers, id) == if begun == id then Some(|s.refreshes|) else Get(s.controllers, id)
  {
  }

  lemma EndReleases(s: State, r: nat, id: ProviderId)
    requires Enabled(s, EndRefresh(r))
    ensures Get(Next(s, EndRefresh(r)).controllers, id)
            == if s.refreshes[r].provider == id && Get(s.controllers, id) == Some(r) then None else Get(s.controllers, id)
  {
  }

  lemma SupersedingReleases(s: State, a: Action, id: ProviderId)
    requires Enabled(s, a) && ChangesRegistration(a)
    ensures Get(Next(s, a).controllers, id) == if Supersedes(s, a, id) then None else Get(s.controllers, id)
  {
  }

  lemma LoggedKeeps(s: State, a: Action)
    requires Inv(s) && Logged(s) && Enabled(s, a)
    ensures Logged(Next(s, a))
  {
    var s' := Next(s, a);
    MemoryStep(s, a);
    TasksStay(s, a);
    forall i | 0 <= i < |s'.log|
      ensures LogOk(s', i)
    {
      forall j | 0 <= j < |s.log|
        ensures s'.log[j] == s.log[j] && LogOk(s, j)
      {
        assert s'.log[..|s.log|][j] == s.log[j];
      }
      if i < |s.log| {
        assert LogOk(s, i);
        RefreshesStay(s, a, s.log[i].refresh);
      } else {
        assert TaskInv(s, a.task);
        RefreshesStay(s, a, s.tasks[a.task].refresh);
      }
    }
  }

  lemma InMemoryKeeps(s: State, a: Action)
    requires Inv(s) && Logged(s) && InMemory(s) && Enabled(s, a) && Logged(Next(s, a))
    ensures InMemory(Next(s, a))
  {
    LogTasks(Next(s, a));
    forall owner: nat
      ensures Get(Next(s, a).dynamic, owner) == Installed(Next(s, a).tasks, Next(s, a).log, owner)
    {
      MemoryAt(s, a, owner);
    }
  }

  lemma MemoryAt(s: State, a: Action, owner: nat)
    requires Inv(s) && Logged(s) && InMemory(s) && Enabled(s, a) && Logged(Next(s, a))
    ensures (LogTasks(Next(s, a)); Get(Next(s, a).dynamic, owner) == Installed(Next(s, a).tasks, Next(s, a).log, owner))
  {
    var s' := Next(s, a);
    MemoryStep(s, a);
    TasksStay(s, a);
    LogTasks(s);
    LogTasks(s');
    InstalledSame(s.tasks, s'.tasks, s.log, owner);
    assert Get(s.dynamic, owner) == Installed(s.tasks, s.log, owner);
  }

  lemma {:induction false} MemoryIsLogged(s: State, run: seq<Action>)
    requires Inv(s) && Logged(s) && InMemory(s) && IsRun(s, run)
    ensures Logged(After(s, run)) && InMemory(After(s, run))
    decreases |run|
  {
    if run != [] {
      NextKeeps(s, run[0]);
      LoggedKeeps(s, run[0]);
      InMemoryKeeps(s, run[0]);
      MemoryIsLogged(Next(s, run[0]), run[1..]);
    }
  }

  /** Over every run: what is in memory for a provider object is the update of its last logged publication that has one,
      and nothing if there is none; and each publication is logged at most once. */
  lemma MemorySafety(run: seq<Action>)
    requires IsRun(INITIAL, run)
    ensures var s := After(INITIAL, run);
            Logged(s) && InMemory(s)
  {
    assert Logged(INITIAL) && InMemory(INITIAL);
    MemoryIsLogged(INITIAL, run);
  }

  // ---------------------------------------------------------------------------------------------
  // The imperative model collection
  // ---------------------------------------------------------------------------------------------

  lemma BumpSplit(generations: map<ProviderId, nat>, ids: set<ProviderId>, id: ProviderId)
    requires id !in ids
    ensures Bump(Bump(generations, ids), {id}) == Bump(generations, ids + {id})
  {
  }

  lemma AbortSplit(refreshes: seq<Refresh>, controllers: map<ProviderId, nat>, ids: set<ProviderId>, id: ProviderId)
    requires id !in ids
    ensures Abort(Abort(refreshes, controllers, ids), controllers - ids, {id}) == Abort(refreshes, controllers, ids + {id})
  {
  }

  lemma ControllersAfter(controllers: map<ProviderId, nat>, refreshes: seq<Refresh>, ids: set<ProviderId>)
    requires ControllersOk(controllers, refreshes)
    ensures ControllersOk(controllers - ids, Abort(refreshes, controllers, ids))
  {
  }

  lemma RemoveSplit(controllers: map<ProviderId, nat>, ids: set<ProviderId>, id: ProviderId)
    ensures controllers - ids - {id} == controllers - (ids + {id})
  {
  }

  lemma SupersedeSplit(generations: map<ProviderId, nat>, refreshes: seq<Refresh>, controllers: map<ProviderId, nat>,
                       ids: set<ProviderId>, id: ProviderId)
    requires ControllersOk(controllers, refreshes) && id !in ids
    ensures ControllersOk(controllers - ids, Abort(refreshes, controllers, ids))
    ensures Bump(Bump(generations, ids), {id}) == Bump(generations, ids + {id})
    ensures Abort(Abort(refreshes, controllers, ids), controllers - ids, {id}) == Abort(refreshes, controllers, ids + {id})
    ensures controllers - ids - {id} == controllers - (ids + {id})
  {
    ControllersAfter(controllers, refreshes, ids);
    BumpSplit(generations, ids, id);
    AbortSplit(refreshes, controllers, ids, id);
    RemoveSplit(controllers, ids, id);
  }

  lemma SupersedeNone(generations: map<ProviderId, nat>, refreshes: seq<Refresh>, controllers: map<ProviderId, nat>)
    ensures Bump(generations, {}) == generations && controllers - {} == controllers
    ensures Abort(refreshes, controllers, {}) == refreshes
  {
  }

  lemma BumpOne(generations: map<ProviderId, nat>, id: ProviderId)
    ensures Bump(generations, {id}) == generations[id := GenerationIn(generations, id) + 1]
  {
  }

  lemma AbortOne(refreshes: seq<Refresh>, controllers: map<ProviderId, nat>, id: ProviderId)
    requires ControllersOk(controllers, refreshes)
    ensures id !in controllers ==> controllers - {id} == controllers && Abort(refreshes, controllers, {id}) == refreshes
    ensures id in controllers ==>
              Abort(refreshes, controllers, {id})
              == refreshes[controllers[id] := refreshes[controllers[id]].(aborted := true)]
  {
  }

  /** The fields of the collection and, beside them, the refreshes, publications and store operations in
      flight. Each method is one segment between awaits. */
  class ModelsImpl {
    var providers: map<ProviderId, nat>
    var refreshGenerations: map<ProviderId, nat>
    var refreshControllers: map<ProviderId, nat>
    var publicationChains: map<ProviderId, nat>
    var refreshes: seq<Refresh>
    var tasks: seq<Task>
    var modelsStore: map<ProviderId, Entry>
    var dynamicModels: map<nat, seq<Model>>
    ghost var log: seq<Applied>

    ghost function View(): State
      reads this
    {
      State(providers, refreshGenerations, refreshControllers, publicationChains, refreshes, tasks, modelsStore,
            dynamicModels, log)
    }

    ghost predicate Valid()
      reads this
    {
      Inv(View())
    }

    constructor ()
      ensures Valid() && View() == INITIAL
    {
      providers, refreshGenerations, refreshControllers, publicationChains := map[], map[], map[], map[];
      refreshes, tasks, modelsStore, dynamicModels, log := [], [], map[], map[], [];
    }

    method SupersedeProviderRefresh(id: ProviderId) returns (generation: nat)
      requires ControllersOk(refreshControllers, refreshes)
      modifies this`refreshGenerations, this`refreshControllers, this`refreshes
      ensures refreshGenerations == Bump(old(refreshGenerations), {id})
      ensures refreshControllers == old(refreshControllers) - {id}
      ensures refreshes == Abort(old(refreshes), old(refreshControllers), {id})
      ensures generation == GenerationIn(refreshGenerations, id)
    {
      BumpOne(refreshGenerations, id);
      generation := (if id in refreshGenerations then refreshGenerations[id] else 0) + 1;
      refreshGenerations := refreshGenerations[id := generation];
      AbortController(id);
    }

    method AbortController(id: ProviderId)
      requires ControllersOk(refreshControllers, refreshes)
      modifies this`refreshControllers, this`refreshes
      ensures refreshControllers == old(refreshControllers) - {id}
      ensures refreshes == Abort(old(refreshes), old(refreshControllers), {id})
    {
      AbortOne(refreshes, refreshControllers, id);
      if id in refreshControllers {
        var previous := refreshControllers[id];
        refreshControllers := refreshControllers - {id};
        refreshes := refreshes[previous := refreshes[previous].(aborted := true)];
      }
    }

    method SetProvider(id: ProviderId, owner: nat)
      requires Valid()
      modifies this
      ensures Valid() && View() == Next(old(View()), Action.SetProvider(id, owner))
    {
      ghost var before := View();
      var _ := SupersedeProviderRefresh(id);
      providers := providers[id := owner];
      NextKeeps(before, Action.SetProvider(id, owner));
    }

    method DeleteProvider(id: ProviderId)
      requires Valid()
      modifies this
      ensures Valid() && View() == Next(old(View()), Action.DeleteProvider(id))
    {
      ghost var before := View();
      var _ := SupersedeProviderRefresh(id);
      providers := providers - {id};
      NextKeeps(before, Action.DeleteProvider(id));
    }

    /** Supersedes one provider after the other; iterating a set visits it in some order. */
    method SupersedeAll(ids: set<ProviderId>)
      requires ControllersOk(refreshControllers, refreshes)
      modifies this`refreshGenerations, this`refreshControllers, this`refreshes
      ensures refreshGenerations == Bump(old(refreshGenerations), ids)
      ensures refreshControllers == old(refreshControllers) - ids
      ensures refreshes == Abort(old(refreshes), old(refreshControllers), ids)
    {
      SupersedeNone(refreshGenerations, refreshes, refreshControllers);
      assert ids - ids == {};
      ghost var g, r, c := refreshGenerations, refreshes, refreshControllers;
      var pending := ids;
      while pending != {}
        invariant pending <= ids
        invariant refreshGenerations == Bump(g, ids - pending)
        invariant refreshControllers == c - (ids - pending)
        invariant refreshes == Abort(r, c, ids - pending)
        decreases pending
      {
        var id :| id in pending;
        SupersedeSplit(g, r, c, ids - pending, id);
        assert ids - pending + {id} == ids - (pending - {id});
        var _ := SupersedeProviderRefresh(id);
        pending := pending - {id};
      }
      assert ids - {} == ids;
    }

    method ClearProviders()
      requires Valid()
      modifies this
      ensures Valid() && View() == Next(old(View()), Action.ClearProviders)
    {
      ghost var before := View();
      SupersedeAll(providers.Keys + refreshControllers.Keys);
      providers := map[];
      assert View() == Next(before, Action.ClearProviders);
      NextKeeps(before, Action.ClearProviders);
    }

    method BeginProviderRefresh(id: ProviderId) returns (refresh: nat)
      requires Valid() && id in providers
      modifies this
      ensures Valid() && View() == Next(old(View()), BeginRefresh(id))
      ensures refresh == old(|refreshes|) < |refreshes| && !refreshes[refresh].aborted
    {
      ghost var before := View();
      var generation := SupersedeProviderRefresh(id);
      refresh := |refreshes|;
      refreshControllers := refreshControllers[id := refresh];
      refreshes := refreshes + [Refresh(id, providers[id], generation, false)];
      NextKeeps(before, BeginRefresh(id));
    }

    /** Queues a publication behind its provider's chain. */
    method PublishProviderModels(refresh: nat, publication: Publication) returns (task: nat)
      requires Valid() && refresh < |refreshes|
      modifies this
      ensures Valid() && View() == Next(old(View()), Publish(refresh, publication)) && task == old(|tasks|)
    {
      ghost var before := View();
      var id := refreshes[refresh].provider;
      var previous := if id in publicationChains then Some(publicationChains[id]) else None;
      task := |tasks|;
      tasks := tasks + [Task(id, refresh, publication, Waiting(previous))];
      publicationChains := publicationChains[id := task];
      NextKeeps(before, Publish(refresh, publication));
    }

    method IsCurrent(task: nat) returns (current: bool)
      requires Valid() && task < |tasks| && tasks[task].refresh < |refreshes|
      ensures current <==> Current(View(), task)
    {
      var r := refreshes[tasks[task].refresh];
      var id := tasks[task].provider;
      current := !r.aborted && id in refreshGenerations && refreshGenerations[id] == r.generation;
    }

    method Update(task: nat)
      requires task < |tasks| && tasks[task].refresh < |refreshes|
      modifies this`dynamicModels, this`log
      ensures View() == Apply(old(View()), task)
    {
      var t := tasks[task];
      log := Apply(View(), task).log;
      if t.publication.update.Some? {
        dynamicModels := dynamicModels[refreshes[t.refresh].owner := t.publication.update.value];
      }
    }

    /** Resumes a publication whose predecessor has settled, up to its store operation or its end. */
    method ResumeAfterPrevious(task: nat)
      requires Valid() && Enabled(View(), StartTask(task))
      modifies this
      ensures Valid() && View() == Next(old(View()), StartTask(task))
    {
      ghost var before := View();
      var current := IsCurrent(task);
      if !current {
        tasks := tasks[task := tasks[task].(stage := Finished)];
      } else if tasks[task].publication.persist.Keep? {
        tasks := tasks[task := tasks[task].(stage := Finished)];
        Update(task);
      } else {
        tasks := tasks[task := tasks[task].(stage := Storing(false))];
      }
      NextKeeps(before, StartTask(task));
    }

    /** Resumes a publication whose store operation succeeded. */
    method ResumeAfterStore(task: nat)
      requires Valid() && Enabled(View(), FinishTask(task))
      modifies this
      ensures Valid() && View() == Next(old(View()), FinishTask(task))
    {
      ghost var before := View();
      var current := IsCurrent(task);
      tasks := tasks[task := tasks[task].(stage := Finished)];
      if current {
        Update(task);
      }
      NextKeeps(before, FinishTask(task));
    }

    /** Forgets a settled chain unless a later publication has extended it. */
    method ForgetChain(task: nat)
      requires Valid() && task < |tasks| && tasks[task].stage.Finished?
      modifies this
      ensures Valid()
      ensures View() == if old(Enabled(View(), ClearChain(task))) then Next(old(View()), ClearChain(task)) else old(View())
    {
      ghost var before := View();
      var id := tasks[task].provider;
      if id in publicationChains && publicationChains[id] == task {
        publicationChains := publicationChains - {id};
        NextKeeps(before, ClearChain(task));
      }
    }
  }

  // ---------------------------------------------------------------------------------------------
  // The overlay of dynamic models on the baseline
  // ---------------------------------------------------------------------------------------------

  /** The first model with an id, as `getModel` finds it. */
  function Find(models: seq<Model>, id: string): Option<Model> {
    if models == [] then None else if models[0].id == id then Some(models[0]) else Find(models[1..], id)
  }

  /** The last model with an id. */
  function FindLast(models: seq<Model>, id: string): Option<Model> {
    if models == [] then None
    else if models[|models| - 1].id == id then Some(models[|models| - 1])
    else FindLast(models[..|models| - 1], id)
  }

  lemma {:induction false} FindAt(models: seq<Model>, k: nat)
    requires k < |models| && forall i :: 0 <= i < k ==> models[i].id != models[k].id
    ensures Find(models, models[k].id) == Some(models[k])
  {
    if k > 0 { FindAt(models[1..], k - 1); }
  }

  lemma {:induction false} FindNone(models: seq<Model>, id: string)
    ensures Find(models, id).None? <==> forall i :: 0 <= i < |models| ==> models[i].id != id
  {
    if models != [] { FindNone(models[1..], id); }
  }

  lemma {:induction false} FindAppend(a: seq<Model>, m: Model, id: string)
    ensures Find(a + [m], id) == if Find(a, id).Some? then Find(a, id) else if m.id == id then Some(m) else None
  {
    if a != [] {
      FindAppend(a[1..], m, id);
      assert (a + [m])[1..] == a[1..] + [m];
    } else {
      assert (a + [m])[1..] == [];
    }
  }

  lemma {:induction false} FindReplace(a: seq<Model>, k: nat, m: Model, id: string)
    requires k < |a| && a[k].id == m.id && forall i :: 0 <= i < k ==> a[i].id != m.id
    ensures Find(a[k := m], id) == if m.id == id then Some(m) else Find(a, id)
  {
    if k > 0 {
      FindReplace(a[1..], k - 1, m, id);
      assert a[k := m][1..] == a[1..][k - 1 := m];
    } else {
      assert a[0 := m][1..] == a[1..];
    }
  }

  /** The models a provider offers: each lookup finds the last dynamic model of that id, or else the
      baseline's; nothing of the baseline's order is disturbed. */
  method CurrentModels(baseline: seq<Model>, dynamic: seq<Model>) returns (merged: seq<Model>)
    ensures forall id :: Find(merged, id)
                         == if FindLast(dynamic, id).Some? then FindLast(dynamic, id) else Find(baseline, id)
    ensures |merged| >= |baseline| && forall i :: 0 <= i < |baseline| ==> merged[i].id == baseline[i].id
  {
    merged := baseline;
    for n := 0 to |dynamic|
      invariant forall id :: Find(merged, id) == if FindLast(dynamic[..n], id).Some?
                                                 then FindLast(dynamic[..n], id) else Find(baseline, id)
      invariant |merged| >= |baseline| && forall i :: 0 <= i < |baseline| ==> merged[i].id == baseline[i].id
    {
      var model := dynamic[n];
      var index := 0;
      while index < |merged| && merged[index].id != model.id
        invariant 0 <= index <= |merged| && forall i :: 0 <= i < index ==> merged[i].id != model.id
      {
        index := index + 1;
      }
      ghost var before := merged;
      assert dynamic[..n + 1][..n] == dynamic[..n];
      if index < |merged| {
        merged := merged[index := model];
        forall id ensures Find(merged, id) == if model.id == id then Some(model) else Find(before, id) {
          FindReplace(before, index, model, id);
        }
      } else {
        merged := merged + [model];
        FindNone(before, model.id);
        forall id ensures Find(merged, id) == if model.id == id then Some(model) else Find(before, id) {
          FindAppend(before, model, id);
        }
      }
    }
    assert dynamic[..|dynamic|] == dynamic;
  }
}
