/** Revisioned server snapshots: the handshake's snapshot and its catch-up, serialized broadcasts to the ready
    connections, and the client that keeps the newest revision. Service calls and sends succeed; every segment
    between two awaits is one atomic action. */
module Snapshots {

  import opened Wrappers

  /** How far a connection's handshake is; a snapshot's revision is read when the snapshot is asked for. */
  datatype Phase = Fresh | Getting(revision: nat) | Greeting(revision: nat) | CatchingUp(revision: nat) | Settled

  /** A connection with the revisions of the snapshots sent to it, the number of those its client has received, and
      the revision that client holds. */
  datatype Connection = Connection(
    phase: Phase, ready: bool, gone: bool, sent: seq<nat>, delivered: nat, held: Option<nat>)

  datatype Broadcast = Sending(revision: nat, targets: seq<nat>)

  datatype State = State(
    revision: nat, queued: nat, current: Option<Broadcast>, connections: seq<Connection>, closing: bool)

  const INITIAL := State(0, 0, None, [], false)

  datatype Action =
    | Accepts
    | StartsHandshake(c: nat)
    | SendsHello(c: nat)
    | HelloSettles(c: nat)
    | SendsCatchUp(c: nat)
    | Leaves(c: nat)
    | AsksBroadcast
    | StartsBroadcast
    | SendsBroadcast
    | Delivers(c: nat)
    | Closes

  // ---------------------------------------------------------------------------------------------
  // Transitions
  // ---------------------------------------------------------------------------------------------

  /** `applyServerSnapshot`: an older snapshot is ignored. */
  function Apply(held: Option<nat>, revision: nat): Option<nat> {
    if held.Some? && revision < held.value then held else Some(revision)
  }

  function Send(c: Connection, revision: nat): Connection {
    if c.gone then c else c.(sent := c.sent + [revision])
  }

  predicate Ready(c: Connection) { c.ready && !c.gone }

  /** The ready connections, in order. */
  function ReadyOnes(connections: seq<Connection>): (r: seq<nat>)
    ensures forall c :: c in r <==> 0 <= c < |connections| && Ready(connections[c])
  {
    if connections == [] then []
    else
      var n := |connections| - 1;
      var r := ReadyOnes(connections[..n]);
      if Ready(connections[n]) then r + [n] else r
  }

  function With(s: State, c: nat, connection: Connection): State
    requires c < |s.connections|
  {
    s.(connections := s.connections[c := connection])
  }

  /** The hello has gone out: the connection is ready, and a snapshot that is out of date is followed by another. */
  function Greeted(c: Connection, revision: nat): Connection
    requires c.phase.Greeting?
  {
    if c.gone then c.(phase := Settled)
    else c.(ready := true, phase := if c.phase.revision != revision then CatchingUp(revision) else Settled)
  }

  /** `performBroadcast` up to its first await. */
  function Begin(s: State): State
    requires s.queued > 0 && s.current.None?
  {
    var s' := s.(queued := s.queued - 1);
    var targets := ReadyOnes(s.connections);
    if targets == [] || s.closing then s'
    else s'.(revision := s.revision + 1, current := Some(Sending(s.revision + 1, targets)))
  }

  /** One send of the current broadcast. */
  function SendOne(s: State): State
    requires s.current.Some? && s.current.value.targets != [] && s.current.value.targets[0] < |s.connections|
  {
    var b := s.current.value;
    var c := b.targets[0];
    With(s, c, Send(s.connections[c], b.revision))
      .(current := if |b.targets| == 1 then None else Some(b.(targets := b.targets[1..])))
  }

  predicate Enabled(s: State, a: Action) {
    match a
    case StartsHandshake(c) => c < |s.connections| && s.connections[c].phase.Fresh?
    case SendsHello(c) => c < |s.connections| && s.connections[c].phase.Getting?
    case HelloSettles(c) => c < |s.connections| && s.connections[c].phase.Greeting?
    case SendsCatchUp(c) => c < |s.connections| && s.connections[c].phase.CatchingUp?
    case Leaves(c) => c < |s.connections|
    case StartsBroadcast => s.queued > 0 && s.current.None?
    case SendsBroadcast =>
      s.current.Some? && s.current.value.targets != [] && s.current.value.targets[0] < |s.connections|
    case Delivers(c) => c < |s.connections| && s.connections[c].delivered < |s.connections[c].sent|
    case Accepts => true
    case AsksBroadcast => true
    case Closes => true
  }

  function Next(s: State, a: Action): State
    requires Enabled(s, a)
  {
    match a
    case Accepts => s.(connections := s.connections + [Connection(Fresh, false, false, [], 0, None)])
    case StartsHandshake(c) => With(s, c, s.connections[c].(phase := Getting(s.revision)))
    case SendsHello(c) =>
      var k := s.connections[c];
      With(s, c, Send(k, k.phase.revision).(phase := if k.gone then Settled else Greeting(k.phase.revision)))
    case HelloSettles(c) => With(s, c, Greeted(s.connections[c], s.revision))
    case SendsCatchUp(c) => With(s, c, Send(s.connections[c], s.connections[c].phase.revision).(phase := Settled))
    case Leaves(c) => With(s, c, s.connections[c].(gone := true))
    case AsksBroadcast => s.(queued := s.queued + 1)
    case StartsBroadcast => Begin(s)
    case SendsBroadcast => SendOne(s)
    case Delivers(c) =>
      var k := s.connections[c];
      With(s, c, k.(held := Apply(k.held, k.sent[k.delivered]), delivered := k.delivered + 1))
    case Closes => s.(closing := true)
  }

  // ---------------------------------------------------------------------------------------------
  // The invariant
  // ---------------------------------------------------------------------------------------------

  /** The highest of the revisions. */
  ghost function Highest(sent: seq<nat>): Option<nat> {
    if sent == [] then None else Apply(Highest(sent[..|sent| - 1]), sent[|sent| - 1])
  }

  lemma {:induction false} HighestBounds(sent: seq<nat>)
    ensures sent == [] <==> Highest(sent).None?
    ensures sent != [] ==> Highest(sent).value in sent && forall r :: r in sent ==> r <= Highest(sent).value
  {
    if sent != [] {
      HighestBounds(sent[..|sent| - 1]);
      assert sent == sent[..|sent| - 1] + [sent[|sent| - 1]];
    }
  }

  /** Where the current revision is for a connection: sent, about to follow the handshake, or being broadcast. */
  ghost predicate Reached(s: State, c: nat)
    requires c < |s.connections|
  {
    || s.revision in s.connections[c].sent
    || s.connections[c].phase == CatchingUp(s.revision)
    || (s.current.Some? && c in s.current.value.targets)
  }

  ghost predicate ConnectionOk(s: State, c: nat)
    requires c < |s.connections|
  {
    var k := s.connections[c];
    && (forall r :: r in k.sent ==> r <= s.revision)
    && (k.phase.Getting? || k.phase.Greeting? || k.phase.CatchingUp? ==> k.phase.revision <= s.revision)
    && (k.phase.Greeting? && !k.gone ==> k.phase.revision in k.sent)
    && (k.ready ==> k.phase.CatchingUp? || k.phase.Settled?)
    && (Ready(k) ==> Reached(s, c))
    && k.delivered <= |k.sent| && k.held == Highest(k.sent[..k.delivered])
  }

  ghost predicate Inv(s: State) {
    && (forall c {:trigger ConnectionOk(s, c)} :: 0 <= c < |s.connections| ==> ConnectionOk(s, c))
    && (s.current.Some? ==>
         && s.current.value.revision == s.revision && s.current.value.targets != []
         && forall i :: 0 <= i < |s.current.value.targets| ==> s.current.value.targets[i] < |s.connections|)
  }

  lemma SendKeepsHeld(k: Connection, revision: nat)
    requires k.delivered <= |k.sent| && k.held == Highest(k.sent[..k.delivered])
    ensures var k' := Send(k, revision); k'.delivered <= |k'.sent| && k'.held == Highest(k'.sent[..k'.delivered])
  {
    assert Send(k, revision).sent[..k.delivered] == k.sent[..k.delivered];
  }

  /** A step at one connection that leaves the publisher alone. */
  lemma OneKeeps(s: State, s': State, c: nat)
    requires Inv(s) && c < |s.connections| && s' == s.(connections := s'.connections) && |s'.connections| == |s.connections|
    requires forall d :: 0 <= d < |s.connections| && d != c ==> s'.connections[d] == s.connections[d]
    requires ConnectionOk(s', c)
    ensures Inv(s')
  {
    forall d: nat | d < |s'.connections|
      ensures ConnectionOk(s', d)
    {
      assert ConnectionOk(s, d);
    }
  }

  lemma HandshakeKeeps(s: State, a: Action)
    requires Inv(s) && Enabled(s, a)
    requires a.StartsHandshake? || a.SendsHello? || a.HelloSettles? || a.SendsCatchUp? || a.Leaves?
    ensures Inv(Next(s, a))
  {
    var s', k := Next(s, a), s.connections[a.c];
    assert ConnectionOk(s, a.c);
    if a.SendsHello? || a.SendsCatchUp? {
      SendKeepsHeld(k, k.phase.revision);
    }
    OneKeeps(s, s', a.c);
  }

  lemma DeliverKeeps(s: State, c: nat)
    requires Inv(s) && Enabled(s, Delivers(c))
    ensures Inv(Next(s, Delivers(c)))
  {
    var k := s.connections[c];
    assert ConnectionOk(s, c);
    assert k.sent[..k.delivered + 1][..k.delivered] == k.sent[..k.delivered];
    OneKeeps(s, Next(s, Delivers(c)), c);
  }

  lemma BeginKeeps(s: State)
    requires Inv(s) && s.queued > 0 && s.current.None?
    ensures Inv(Begin(s))
  {
    var s', targets := Begin(s), ReadyOnes(s.connections);
    forall i | 0 <= i < |targets|
      ensures targets[i] < |s.connections|
    {
      assert targets[i] in targets;
    }
    forall c: nat | c < |s'.connections|
      ensures ConnectionOk(s', c)
    {
      assert ConnectionOk(s, c);
    }
  }

  lemma SendOneKeeps(s: State)
    requires Inv(s) && Enabled(s, SendsBroadcast)
    ensures Inv(SendOne(s))
  {
    var s', b := SendOne(s), s.current.value;
    forall c: nat | c < |s'.connections|
      ensures ConnectionOk(s', c)
    {
      assert ConnectionOk(s, c);
      SendKeepsHeld(s.connections[c], b.revision);
      assert b.targets == [b.targets[0]] + b.targets[1..];
    }
  }

  lemma NextKeeps(s: State, a: Action)
    requires Inv(s) && Enabled(s, a)
    ensures Inv(Next(s, a))
  {
    var s' := Next(s, a);
    if a.StartsBroadcast? {
      BeginKeeps(s);
    } else if a.SendsBroadcast? {
      SendOneKeeps(s);
    } else if a.Delivers? {
      DeliverKeeps(s, a.c);
    } else if a.Accepts? || a.AsksBroadcast? || a.Closes? {
      forall c: nat | c < |s'.connections|
        ensures ConnectionOk(s', c)
      {
        if c < |s.connections| {
          assert ConnectionOk(s, c);
        }
      }
    } else {
      HandshakeKeeps(s, a);
    }
  }

  ghost predicate Run(states: seq<State>, actions: seq<Action>) {
    && |states| == |actions| + 1 && states[0] == INITIAL
    && forall i :: 0 <= i < |actions| ==> Enabled(states[i], actions[i]) && states[i + 1] == Next(states[i], actions[i])
  }

  lemma {:induction false} RunKeeps(states: seq<State>, actions: seq<Action>, k: nat)
    requires Run(states, actions) && k <= |actions|
    ensures Inv(states[k])
  {
    if k > 0 {
      RunKeeps(states, actions, k - 1);
      NextKeeps(states[k - 1], actions[k - 1]);
    }
  }

  /** No broadcast is under way and the connection's handshake has settled. */
  ghost predicate Quiet(s: State, c: nat)
    requires c < |s.connections|
  {
    s.current.None? && s.connections[c].phase == Settled
  }

  /** Over every run: whenever nothing is pending for a ready connection it has been sent the current revision, and
      a client that has received its frames holds exactly that revision, in whatever order the snapshots came. */
  lemma SnapshotConverges(states: seq<State>, actions: seq<Action>, k: nat, c: nat)
    requires Run(states, actions) && k <= |actions|
    requires c < |states[k].connections| && Ready(states[k].connections[c]) && Quiet(states[k], c)
    ensures var x := states[k].connections[c];
            && states[k].revision in x.sent
            && (x.delivered == |x.sent| ==> x.held == Some(states[k].revision))
  {
    var s := states[k];
    var x := s.connections[c];
    RunKeeps(states, actions, k);
    assert ConnectionOk(s, c);
    HighestBounds(x.sent);
    assert x.sent[..|x.sent|] == x.sent;
  }

  /** What a client holds never goes back, even when a catch-up is overtaken by a broadcast. */
  lemma HeldNeverGoesBack(s: State, a: Action, c: nat)
    requires Inv(s) && Enabled(s, a) && c < |s.connections|
    ensures var before, after := s.connections[c].held, Next(s, a).connections[c].held;
            before.Some? ==> after.Some? && before.value <= after.value
    ensures Next(s, a).connections[c].held != s.connections[c].held ==> a == Delivers(c)
  {
  }

  /** Over a whole run the revision a client holds only grows. */
  lemma {:induction false} HeldIsMonotone(states: seq<State>, actions: seq<Action>, i: nat, k: nat, c: nat)
    requires Run(states, actions) && i <= k <= |actions| && c < |states[i].connections|
    ensures c < |states[k].connections|
    ensures var before, after := states[i].connections[c].held, states[k].connections[c].held;
            before.Some? ==> after.Some? && before.value <= after.value
    decreases k
  {
    if i < k {
      HeldIsMonotone(states, actions, i, k - 1, c);
      RunKeeps(states, actions, k - 1);
      HeldNeverGoesBack(states[k - 1], actions[k - 1], c);
    }
  }

  /** A broadcast that begins while the server is open and some connection is ready. */
  ghost predicate Announces(s: State, a: Action) {
    a.StartsBroadcast? && !s.closing && exists c :: 0 <= c < |s.connections| && Ready(s.connections[c])
  }

  lemma RevisionStep(s: State, a: Action)
    requires Enabled(s, a)
    ensures Next(s, a).revision == s.revision + if Announces(s, a) then 1 else 0
    ensures Next(s, a).queued == s.queued + (if a.AsksBroadcast? then 1 else 0) - (if a.StartsBroadcast? then 1 else 0)
  {
    if a.StartsBroadcast? {
      var targets := ReadyOnes(s.connections);
      if targets != [] {
        assert targets[0] in targets;
      } else {
        forall c | 0 <= c < |s.connections|
          ensures !Ready(s.connections[c])
        {
          assert c !in targets;
        }
      }
    }
  }

  ghost function Announced(states: seq<State>, actions: seq<Action>, k: nat): nat
    requires k <= |actions| && |states| > |actions|
  {
    if k == 0 then 0 else Announced(states, actions, k - 1) + if Announces(states[k - 1], actions[k - 1]) then 1 else 0
  }

  /** Over every run the revision is the number of broadcasts begun while the server was open and a connection ready. */
  lemma {:induction false} RevisionCounts(states: seq<State>, actions: seq<Action>, k: nat)
    requires Run(states, actions) && k <= |actions|
    ensures states[k].revision == Announced(states, actions, k)
  {
    if k > 0 {
      RevisionCounts(states, actions, k - 1);
      RevisionStep(states[k - 1], actions[k - 1]);
    }
  }

  /** A broadcast goes to every connection that is ready when it begins, and to each once. */
  lemma BroadcastReachesReady(s: State)
    requires s.queued > 0 && s.current.None? && Announces(s, StartsBroadcast)
    ensures var b := Begin(s).current;
            && b.Some? && b.value.revision == Begin(s).revision
            && (forall c: nat :: c in b.value.targets <==> c < |s.connections| && Ready(s.connections[c]))
            && (forall i, j :: 0 <= i < j < |b.value.targets| ==> b.value.targets[i] != b.value.targets[j])
  {
    RevisionStep(s, StartsBroadcast);
    Increasing(s.connections);
  }

  lemma {:induction false} Increasing(connections: seq<Connection>)
    ensures forall i, j :: 0 <= i < j < |ReadyOnes(connections)| ==> ReadyOnes(connections)[i] < ReadyOnes(connections)[j]
  {
    if connections != [] {
      var r := ReadyOnes(connections[..|connections| - 1]);
      Increasing(connections[..|connections| - 1]);
      forall i | 0 <= i < |r|
        ensures r[i] < |connections| - 1
      {
        assert r[i] in r;
      }
    }
  }

  /** A connection becomes ready when its hello is out and it has not gone; and what a connection that has not gone is sent
      is its hello, its catch-up and the revision being broadcast. */
  lemma ConnectionStep(s: State, a: Action, c: nat)
    requires Inv(s) && Enabled(s, a) && c < |s.connections|
    ensures var before, after := s.connections[c], Next(s, a).connections[c];
            && (after.ready <==> before.ready || (a == HelloSettles(c) && !before.gone))
            && (after.gone <==> before.gone || a == Leaves(c))
            && after.sent == before.sent
                 + if before.gone then []
                   else if a == SendsHello(c) || a == SendsCatchUp(c) then [before.phase.revision]
                   else if a == SendsBroadcast && s.current.value.targets[0] == c then [s.revision]
                   else []
  {
  }

  // ---------------------------------------------------------------------------------------------
  // The objects
  // ---------------------------------------------------------------------------------------------

  /** The publisher: its revision and the queue of broadcasts. */
  class ServerSnapshotPublisher {
    var revision: nat
    var queued: nat
    var current: Option<Broadcast>

    constructor ()
      ensures revision == 0 && queued == 0 && current == None
    {
      revision, queued, current := 0, 0, None;
    }

    /** The publisher's part of a state. */
    ghost predicate Of(s: State)
      reads this
    {
      revision == s.revision && queued == s.queued && current == s.current
    }

    method QueueBroadcast()
      modifies this`queued
      ensures queued == old(queued) + 1
    {
      queued := queued + 1;
    }

    /** `performBroadcast` up to its first await. */
    method PerformBroadcast(connections: seq<Connection>, closing: bool, ghost s: State)
      requires queued > 0 && current.None? && Of(s) && s.connections == connections && s.closing == closing
      modifies this
      ensures Of(Begin(s))
    {
      queued := queued - 1;
      var targets: seq<nat> := [];
      var c := 0;
      while c < |connections|
        invariant 0 <= c <= |connections| && targets == ReadyOnes(connections[..c])
      {
        if connections[c].ready && !connections[c].gone {
          targets := targets + [c];
        }
        assert connections[..c + 1][..c] == connections[..c];
        c := c + 1;
      }
      assert connections[..c] == connections;
      if |targets| == 0 || closing {
        return;
      }
      revision := revision + 1;
      current := Some(Sending(revision, targets));
    }
  }

  /** The client's side: the snapshot it holds. */
  class ClientState {
    var snapshot: Option<nat>

    constructor ()
      ensures snapshot == None
    {
      snapshot := None;
    }

    method ApplyServerSnapshot(revision: nat)
      modifies this
      ensures snapshot == Apply(old(snapshot), revision)
    {
      if snapshot.Some? && revision < snapshot.value {
        return;
      }
      snapshot := Some(revision);
    }

    /** A sequence of snapshots, in any order, leaves the highest one. */
    method ApplyAll(revisions: seq<nat>)
      requires snapshot.None?
      modifies this
      ensures snapshot == Highest(revisions)
      ensures revisions != [] ==> snapshot.Some? && snapshot.value in revisions && forall r :: r in revisions ==> r <= snapshot.value
    {
      var i := 0;
      while i < |revisions|
        invariant 0 <= i <= |revisions| && snapshot == Highest(revisions[..i])
      {
        ApplyServerSnapshot(revisions[i]);
        assert revisions[..i + 1][..i] == revisions[..i];
        i := i + 1;
      }
      assert revisions[..i] == revisions;
      HighestBounds(revisions);
    }
  }
}
