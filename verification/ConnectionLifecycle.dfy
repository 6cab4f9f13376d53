/** The client's connection lifecycle. Listeners run inside the methods and may call back into the connection:
    `depth` bounds how deep such calls nest, and is arbitrary. */
module ConnectionLifecycle {

  import opened Wrappers

  type Attempt = nat
  type TransportId = nat

  /** `pending` tells that the attempt's `connect` promise has not settled. */
  datatype Lifecycle =
    | Disconnected
    | Connecting(id: Attempt, transport: Option<TransportId>)
    | Connected(id: Attempt, transport: Option<TransportId>, pending: bool)

  datatype Message = Hello | HelloError | Other

  /** What became of a transport: the client closed it, or it reported its own end. */
  datatype Transport = Transport(attempt: Attempt, closed: bool, reported: bool)

  class Connection {
    var lifecycle: Lifecycle
    var sequence: nat
    /** The attempts whose transport factory is still to answer. */
    var opening: set<Attempt>
    /** Every transport the factory yielded. */
    var transports: seq<Transport>
    /** How often each attempt's promise was settled, which were resolved, and which attempts the server greeted. */
    ghost var settled: seq<nat>
    ghost var resolved: set<Attempt>
    ghost var greeted: set<Attempt>
    /** Transports that a method in progress is about to close. */
    ghost var owed: set<TransportId>

    constructor ()
      ensures Valid() && lifecycle == Disconnected && owed == {} && sequence == 0
    {
      lifecycle, sequence, opening, transports := Disconnected, 0, {}, [];
      settled, resolved, greeted, owed := [0], {}, {}, {};
    }

    ghost predicate Unsettled(id: Attempt)
      reads this
    {
      match lifecycle
      case Disconnected => false
      case Connecting(current, _) => current == id
      case Connected(current, _, pending) => current == id && pending
    }

    /** Every attempt's promise has settled exactly once, but for the current attempt while it is pending, which has
        not settled; and every transport is the current one, closed, reported closed, or about to be closed. */
    ghost predicate Valid()
      reads this
    {
      && |settled| == sequence + 1
      && (lifecycle != Disconnected ==> lifecycle.id == sequence > 0)
      && (forall id :: 1 <= id <= sequence ==> settled[id] == if Unsettled(id) then 0 else 1)
      && (forall t: TransportId :: t < |transports| ==> Accounted(t))
      && (lifecycle != Disconnected && lifecycle.transport.Some? ==> lifecycle.transport.value < |transports|)
      && (lifecycle.Connected? ==> lifecycle.transport.Some?)
      && (forall id :: id in opening ==> 1 <= id <= sequence)
      && (lifecycle != Disconnected && lifecycle.id in opening ==> lifecycle == Connecting(lifecycle.id, None))
      && (forall t :: t in owed ==> t < |transports| && !IsCurrent(t))
      && Resolutions()
    }

    /** Only an attempt the server greeted is resolved, and a connected one is unless its promise is pending. */
    ghost predicate Resolutions()
      reads this
    {
      && resolved <= greeted && (forall id :: id in greeted ==> 1 <= id <= sequence)
      && (forall id :: id in resolved ==> !Unsettled(id))
      && (lifecycle.Connected? ==> lifecycle.id in greeted && (lifecycle.pending || lifecycle.id in resolved))
    }

    ghost predicate IsCurrent(t: TransportId)
      reads this
    {
      lifecycle != Disconnected && lifecycle.transport == Some(t)
    }

    ghost predicate Accounted(t: TransportId)
      requires t < |transports|
      reads this
    {
      IsCurrent(t) || transports[t].closed || transports[t].reported || t in owed
    }

    /** What every call a listener can make keeps for the methods it interrupts: attempts and transports are only
        added, what was owed still is, and the attempt under way is as it was or over. */
    ghost predicate Kept(wasLifecycle: Lifecycle, wasOwed: set<TransportId>, wasSequence: nat, wasTransports: nat)
      reads this
    {
      && Valid() && owed == wasOwed && sequence >= wasSequence && |transports| >= wasTransports
      && (lifecycle == wasLifecycle || lifecycle == Disconnected || lifecycle.id > wasSequence)
    }

    /** The attempt is over. */
    ghost predicate Over(id: Attempt)
      reads this
    {
      id <= sequence && (lifecycle == Disconnected || lifecycle.id > id)
    }

    /** A listener: it may do nothing, or call back into the connection any number of times. */
    method Listener(depth: nat)
      requires Valid()
      modifies this
      ensures Kept(old(lifecycle), old(owed), old(sequence), old(|transports|))
      ensures depth == 0 ==> Same(old(lifecycle), old(sequence), old(opening), old(transports), old(settled), old(resolved))
      decreases depth, 0
    {
      if depth == 0 {
        return;
      }
      var calls: nat := *;
      while calls > 0
        invariant Kept(old(lifecycle), old(owed), old(sequence), old(|transports|))
      {
        var connects: bool, sends: bool := *, *;
        if connects {
          var _ := Connect(depth - 1);
        } else if sends && lifecycle.Connected? {
          SendFails(lifecycle.transport.value, depth - 1);
        } else {
          Disconnect(depth - 1);
        }
        calls := calls - 1;
      }
    }

    /** Nothing has happened. */
    ghost predicate Same(l: Lifecycle, n: nat, o: set<Attempt>, ts: seq<Transport>, ss: seq<nat>, rs: set<Attempt>)
      reads this
    {
      lifecycle == l && sequence == n && opening == o && transports == ts && settled == ss && resolved == rs
    }

    /** Start an attempt; `None` when one is under way, which is left alone. */
    method Connect(depth: nat) returns (attempt: Option<Attempt>)
      requires Valid()
      modifies this
      ensures Kept(old(lifecycle), old(owed), old(sequence), old(|transports|))
      ensures attempt.Some? <==> old(lifecycle) == Disconnected
      ensures attempt.Some? ==> attempt.value == old(sequence) + 1 <= sequence && attempt.value in opening
      ensures attempt.None? ==> Same(old(lifecycle), old(sequence), old(opening), old(transports), old(settled), old(resolved))
      ensures attempt.Some? && depth == 0 ==> lifecycle == Connecting(attempt.value, None)
      decreases depth, 1
    {
      if lifecycle != Disconnected {
        return None;
      }
      sequence := sequence + 1;
      var id := sequence;
      lifecycle := Connecting(id, None);
      settled := settled + [0];
      forall t: TransportId | t < |transports|
        ensures Accounted(t)
      {
        assert old(Accounted(t));
      }
      Listener(depth);
      AskForTransport(id);
      return Some(id);
    }

    /** `fail`: the attempt's promise is rejected unless it settled before, and the state change is reported.
        `owing` is the transport the caller closes afterwards. */
    method Fail(depth: nat, ghost owing: set<TransportId>)
      requires Valid() && (forall t :: t in owing ==> IsCurrent(t))
      requires lifecycle != Disconnected && lifecycle.transport.Some? && lifecycle.transport.value !in owing
               ==> transports[lifecycle.transport.value].reported
      modifies this
      ensures Kept(old(lifecycle), old(owed) + owing, old(sequence), old(|transports|))
      ensures old(lifecycle) != Disconnected ==> Over(old(lifecycle).id)
      ensures depth == 0 ==> lifecycle == Disconnected && transports == old(transports) && resolved == old(resolved)
      decreases depth, 1
    {
      if lifecycle == Disconnected {
        return;
      }
      if lifecycle.Connecting? || lifecycle.pending {
        settled := settled[lifecycle.id := settled[lifecycle.id] + 1];
      }
      lifecycle := Disconnected;
      owed := owed + owing;
      forall t: TransportId | t < |transports|
        ensures Accounted(t)
      {
        assert old(Accounted(t));
      }
      Listener(depth);
    }

    method FailAndClose(depth: nat)
      requires Valid()
      modifies this
      ensures Kept(old(lifecycle), old(owed), old(sequence), old(|transports|))
      ensures old(lifecycle) != Disconnected ==> Over(old(lifecycle).id)
      ensures old(lifecycle) != Disconnected && old(lifecycle).transport.Some? ==> transports[old(lifecycle).transport.value].closed
      ensures depth == 0 ==> lifecycle == Disconnected && resolved == old(resolved)
      decreases depth, 2
    {
      var transport := if lifecycle == Disconnected then None else lifecycle.transport;
      if transport.None? {
        Fail(depth, {});
      } else {
        Fail(depth, {transport.value});
        Close(transport.value);
      }
    }

    method Close(t: TransportId)
      requires Valid() && t < |transports|
      modifies this`transports, this`owed
      ensures Valid() && owed == old(owed) - {t} && transports == old(transports)[t := old(transports)[t].(closed := true)]
    {
      transports := transports[t := transports[t].(closed := true)];
      owed := owed - {t};
      forall u: TransportId | u < |transports|
        ensures Accounted(u)
      {
        assert old(Accounted(u));
      }
    }

    method Disconnect(depth: nat)
      requires Valid()
      modifies this
      ensures Kept(old(lifecycle), old(owed), old(sequence), old(|transports|))
      ensures old(lifecycle) != Disconnected ==> Over(old(lifecycle).id)
      ensures old(lifecycle) == Disconnected ==>
        Same(old(lifecycle), old(sequence), old(opening), old(transports), old(settled), old(resolved))
      decreases depth, 3
    {
      if lifecycle == Disconnected {
        return;
      }
      FailAndClose(depth);
    }

    /** A send on the transport failed. */
    method SendFails(t: TransportId, depth: nat)
      requires Valid()
      modifies this
      ensures Kept(old(lifecycle), old(owed), old(sequence), old(|transports|))
      ensures old(IsCurrent(t)) ==> Over(old(lifecycle).id)
      ensures !old(IsCurrent(t)) ==>
        Same(old(lifecycle), old(sequence), old(opening), old(transports), old(settled), old(resolved))
      decreases depth, 3
    {
      if lifecycle != Disconnected && lifecycle.transport == Some(t) {
        FailAndClose(depth);
      }
    }

    /** The factory is called, even for an attempt that a listener ended meanwhile. */
    method AskForTransport(id: Attempt)
      requires Valid() && 1 <= id <= sequence
      requires lifecycle != Disconnected && lifecycle.id == id ==> lifecycle == Connecting(id, None)
      modifies this`opening
      ensures Valid() && opening == old(opening) + {id}
    {
      opening := opening + {id};
      forall t: TransportId | t < |transports|
        ensures Accounted(t)
      {
        assert old(Accounted(t));
      }
    }

    /** The factory failed. */
    method FactoryFails(id: Attempt, depth: nat)
      requires Valid() && id in opening
      modifies this
      ensures Kept(old(lifecycle), old(owed), old(sequence), old(|transports|)) && Over(id)
      decreases depth, 3
    {
      ForgetOpening(id);
      if lifecycle != Disconnected && lifecycle.id == id {
        Fail(depth, {});
      }
    }

    method ForgetOpening(id: Attempt)
      requires Valid()
      modifies this`opening
      ensures Valid() && opening == old(opening) - {id}
    {
      opening := opening - {id};
      forall t: TransportId | t < |transports|
        ensures Accounted(t)
      {
        assert old(Accounted(t));
      }
    }

    /** The factory yielded a transport: it becomes the current one if its attempt still waits for it, and is closed
        otherwise. `thrown` tells that sending the client's hello fails. */
    method TransportArrives(id: Attempt, thrown: bool, depth: nat)
      requires Valid() && id in opening
      modifies this
      ensures Valid() && owed == old(owed) && sequence >= old(sequence) && |transports| > |old(transports)|
      ensures old(Over(id)) ==> lifecycle == old(lifecycle) && transports[|old(transports)|].closed
      ensures !old(Over(id)) && !thrown ==> lifecycle == Connecting(id, Some(|old(transports)|))
      ensures !old(Over(id)) && thrown ==> Over(id) && transports[|old(transports)|].closed
      decreases depth, 3
    {
      var t := |transports|;
      var waiting := lifecycle.Connecting? && lifecycle.id == id;
      Adopt(id, waiting);
      if waiting && thrown {
        FailAndClose(depth);
      }
    }

    method Adopt(id: Attempt, waiting: bool)
      requires Valid() && id in opening && waiting == (lifecycle.Connecting? && lifecycle.id == id)
      modifies this`opening, this`transports, this`lifecycle
      ensures Valid() && opening == old(opening) - {id}
      ensures transports == old(transports) + [Transport(id, !waiting, false)]
      ensures lifecycle == if waiting then Connecting(id, Some(|old(transports)|)) else old(lifecycle)
    {
      opening := opening - {id};
      transports := transports + [Transport(id, !waiting, false)];
      if waiting {
        lifecycle := Connecting(id, Some(|transports| - 1));
      }
      forall t: TransportId | t < |transports|
        ensures Accounted(t)
      {
        assert t < |old(transports)| ==> old(Accounted(t));
      }
    }

    /** Data of an attempt's transport: `decoded` are its messages, or nothing when it is malformed. The loop stops
        when the connection ends, but goes on with a connection that a listener opened in between. */
    method HandleData(id: Attempt, decoded: Option<seq<Message>>, throwing: bool, depth: nat)
      requires Valid()
      modifies this
      ensures Valid() && owed == old(owed) && sequence >= old(sequence) && |transports| >= |old(transports)|
      ensures old(Over(id)) ==> lifecycle == old(lifecycle)
      ensures old(Awaits(id)) && (decoded.None? || old(lifecycle) == Connecting(id, None)) ==> Over(id)
      ensures depth == 0 && !throwing && old(Awaits(id)) && decoded.Some? && old(lifecycle) != Connecting(id, None) ==>
        lifecycle == HandledAll(old(lifecycle), decoded.value)
      decreases depth, 4
    {
      if lifecycle == Disconnected || lifecycle.id != id {
        return;
      }
      if lifecycle.Connecting? && lifecycle.transport.None? {
        FailAndClose(depth);
        return;
      }
      if decoded.None? {
        FailAndClose(depth);
        return;
      }
      var i := 0;
      while i < |decoded.value|
        invariant i <= |decoded.value|
        invariant Valid() && owed == old(owed) && sequence >= old(sequence) && |transports| >= |old(transports)|
        invariant depth == 0 && !throwing ==> HandledAll(lifecycle, decoded.value[i..]) == HandledAll(old(lifecycle), decoded.value)
      {
        if lifecycle == Disconnected {
          NothingHandled(decoded.value[i..]);
          return;
        }
        HandleMessage(decoded.value[i], throwing, depth);
        i := i + 1;
      }
    }

    /** The attempt is under way. */
    ghost predicate Awaits(id: Attempt)
      reads this
    {
      lifecycle != Disconnected && lifecycle.id == id
    }

    /** A message from the server; `throwing` tells that the handshake callback throws. */
    method HandleMessage(m: Message, throwing: bool, depth: nat)
      requires Valid()
      modifies this
      ensures Valid() && owed == old(owed) && sequence >= old(sequence) && |transports| >= |old(transports)|
      ensures old(lifecycle).Connecting? && (m != Hello || old(lifecycle).transport.None?) ==> Over(old(lifecycle).id)
      ensures old(lifecycle).Connected? && m != Other ==> Over(old(lifecycle).id)
      ensures depth == 0 && old(lifecycle).Connecting? && old(lifecycle).transport.Some? && m == Hello && !throwing ==>
        && lifecycle == Connected(old(lifecycle).id, old(lifecycle).transport, false)
        && settled[lifecycle.id] == 1 && lifecycle.id in resolved
      ensures old(lifecycle).Connecting? ==>
        Over(old(lifecycle).id)
        || (m == Hello && lifecycle == Connected(old(lifecycle).id, old(lifecycle).transport, false) && lifecycle.id in resolved)
      ensures depth == 0 && !throwing ==> lifecycle == Handled(old(lifecycle), m)
      decreases depth, 3
    {
      if lifecycle.Connecting? {
        if m != Hello || lifecycle.transport.None? {
          FailAndClose(depth);
          return;
        }
        HandleHello(throwing, depth);
        return;
      }
      if lifecycle == Disconnected {
        return;
      }
      if m != Other {
        FailAndClose(depth);
        return;
      }
      Listener(depth);
    }

    /** The server's hello: the promise is resolved after both callbacks, unless one of them ends the attempt. */
    method HandleHello(throwing: bool, depth: nat)
      requires Valid() && lifecycle.Connecting? && lifecycle.transport.Some?
      modifies this
      ensures Valid() && owed == old(owed) && sequence >= old(sequence) && |transports| >= |old(transports)|
      ensures Over(old(lifecycle).id)
              || (lifecycle == Connected(old(lifecycle).id, old(lifecycle).transport, false) && lifecycle.id in resolved)
      ensures depth == 0 && !throwing ==> !Over(old(lifecycle).id) && settled[lifecycle.id] == 1
      decreases depth, 2
    {
      var connected := Connected(lifecycle.id, lifecycle.transport, true);
      Become(connected);
      Listener(depth);
      if throwing {
        if lifecycle == connected {
          FailAndClose(depth);
        }
        return;
      }
      if lifecycle != connected {
        return;
      }
      Listener(depth);
      if lifecycle != connected {
        return;
      }
      Resolve();
    }

    /** The attempt goes from connecting to connected, its promise still pending. */
    method Become(connected: Lifecycle)
      requires Valid() && lifecycle.Connecting? && lifecycle.transport.Some?
      requires connected == Connected(lifecycle.id, lifecycle.transport, true)
      modifies this`lifecycle, this`greeted
      ensures Valid() && lifecycle == connected && greeted == old(greeted) + {connected.id}
    {
      greeted := greeted + {lifecycle.id};
      lifecycle := connected;
      forall t: TransportId | t < |transports|
        ensures Accounted(t)
      {
        assert old(Accounted(t));
      }
    }

    /** The pending promise of the connected attempt is resolved. */
    method Resolve()
      requires Valid() && lifecycle.Connected? && lifecycle.pending
      modifies this`lifecycle, this`settled, this`resolved
      ensures Valid() && lifecycle == old(lifecycle).(pending := false)
      ensures settled[lifecycle.id] == 1 && resolved == old(resolved) + {lifecycle.id}
    {
      settled := settled[lifecycle.id := settled[lifecycle.id] + 1];
      resolved := resolved + {lifecycle.id};
      lifecycle := lifecycle.(pending := false);
      forall t: TransportId | t < |transports|
        ensures Accounted(t)
      {
        assert old(Accounted(t));
      }
    }

    /** The transport of an attempt reported its end. */
    method HandleClose(id: Attempt, depth: nat)
      requires Valid() && 1 <= id <= sequence
      modifies this
      ensures Valid() && owed == old(owed) && sequence >= old(sequence) && |transports| >= |old(transports)| && Over(id)
      decreases depth, 3
    {
      if lifecycle != Disconnected && lifecycle.id == id {
        if lifecycle.transport.Some? {
          Report(lifecycle.transport.value);
        }
        Fail(depth, {});
      }
    }

    method Report(t: TransportId)
      requires Valid() && t < |transports|
      modifies this`transports
      ensures Valid() && transports == old(transports)[t := old(transports)[t].(reported := true)]
    {
      transports := transports[t := transports[t].(reported := true)];
      forall u: TransportId | u < |transports|
        ensures Accounted(u)
      {
        assert old(Accounted(u));
      }
    }

    /** The transport of an attempt reported an error. */
    method HandleError(id: Attempt, depth: nat)
      requires Valid() && 1 <= id <= sequence
      modifies this
      ensures Kept(old(lifecycle), old(owed), old(sequence), old(|transports|)) && Over(id)
      decreases depth, 3
    {
      if lifecycle != Disconnected && lifecycle.id == id {
        FailAndClose(depth);
      }
    }
  }

  /** What a message makes of a connection whose listeners and callbacks do not interfere. */
  function Handled(l: Lifecycle, m: Message): Lifecycle {
    match l
    case Disconnected => Disconnected
    case Connecting(id, transport) => if m == Hello && transport.Some? then Connected(id, transport, false) else Disconnected
    case Connected(_, _, _) => if m == Other then l else Disconnected
  }

  function HandledAll(l: Lifecycle, messages: seq<Message>): Lifecycle
    decreases |messages|
  {
    if messages == [] then l else HandledAll(Handled(l, messages[0]), messages[1..])
  }

  lemma {:induction false} NothingHandled(messages: seq<Message>)
    ensures HandledAll(Disconnected, messages) == Disconnected
    decreases |messages|
  {
    if messages != [] {
      NothingHandled(messages[1..]);
    }
  }

  /** Left alone by its listeners, a connection survives exactly a hello followed by nothing but other messages. */
  lemma {:induction false} SurvivesIff(l: Lifecycle, messages: seq<Message>)
    requires l != Disconnected
    ensures HandledAll(l, messages) != Disconnected
            <==> forall i :: 0 <= i < |messages| ==>
                   if i == 0 && l.Connecting? then messages[i] == Hello && l.transport.Some? else messages[i] == Other
    decreases |messages|
  {
    if messages != [] {
      var next, rest := Handled(l, messages[0]), messages[1..];
      if next == Disconnected {
        NothingHandled(rest);
      } else {
        SurvivesIff(next, rest);
        assert forall i :: 0 <= i < |rest| ==> messages[i + 1] == rest[i];
      }
    }
  }

  /** What reaches a connection from outside. */
  datatype Input =
    | Connects
    | Disconnects
    | Yields(id: Attempt, thrown: bool)
    | FactoryFailed(id: Attempt)
    | Data(id: Attempt, decoded: Option<seq<Message>>, throwing: bool)
    | Closed(id: Attempt)
    | Errored(id: Attempt)
    | SendFailed(transport: TransportId)

  /** Whatever reaches a connection, in any order, and whatever its listeners do at any depth: each attempt's promise
      settles at most once, has settled exactly once when the attempt is over, and is resolved only when the server greeted
      it; each transport the factory
      yielded is the current one, was closed by the client, or reported its own end. */
  method Drive(inputs: seq<Input>, depth: nat) returns (c: Connection)
    ensures fresh(c) && c.Valid() && c.owed == {}
    ensures forall id :: 1 <= id <= c.sequence ==> c.settled[id] <= 1 && (c.Over(id) ==> c.settled[id] == 1)
    ensures c.resolved <= c.greeted && (c.lifecycle.Connected? && !c.lifecycle.pending ==> c.lifecycle.id in c.resolved)
    ensures forall t: TransportId :: t < |c.transports| ==> c.IsCurrent(t) || c.transports[t].closed || c.transports[t].reported
  {
    c := new Connection();
    var i := 0;
    while i < |inputs|
      invariant fresh(c) && c.Valid() && c.owed == {}
    {
      var input := inputs[i];
      i := i + 1;
      if input.Connects? {
        var _ := c.Connect(depth);
      } else if input.Disconnects? {
        c.Disconnect(depth);
      } else if input.Data? {
        c.HandleData(input.id, input.decoded, input.throwing, depth);
      } else if input.SendFailed? {
        c.SendFails(input.transport, depth);
      } else if input.Yields? || input.FactoryFailed? {
        if input.id in c.opening {
          if input.Yields? {
            c.TransportArrives(input.id, input.thrown, depth);
          } else {
            c.FactoryFails(input.id, depth);
          }
        }
      } else if 1 <= input.id <= c.sequence {
        if input.Closed? {
          c.HandleClose(input.id, depth);
        } else {
          c.HandleError(input.id, depth);
        }
      }
    }
    forall t: TransportId | t < |c.transports|
      ensures c.IsCurrent(t) || c.transports[t].closed || c.transports[t].reported
    {
      assert c.Accounted(t);
    }
  }
}
