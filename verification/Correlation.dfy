/** The handshake and request protocol between one client and its server connection, over two FIFO channels.
    Every segment between two awaits is one atomic step. */
module Correlation {

  import opened Wrappers

  datatype Request = Request(id: nat, command: string)

  datatype ClientMessage = ClientHello(supported: bool) | Ask(request: Request)

  /** A response names the request it answers; `ok` tells a result from an error. */
  datatype ServerMessage = Hello | HelloError | Response(request: Request, ok: bool) | Event

  // ---------------------------------------------------------------------------------------------
  // The server's side of a connection
  // ---------------------------------------------------------------------------------------------

  datatype Stage = AwaitingHello | Handshaking | Ready | Closing | Closed

  /** How far `finishHandshake` has come; `Greeting` awaits the sending of hello. */
  datatype Phase = NotStarted | Snapshotting | Greeting(taken: bool) | CatchingUp | Finished

  /** `queued` are the requests that wait for the handshake to settle, `running` those being executed, and `sent`
      the frames sent. */
  datatype Server = Server(
    stage: Stage, disconnected: bool, handshakeComplete: bool, phase: Phase,
    queued: seq<Request>, running: multiset<Request>, sent: seq<ServerMessage>)

  const NEW_SERVER := Server(AwaitingHello, false, false, NotStarted, [], multiset{}, [])

  predicate Terminal(s: Server) { s.disconnected || s.stage in {Closing, Closed} }

  /** `sendMessage`: the frame goes out unless the connection is gone or the transport does not take it. */
  function Send(s: Server, m: ServerMessage, taken: bool): Server {
    if s.disconnected || !taken then s else s.(sent := s.sent + [m])
  }

  function AfterFailure(s: Server, taken: bool): Server {
    if Terminal(s) then s
    else s.(stage := Closing, sent := if taken then s.sent + [HelloError] else s.sent)
  }

  function AfterDisconnect(s: Server): Server {
    if s.disconnected then s else s.(disconnected := true, stage := Closed)
  }

  /** `dispatchMessage` for a message received on a live connection. */
  function Dispatch(s: Server, m: ClientMessage, taken: bool): Server {
    if Terminal(s) then s
    else if s.stage == AwaitingHello then
      if m.Ask? then AfterFailure(s, taken)
      else if !m.supported then AfterFailure(s.(stage := Handshaking, phase := Finished), taken)
      else s.(stage := Handshaking, phase := Snapshotting)
    else if m.ClientHello? then AfterFailure(s, taken)
    else if s.stage == Ready then s.(running := s.running + multiset{m.request})
    else s.(queued := s.queued + [m.request])
  }

  /** The handshake's snapshot arrived. */
  function Greet(s: Server, closing: bool, taken: bool): Server
    requires s.phase == Snapshotting
  {
    if closing || s.disconnected || s.stage != Handshaking then s.(phase := Finished)
    else Send(s, Hello, taken).(phase := Greeting(taken))
  }

  /** The sending of hello settled. */
  function Greeted(s: Server, ok: bool, stale: bool): Server
    requires s.phase.Greeting?
  {
    if ok && !s.disconnected && s.stage == Handshaking then
      s.(handshakeComplete := true, stage := Ready, phase := if stale then CatchingUp else Finished)
    else s.(phase := Finished)
  }

  /** A request that waited for the handshake is executed if the connection became ready. */
  function Resume(s: Server): Server
    requires s.queued != []
  {
    var r := s.queued[0];
    s.(queued := s.queued[1..],
       running := if s.stage == Ready && !s.disconnected then s.running + multiset{r} else s.running)
  }

  /** The command of a running request settled. */
  function Answer(s: Server, r: Request, ok: bool, taken: bool): Server {
    Send(s.(running := s.running - multiset{r}), Response(r, ok), taken)
  }

  datatype ServerAction =
    | Receive(m: ClientMessage, taken: bool)
    | Malformed(taken: bool)
    | HandshakeTimeout(taken: bool)
    | SnapshotArrives(closing: bool, taken: bool)
    | HelloSettles(ok: bool, stale: bool)
    | CaughtUp(taken: bool)
    | HandshakeThrows(taken: bool)
    | HandshakeResolves
    | CommandSettles(r: Request, ok: bool, taken: bool)
    | Publish(taken: bool)
    | CloseServer
    | TransportCloses

  predicate ServerEnabled(s: Server, a: ServerAction) {
    match a
    case SnapshotArrives(_, _) => s.phase == Snapshotting
    case HelloSettles(ok, _) => s.phase.Greeting? && (ok ==> s.phase.taken)
    case CaughtUp(_) => s.phase == CatchingUp
    case HandshakeThrows(_) => s.phase in {Snapshotting, CatchingUp}
    case HandshakeResolves => s.phase == Finished && s.queued != []
    case CommandSettles(r, _, _) => r in s.running
    case Publish(_) => s.handshakeComplete
    case Receive(_, _) => true
    case Malformed(_) => true
    case HandshakeTimeout(_) => !s.handshakeComplete
    case CloseServer => true
    case TransportCloses => true
  }

  function ServerNext(s: Server, a: ServerAction): Server
    requires ServerEnabled(s, a)
  {
    match a
    case Receive(m, taken) => Dispatch(s, m, taken)
    case Malformed(taken) => AfterFailure(s, taken)
    case HandshakeTimeout(taken) => AfterFailure(s, taken)
    case SnapshotArrives(closing, taken) => Greet(s, closing, taken)
    case HelloSettles(ok, stale) => Greeted(s, ok, stale)
    case CaughtUp(taken) => Send(s, Event, taken).(phase := Finished)
    case HandshakeThrows(taken) => AfterFailure(s, taken).(phase := Finished)
    case HandshakeResolves => Resume(s)
    case CommandSettles(r, ok, taken) => Answer(s, r, ok, taken)
    case Publish(taken) => Send(s, Event, taken)
    case CloseServer => if s.disconnected then s else s.(stage := Closing)
    case TransportCloses => AfterDisconnect(s)
  }

  predicate Greets(m: ServerMessage) { m == Hello || m == HelloError }

  /** The frames sent so far: nothing but a greeting comes first, hello comes at most once and only first, and
      responses and events come only after a hello. */
  ghost predicate Orderly(sent: seq<ServerMessage>) {
    && (sent != [] ==> Greets(sent[0]))
    && (forall i :: 0 < i < |sent| ==> sent[i] != Hello)
    && (forall i :: 0 <= i < |sent| && !Greets(sent[i]) ==> sent[0] == Hello)
  }

  ghost predicate ServerInv(s: Server) {
    && Orderly(s.sent)
    && (s.handshakeComplete ==> s.sent != [] && s.sent[0] == Hello && s.phase in {CatchingUp, Finished})
    && (s.stage == Ready ==> s.handshakeComplete)
    && (s.running != multiset{} ==> s.handshakeComplete)
    && (s.phase == CatchingUp ==> s.handshakeComplete)
    && (s.phase == Greeting(true) ==> s.sent != [] && s.sent[0] == Hello)
    && (s.stage == AwaitingHello ==> s.phase == NotStarted && s.queued == [])
    && (s.stage in {AwaitingHello, Handshaking} && s.phase in {NotStarted, Snapshotting} ==> s.sent == [])
    && (s.stage == Handshaking && s.phase.Greeting? && !s.phase.taken ==> s.sent == [])
    && (s.stage == Handshaking && s.phase == Finished ==> s.sent == [] || Greets(s.sent[0]))
  }

  lemma OrderlyNext(sent: seq<ServerMessage>, m: ServerMessage)
    requires Orderly(sent)
    requires if m == Hello then sent == [] else m == HelloError || (sent != [] && sent[0] == Hello)
    ensures Orderly(sent + [m])
  {
  }

  /** Every step of the server keeps its invariant. */
  lemma ServerKeeps(s: Server, a: ServerAction)
    requires ServerInv(s) && ServerEnabled(s, a)
    ensures ServerInv(ServerNext(s, a))
  {
    var s' := ServerNext(s, a);
    if s'.sent != s.sent {
      OrderlyNext(s.sent, s'.sent[|s.sent|]);
      assert s'.sent == s.sent + [s'.sent[|s.sent|]];
    }
  }

  function Answered(sent: seq<ServerMessage>): seq<Request> {
    if sent == [] then []
    else Answered(sent[..|sent| - 1]) + if sent[|sent| - 1].Response? then [sent[|sent| - 1].request] else []
  }

  lemma AnsweredNext(sent: seq<ServerMessage>, m: ServerMessage)
    ensures Answered(sent + [m]) == Answered(sent) + if m.Response? then [m.request] else []
  {
    assert (sent + [m])[..|sent|] == sent;
  }

  lemma {:induction false} AnsweredFirst(m: ServerMessage, sent: seq<ServerMessage>)
    ensures Answered([m] + sent) == (if m.Response? then [m.request] else []) + Answered(sent)
  {
    if sent == [] {
      assert [m] + sent == [] + [m];
      AnsweredNext([], m);
    } else {
      var init, last := sent[..|sent| - 1], sent[|sent| - 1];
      AnsweredFirst(m, init);
      AnsweredNext([m] + init, last);
      assert [m] + sent == ([m] + init) + [last] && sent == init + [last];
    }
  }

  /** The requests a server has yet to answer. */
  ghost function Owed(s: Server): multiset<Request> { multiset(s.queued) + s.running }

  ghost function Arriving(a: ServerAction): multiset<Request> {
    if a.Receive? && a.m.Ask? then multiset{a.m.request} else multiset{}
  }

  /** The frames a step adds. */
  function Fresh(before: seq<ServerMessage>, after: seq<ServerMessage>): seq<ServerMessage> {
    if |before| <= |after| then after[|before|..] else []
  }

  function OneAnswer(m: ServerMessage): multiset<Request> { if m.Response? then multiset{m.request} else multiset{} }

  /** A step sends at most one frame. */
  lemma SendsAtMostOne(s: Server, a: ServerAction)
    requires ServerEnabled(s, a)
    ensures var s' := ServerNext(s, a); s'.sent == s.sent || (|s'.sent| == |s.sent| + 1 && s'.sent[..|s.sent|] == s.sent)
  {
  }

  /** The same step, in terms of the requests it takes up and answers. */
  lemma AnswersOnlyOwed(s: Server, a: ServerAction)
    requires ServerEnabled(s, a)
    ensures Owed(ServerNext(s, a)) + NewAnswer(s, ServerNext(s, a)) <= Owed(s) + Arriving(a)
  {
    var s' := ServerNext(s, a);
    if a.HandshakeResolves? {
      Resumes(s.queued, s.running, s'.running);
    } else if a.CommandSettles? {
      Settles(multiset(s.queued), s.running, a.r, NewAnswer(s, s'));
    } else {
      AnswersNothing(s, a);
      TakesUp(s.queued, s.running, s'.queued, s'.running, Arriving(a));
    }
  }

  lemma Resumes(queued: seq<Request>, running: multiset<Request>, running': multiset<Request>)
    requires queued != [] && (running' == running || running' == running + multiset{queued[0]})
    ensures multiset(queued[1..]) + running' <= multiset(queued) + running
  {
    assert queued == [queued[0]] + queued[1..];
  }

  lemma Settles(queued: multiset<Request>, running: multiset<Request>, r: Request, answer: multiset<Request>)
    requires r in running && (answer == multiset{} || answer == multiset{r})
    ensures queued + (running - multiset{r}) + answer <= queued + running
  {
  }

  lemma TakesUp(queued: seq<Request>, running: multiset<Request>, queued': seq<Request>, running': multiset<Request>,
                arriving: multiset<Request>)
    requires (queued' == queued && running' == running)
             || (queued' == queued && running' == running + arriving)
             || (running' == running && exists r :: queued' == queued + [r] && arriving == multiset{r})
    ensures multiset(queued') + running' <= multiset(queued) + running + arriving
  {
  }

  lemma DispatchTakesUp(s: Server, m: ClientMessage, taken: bool)
    ensures var s' := Dispatch(s, m, taken);
            && NewAnswer(s, s') == multiset{}
            && ((s'.queued == s.queued && s'.running == s.running)
                || (m.Ask? && s'.queued == s.queued && s'.running == s.running + multiset{m.request})
                || (m.Ask? && s'.queued == s.queued + [m.request] && s'.running == s.running))
  {
  }

  lemma AnswersNothing(s: Server, a: ServerAction)
    requires ServerEnabled(s, a) && !a.HandshakeResolves? && !a.CommandSettles?
    ensures var s' := ServerNext(s, a);
            && NewAnswer(s, s') == multiset{}
            && ((s'.queued == s.queued && s'.running == s.running)
                || (s'.queued == s.queued && s'.running == s.running + Arriving(a))
                || (a.Receive? && a.m.Ask? && s'.queued == s.queued + [a.m.request] && s'.running == s.running))
  {
    if a.Receive? {
      DispatchTakesUp(s, a.m, a.taken);
    }
  }

  /** On a connection that lives on, no request is lost either: what is received is owed until it is answered, when
      frames are taken and the requests held back are resumed on a ready connection. */
  lemma RequestsConserved(s: Server, a: ServerAction)
    requires ServerEnabled(s, a) && !Terminal(s) && !Terminal(ServerNext(s, a))
    requires (a.HandshakeResolves? ==> s.stage == Ready) && (a.CommandSettles? ==> a.taken)
    ensures Owed(ServerNext(s, a)) + NewAnswer(s, ServerNext(s, a)) == Owed(s) + Arriving(a)
  {
    var s' := ServerNext(s, a);
    if a.HandshakeResolves? {
      MovesFirst(s.queued, s.running);
    } else if a.CommandSettles? {
      assert s'.queued == s.queued && s'.running == s.running - multiset{a.r} && NewAnswer(s, s') == multiset{a.r};
      Answers(multiset(s.queued), s.running, a.r);
    } else {
      AnswersNothing(s, a);
      assert a.Receive? && a.m.Ask? ==> s.stage in {Handshaking, Ready};
    }
  }

  lemma MovesFirst(queued: seq<Request>, running: multiset<Request>)
    requires queued != []
    ensures multiset(queued[1..]) + (running + multiset{queued[0]}) == multiset(queued) + running
  {
    assert queued == [queued[0]] + queued[1..];
  }

  lemma Answers(queued: multiset<Request>, running: multiset<Request>, r: Request)
    requires r in running
    ensures queued + (running - multiset{r}) + multiset{r} == queued + running
  {
  }

  /** The request answered by a step, if any. */
  ghost function NewAnswer(s: Server, s': Server): multiset<Request> {
    if |s'.sent| == |s.sent| + 1 then OneAnswer(s'.sent[|s.sent|]) else multiset{}
  }

  /** A server run from a fresh connection. */
  ghost predicate ServerRun(states: seq<Server>, actions: seq<ServerAction>) {
    && |states| == |actions| + 1 && states[0] == NEW_SERVER
    && forall i :: 0 <= i < |actions| ==>
         ServerEnabled(states[i], actions[i]) && states[i + 1] == ServerNext(states[i], actions[i])
  }

  ghost function AllArriving(actions: seq<ServerAction>): multiset<Request> {
    if actions == [] then multiset{} else AllArriving(actions[..|actions| - 1]) + Arriving(actions[|actions| - 1])
  }

  /** Over every run against any client: the frames are orderly, commands run only on a connection whose handshake
      completed, and each request received is answered at most once. */
  lemma {:induction false} ServerSafety(states: seq<Server>, actions: seq<ServerAction>)
    requires ServerRun(states, actions)
    ensures var s := states[|actions|];
            && ServerInv(s)
            && Owed(s) + multiset(Answered(s.sent)) <= AllArriving(actions)
  {
    if actions == [] {
      assert Owed(NEW_SERVER) == multiset{};
    } else {
      var n := |actions| - 1;
      assert ServerRun(states[..n + 1], actions[..n]);
      ServerSafety(states[..n + 1], actions[..n]);
      ServerStep(states[n], actions[n], AllArriving(actions[..n]));
    }
  }

  lemma ServerStep(s: Server, a: ServerAction, before: multiset<Request>)
    requires ServerInv(s) && ServerEnabled(s, a) && Owed(s) + multiset(Answered(s.sent)) <= before
    ensures var s' := ServerNext(s, a); ServerInv(s') && Owed(s') + multiset(Answered(s'.sent)) <= before + Arriving(a)
  {
    var s' := ServerNext(s, a);
    ServerKeeps(s, a);
    SendsAtMostOne(s, a);
    AnswersOnlyOwed(s, a);
    AnsweredGrows(s, s');
    Adds(Owed(s'), multiset(Answered(s'.sent)), Owed(s), multiset(Answered(s.sent)), NewAnswer(s, s'), Arriving(a), before);
  }

  lemma AnsweredGrows(s: Server, s': Server)
    requires s'.sent == s.sent || (|s'.sent| == |s.sent| + 1 && s'.sent[..|s.sent|] == s.sent)
    ensures multiset(Answered(s'.sent)) == multiset(Answered(s.sent)) + NewAnswer(s, s')
  {
    if s'.sent != s.sent {
      assert s'.sent == s.sent + [s'.sent[|s.sent|]];
      AnsweredNext(s.sent, s'.sent[|s.sent|]);
    }
  }

  lemma Adds<T>(owed': multiset<T>, answered': multiset<T>, owed: multiset<T>, answered: multiset<T>, added: multiset<T>,
                arriving: multiset<T>, before: multiset<T>)
    requires answered' == answered + added && owed' + added <= owed + arriving && owed + answered <= before
    ensures owed' + answered' <= before + arriving
  {
    forall x
      ensures (owed' + answered')[x] <= (before + arriving)[x]
    {
      assert (owed' + added)[x] <= (owed + arriving)[x] && (owed + answered)[x] <= before[x];
    }
  }

  /** What a response says of the request it answers. */
  datatype Reply = Reply(request: Request, ok: bool)

  /** The responses among the frames sent. */
  ghost function Replies(sent: seq<ServerMessage>): seq<Reply> {
    if sent == [] then []
    else
      var last := sent[|sent| - 1];
      Replies(sent[..|sent| - 1]) + if last.Response? then [Reply(last.request, last.ok)] else []
  }

  /** How the commands of a run settled, those whose frame was taken while the connection was there. */
  ghost function Results(states: seq<Server>, actions: seq<ServerAction>): seq<Reply>
    requires |states| >= |actions|
  {
    if actions == [] then []
    else
      var n := |actions| - 1;
      Results(states[..n], actions[..n])
      + if actions[n].CommandSettles? && actions[n].taken && !states[n].disconnected
        then [Reply(actions[n].r, actions[n].ok)] else []
  }

  /** Over every run the responses sent are, in their order, exactly the results of the commands that settled: a command
      that fails is never answered as a success, nor the other way round. */
  lemma {:induction false} ResponsesAreResults(states: seq<Server>, actions: seq<ServerAction>)
    requires ServerRun(states, actions)
    ensures Replies(states[|actions|].sent) == Results(states, actions)
  {
    if actions != [] {
      var n := |actions| - 1;
      assert ServerRun(states[..n + 1], actions[..n]);
      ResponsesAreResults(states[..n + 1], actions[..n]);
      ResultsOf(states, actions[..n], n + 1);
      ResultsOf(states, actions[..n], n);
      ReplyStep(states[n], actions[n]);
    }
  }

  lemma {:induction false} ResultsOf(states: seq<Server>, actions: seq<ServerAction>, k: nat)
    requires |actions| <= k <= |states|
    ensures Results(states[..k], actions) == Results(states, actions)
  {
    if actions != [] {
      var n := |actions| - 1;
      assert states[..k][..n] == states[..n];
    }
  }

  lemma RepliesNext(sent: seq<ServerMessage>, m: ServerMessage)
    ensures Replies(sent + [m]) == Replies(sent) + if m.Response? then [Reply(m.request, m.ok)] else []
  {
    assert (sent + [m])[..|sent|] == sent;
  }

  lemma ReplyStep(s: Server, a: ServerAction)
    requires ServerEnabled(s, a)
    ensures Replies(ServerNext(s, a).sent)
            == Replies(s.sent)
               + if a.CommandSettles? && a.taken && !s.disconnected then [Reply(a.r, a.ok)] else []
  {
    var s' := ServerNext(s, a);
    SendsAtMostOne(s, a);
    if s'.sent != s.sent {
      assert s'.sent == s.sent + [s'.sent[|s.sent|]];
      RepliesNext(s.sent, s'.sent[|s.sent|]);
    }
  }

  /** A message that breaks the protocol at a stage of the connection. */
  ghost predicate Violates(stage: Stage, m: ClientMessage) {
    if stage == AwaitingHello then m.Ask? || !m.supported else m.ClientHello?
  }

  /** A connection that is neither gone nor closing is closed by exactly these steps, and but for the server's own close
      they tell the client so. */
  lemma FailureStep(s: Server, a: ServerAction)
    requires ServerEnabled(s, a) && !Terminal(s)
    ensures var s' := ServerNext(s, a);
            && (s'.stage == Closing
                <==> || a.Malformed? || a.HandshakeTimeout? || a.HandshakeThrows? || a.CloseServer?
                     || (a.Receive? && Violates(s.stage, a.m)))
            && (s'.stage == Closing && !a.CloseServer? ==> s'.sent == s.sent + if a.taken then [HelloError] else [])
            && (s'.disconnected <==> a.TransportCloses?)
  {
  }

  /** A connection that is gone or closing stays so, and starts no command. */
  lemma TerminalStep(s: Server, a: ServerAction)
    requires ServerEnabled(s, a) && Terminal(s)
    ensures Terminal(ServerNext(s, a)) && ServerNext(s, a).running <= s.running
    ensures s.disconnected ==> ServerNext(s, a).disconnected && ServerNext(s, a).sent == s.sent
  {
  }

  /** It becomes ready when its hello was sent and it is still shaking hands, and then has completed its handshake. */
  lemma ReadyStep(s: Server, a: ServerAction)
    requires ServerEnabled(s, a) && s.stage != Ready
    ensures ServerNext(s, a).stage == Ready <==> a.HelloSettles? && a.ok && !s.disconnected && s.stage == Handshaking
    ensures ServerNext(s, a).stage == Ready ==> ServerNext(s, a).handshakeComplete
  {
  }

  // ---------------------------------------------------------------------------------------------
  // The client
  // ---------------------------------------------------------------------------------------------

  datatype ClientState = Offline | Connecting | Connected

  datatype Failure =
    | NoMatchingRequest
    | CommandMismatch
    | NotAHello
    | UnexpectedHandshake(m: ServerMessage)
    | Refused
    | Lost

  /** `settled` are the ids whose promise has settled, `resolved` those settled with a result, and `twice` tells that a
      promise was settled again. */
  datatype Client = Client(
    state: ClientState, pending: map<nat, string>, sequence: nat, settled: set<nat>, resolved: set<nat>, twice: bool,
    failure: Option<Failure>)

  const NEW_CLIENT := Client(Offline, map[], 0, {}, {}, false, None)

  function AfterSettling(c: Client, id: nat): Client {
    c.(settled := c.settled + {id}, twice := c.twice || id in c.settled)
  }

  function RejectPending(c: Client): Client {
    c.(pending := map[], settled := c.settled + c.pending.Keys, twice := c.twice || c.settled * c.pending.Keys != {})
  }

  /** `fail`, and the rejection of every pending request by the state change it reports. */
  function AfterFail(c: Client, why: Failure): Client {
    if c.state == Offline then c else RejectPending(c.(state := Offline, failure := Some(why)))
  }

  /** A request on a connected client: a frame that cannot be encoded settles its promise at once. */
  function Issue(c: Client, command: string, encodes: bool): Client {
    var id := c.sequence + 1;
    var c' := c.(sequence := id);
    if encodes then c'.(pending := c.pending[id := command]) else AfterSettling(c', id)
  }

  function AfterResponse(c: Client, r: Request, ok: bool): Client {
    if r.id !in c.pending then AfterFail(c, NoMatchingRequest)
    else
      var c' := AfterSettling(c.(pending := c.pending - {r.id}), r.id);
      if !ok then c'
      else if r.command != c.pending[r.id] then AfterFail(c', CommandMismatch)
      else c'.(resolved := c.resolved + {r.id})
  }

  function AfterMessage(c: Client, m: ServerMessage): Client {
    match c.state
    case Offline => c
    case Connecting =>
      if m == HelloError then AfterFail(c, Refused) else if m == Hello then c.(state := Connected) else AfterFail(c, NotAHello)
    case Connected =>
      if Greets(m) then AfterFail(c, UnexpectedHandshake(m))
      else if m.Event? then c
      else AfterResponse(c, m.request, m.ok)
  }

  // ---------------------------------------------------------------------------------------------
  // The system
  // ---------------------------------------------------------------------------------------------

  /** `stale` are messages of an earlier connection whose data is still being handled: a listener disconnected and
      connected again in the middle of it. `tainted` tells that this ever happened. */
  datatype System = System(
    client: Client, server: Server, up: seq<ClientMessage>, down: seq<ServerMessage>,
    stale: seq<ServerMessage>, tainted: bool)

  const IDLE := System(NEW_CLIENT, NEW_SERVER, [], [], [], false)

  /** `left` is the number of messages still to be handled by the loop that the connecting listener interrupts. */
  datatype Action =
    | Connect(supported: bool, left: nat)
    | Issues(command: string, encodes: bool)
    | Delivers
    | DeliversStale
    | LosesConnection
    | Serves(a: ServerAction)

  /** What a loop over a batch has left: of an earlier connection, or of this one once a message was handled. */
  function LeftOver(s: System): seq<ServerMessage> {
    if s.stale != [] then s.stale else if |s.down| < |s.server.sent| then s.down else []
  }

  /** The loop that was interrupted goes on before anything else reaches the client. */
  predicate Enabled(s: System, a: Action) {
    match a
    case Connect(_, left) => s.client.state == Offline && left <= |LeftOver(s)|
    case Issues(_, _) => s.client.state == Connected && s.stale == []
    case Delivers => s.client.state != Offline && s.stale == [] && s.down != []
    case DeliversStale => s.client.state != Offline && s.stale != []
    case LosesConnection => true
    case Serves(b) => ServerEnabled(s.server, b) && (b.Receive? ==> s.up != [] && b.m == s.up[0])
  }

  function Next(s: System, a: Action): System
    requires Enabled(s, a)
  {
    match a
    case Connect(supported, left) =>
      System(s.client.(state := Connecting, failure := None), NEW_SERVER, [ClientHello(supported)], [],
             LeftOver(s)[..left], s.tainted || left > 0)
    case Issues(command, encodes) =>
      var c := Issue(s.client, command, encodes);
      s.(client := c, up := if encodes then s.up + [Ask(Request(c.sequence, command))] else s.up)
    case Delivers => s.(client := AfterMessage(s.client, s.down[0]), down := s.down[1..])
    case DeliversStale => s.(client := AfterMessage(s.client, s.stale[0]), stale := s.stale[1..])
    case LosesConnection => s.(client := AfterFail(s.client, Lost))
    case Serves(b) =>
      var server := ServerNext(s.server, b);
      s.(server := server,
         up := if b.Receive? then s.up[1..] else s.up,
         down := s.down + Fresh(s.server.sent, server.sent))
  }

  function Asked(up: seq<ClientMessage>): seq<Request> {
    if up == [] then [] else Asked(up[..|up| - 1]) + if up[|up| - 1].Ask? then [up[|up| - 1].request] else []
  }

  lemma AskedNext(up: seq<ClientMessage>, m: ClientMessage)
    ensures Asked(up + [m]) == Asked(up) + if m.Ask? then [m.request] else []
  {
    assert (up + [m])[..|up|] == up;
  }

  lemma {:induction false} AskedFirst(m: ClientMessage, up: seq<ClientMessage>)
    ensures Asked([m] + up) == (if m.Ask? then [m.request] else []) + Asked(up)
  {
    if up == [] {
      assert [m] + up == [] + [m];
      AskedNext([], m);
    } else {
      var init, last := up[..|up| - 1], up[|up| - 1];
      AskedFirst(m, init);
      AskedNext([m] + init, last);
      assert [m] + up == ([m] + init) + [last] && up == init + [last];
    }
  }

  /** The requests under way: on the way up, held by the server, and answered on the way down. */
  ghost function InFlight(s: System): multiset<Request> {
    multiset(Asked(s.up)) + Owed(s.server) + multiset(Answered(s.down))
  }

  ghost predicate Pending(c: Client, r: Request) { r.id in c.pending && c.pending[r.id] == r.command }

  ghost predicate Matched(c: Client, flight: multiset<Request>) {
    forall r :: r in flight ==> Pending(c, r) && flight[r] == 1
  }

  ghost predicate ClientInv(c: Client) {
    && !c.twice
    && c.pending.Keys !! c.settled
    && (forall id :: id in c.pending ==> id <= c.sequence)
    && (forall id :: id in c.settled ==> id <= c.sequence)
    && (c.state == Offline ==> c.pending == map[])
    && (c.failure.Some? ==> c.failure.value in {Refused, Lost, NotAHello, UnexpectedHandshake(HelloError)})
  }

  /** The channel down holds the frames sent and not yet delivered. */
  ghost predicate Suffix(sent: seq<ServerMessage>, down: seq<ServerMessage>) {
    |down| <= |sent| && down == sent[|sent| - |down|..]
  }

  ghost predicate Channel(c: Client, sent: seq<ServerMessage>, down: seq<ServerMessage>) {
    && Suffix(sent, down)
    && (c.state == Connecting ==> |down| == |sent|)
    && (c.state == Connected ==> |down| < |sent|)
  }

  ghost predicate Inv(s: System) {
    && ServerInv(s.server)
    && ClientInv(s.client)
    && Channel(s.client, s.server.sent, s.down)
    && (s.client.state != Offline ==> Matched(s.client, InFlight(s)))
    && Stale(s.client, s.stale, s.tainted)
  }

  /** Left-over messages hold no hello, reach only an attempt that is connecting, and alone make a client meet a first
      message that is no greeting. */
  ghost predicate Stale(c: Client, stale: seq<ServerMessage>, tainted: bool) {
    && (forall i :: 0 <= i < |stale| ==> stale[i] != Hello)
    && (stale != [] ==> tainted && c.state != Connected)
    && (c.failure == Some(NotAHello) ==> tainted)
  }

  lemma MatchedLess(c: Client, flight: multiset<Request>, flight': multiset<Request>)
    requires Matched(c, flight) && flight' <= flight
    ensures Matched(c, flight')
  {
    forall r | r in flight'
      ensures Pending(c, r) && flight'[r] == 1
    {
      assert r in flight;
    }
  }

  lemma Flows(up': multiset<Request>, owed': multiset<Request>, down': multiset<Request>, up: multiset<Request>,
              owed: multiset<Request>, down: multiset<Request>, answer: multiset<Request>, arriving: multiset<Request>)
    requires up == arriving + up' && owed' + answer <= owed + arriving && down' == down + answer
    ensures up' + owed' + down' <= up + owed + down
  {
    forall x
      ensures (up' + owed' + down')[x] <= (up + owed + down)[x]
    {
      assert (owed' + answer)[x] <= (owed + arriving)[x];
    }
  }

  lemma ServesFlight(s: System, b: ServerAction)
    requires Enabled(s, Serves(b))
    ensures InFlight(Next(s, Serves(b))) <= InFlight(s)
  {
    var s' := Next(s, Serves(b));
    SendsAtMostOne(s.server, b);
    AnswersOnlyOwed(s.server, b);
    DownGrows(s.server, s'.server, s.down);
    UpTakes(s.up, s'.up, b);
    Flows(multiset(Asked(s'.up)), Owed(s'.server), multiset(Answered(s'.down)), multiset(Asked(s.up)), Owed(s.server),
          multiset(Answered(s.down)), NewAnswer(s.server, s'.server), Arriving(b));
  }

  lemma UpTakes(up: seq<ClientMessage>, up': seq<ClientMessage>, b: ServerAction)
    requires if b.Receive? then up != [] && b.m == up[0] && up' == up[1..] else up' == up
    ensures multiset(Asked(up)) == Arriving(b) + multiset(Asked(up'))
  {
    if b.Receive? {
      assert up == [b.m] + up';
      AskedFirst(b.m, up');
    }
  }

  lemma DownGrows(s: Server, s': Server, down: seq<ServerMessage>)
    requires s'.sent == s.sent || (|s'.sent| == |s.sent| + 1 && s'.sent[..|s.sent|] == s.sent)
    ensures multiset(Answered(down + Fresh(s.sent, s'.sent))) == multiset(Answered(down)) + NewAnswer(s, s')
  {
    if s'.sent == s.sent {
      assert down + Fresh(s.sent, s'.sent) == down;
    } else {
      assert Fresh(s.sent, s'.sent) == [s'.sent[|s.sent|]];
      AnsweredNext(down, s'.sent[|s.sent|]);
    }
  }

  lemma ServesChannel(c: Client, s: Server, s': Server, down: seq<ServerMessage>)
    requires Channel(c, s.sent, down)
    requires s'.sent == s.sent || (|s'.sent| == |s.sent| + 1 && s'.sent[..|s.sent|] == s.sent)
    ensures Channel(c, s'.sent, down + Fresh(s.sent, s'.sent))
  {
    if s'.sent == s.sent {
      assert down + Fresh(s.sent, s'.sent) == down;
    } else {
      var m := s'.sent[|s.sent|];
      assert s'.sent == s.sent + [m] && Fresh(s.sent, s'.sent) == [m];
      SuffixNext(s.sent, down, m);
    }
  }

  lemma SuffixNext(sent: seq<ServerMessage>, down: seq<ServerMessage>, m: ServerMessage)
    requires |down| <= |sent| && down == sent[|sent| - |down|..]
    ensures down + [m] == (sent + [m])[|sent| - |down|..]
  {
  }

  lemma ServesKeeps(s: System, b: ServerAction)
    requires Inv(s) && Enabled(s, Serves(b))
    ensures Inv(Next(s, Serves(b)))
  {
    var s' := Next(s, Serves(b));
    ServerKeeps(s.server, b);
    SendsAtMostOne(s.server, b);
    ServesChannel(s.client, s.server, s'.server, s.down);
    if s.client.state != Offline {
      ServesFlight(s, b);
      MatchedLess(s.client, InFlight(s), InFlight(s'));
    }
  }

  lemma ConnectKeeps(s: System, supported: bool, left: nat)
    requires Inv(s) && Enabled(s, Connect(supported, left))
    ensures Inv(Next(s, Connect(supported, left)))
  {
    var up := [ClientHello(supported)];
    assert up == [] + up;
    AskedNext([], ClientHello(supported));
    LeftOverIsLate(s);
  }

  /** Hello is never among the messages left over. */
  lemma LeftOverIsLate(s: System)
    requires Inv(s)
    ensures forall i :: 0 <= i < |LeftOver(s)| ==> LeftOver(s)[i] != Hello
  {
    if s.stale == [] && |s.down| < |s.server.sent| {
      assert forall i :: 0 <= i < |s.down| ==> s.down[i] == s.server.sent[|s.server.sent| - |s.down| + i];
    }
  }

  lemma StaleKeeps(s: System)
    requires Inv(s) && Enabled(s, DeliversStale)
    ensures Inv(Next(s, DeliversStale))
    ensures Next(s, DeliversStale).client.state == Offline
    ensures Next(s, DeliversStale).client.failure == Some(if s.stale[0] == HelloError then Refused else NotAHello)
  {
  }

  lemma IssuesKeeps(s: System, command: string, encodes: bool)
    requires Inv(s) && Enabled(s, Issues(command, encodes))
    ensures Inv(Next(s, Issues(command, encodes)))
  {
    IssuesFlight(s, command, encodes);
    IssueMatched(s.client, InFlight(s), command, encodes);
    assert Channel(Issue(s.client, command, encodes), s.server.sent, s.down);
  }

  lemma IssuesFlight(s: System, command: string, encodes: bool)
    requires s.client.state == Connected && s.stale == []
    ensures InFlight(Next(s, Issues(command, encodes))) == WithIssued(s.client, InFlight(s), command, encodes)
  {
    var r := Request(s.client.sequence + 1, command);
    AskedNext(s.up, Ask(r));
    Joins(multiset(Asked(s.up)), Owed(s.server), multiset(Answered(s.down)), multiset{r});
  }

  ghost function WithIssued(c: Client, flight: multiset<Request>, command: string, encodes: bool): multiset<Request> {
    if encodes then flight + multiset{Request(c.sequence + 1, command)} else flight
  }

  lemma Joins<T>(a: multiset<T>, b: multiset<T>, c: multiset<T>, r: multiset<T>)
    ensures (a + r) + b + c == (a + b + c) + r && a + b + (r + c) == r + (a + b + c)
  {
  }

  lemma IssueMatched(c: Client, flight: multiset<Request>, command: string, encodes: bool)
    requires ClientInv(c) && c.state == Connected && Matched(c, flight)
    ensures var c' := Issue(c, command, encodes); ClientInv(c') && Matched(c', WithIssued(c, flight, command, encodes))
  {
    var c', r := Issue(c, command, encodes), Request(c.sequence + 1, command);
    assert !Pending(c, r);
    forall q | q in flight
      ensures Pending(c', q) && flight[q] == 1 && q != r
    {
      assert Pending(c, q);
    }
  }

  lemma DeliversKeeps(s: System)
    requires Inv(s) && Enabled(s, Delivers)
    ensures Inv(Next(s, Delivers))
  {
    var m, rest := s.down[0], InFlight(Next(s, Delivers));
    DeliversFlight(s);
    DeliversChannel(s.client, s.server.sent, s.down);
    if s.client.state == Connecting {
      MatchedLess(s.client, InFlight(s), rest);
      GreetMatched(s.client, m, rest);
    } else {
      DeliverMatched(s.client, m, rest);
    }
  }

  /** What the client is handed first is a greeting, and no hello comes later. */
  lemma DeliversChannel(c: Client, sent: seq<ServerMessage>, down: seq<ServerMessage>)
    requires Channel(c, sent, down) && down != [] && c.state != Offline && Orderly(sent)
    ensures c.state == Connecting ==> Greets(down[0])
    ensures c.state == Connected ==> down[0] != Hello
    ensures forall c': Client :: c'.state != Connecting ==> Channel(c', sent, down[1..])
  {
    assert down[0] == sent[|sent| - |down|];
  }

  lemma DeliversFlight(s: System)
    requires Enabled(s, Delivers)
    ensures InFlight(s) == OneAnswer(s.down[0]) + InFlight(Next(s, Delivers))
  {
    assert s.down == [s.down[0]] + s.down[1..];
    AnsweredFirst(s.down[0], s.down[1..]);
    Joins(multiset(Asked(s.up)), Owed(s.server), multiset(Answered(s.down[1..])), OneAnswer(s.down[0]));
  }

  lemma GreetMatched(c: Client, m: ServerMessage, rest: multiset<Request>)
    requires c.state == Connecting && ClientInv(c) && Matched(c, rest) && Greets(m)
    ensures var c' := AfterMessage(c, m);
            && ClientInv(c') && c'.state != Connecting && (c'.state == Connected ==> Matched(c', rest))
            && (c'.failure == Some(NotAHello) ==> c.failure == Some(NotAHello))
  {
  }

  lemma DeliverMatched(c: Client, m: ServerMessage, rest: multiset<Request>)
    requires c.state == Connected && ClientInv(c) && Matched(c, OneAnswer(m) + rest) && m != Hello
    ensures var c' := AfterMessage(c, m);
            && ClientInv(c') && c'.state != Connecting && (c'.state == Connected ==> Matched(c', rest))
            && (c'.failure == Some(NotAHello) ==> c.failure == Some(NotAHello))
  {
    var all, c' := OneAnswer(m) + rest, AfterMessage(c, m);
    if m.Response? {
      assert m.request in all && Pending(c, m.request);
    }
    forall q | q in rest && c'.state == Connected
      ensures Pending(c', q) && rest[q] == 1
    {
      assert q in all && all[q] == OneAnswer(m)[q] + rest[q];
    }
  }

  /** Every step of client, server and channels keeps the invariant. */
  lemma NextKeeps(s: System, a: Action)
    requires Inv(s) && Enabled(s, a)
    ensures Inv(Next(s, a))
  {
    match a
    case Connect(supported, left) => ConnectKeeps(s, supported, left);
    case Issues(command, encodes) => IssuesKeeps(s, command, encodes);
    case Delivers => DeliversKeeps(s);
    case DeliversStale => StaleKeeps(s);
    case LosesConnection =>
    case Serves(b) => ServesKeeps(s, b);
  }

  ghost predicate Run(states: seq<System>, actions: seq<Action>) {
    && |states| == |actions| + 1 && states[0] == IDLE
    && forall i :: 0 <= i < |actions| ==> Enabled(states[i], actions[i]) && states[i + 1] == Next(states[i], actions[i])
  }

  lemma {:induction false} RunKeeps(states: seq<System>, actions: seq<Action>, k: nat)
    requires Run(states, actions) && k <= |actions|
    ensures Inv(states[k])
  {
    if k > 0 {
      RunKeeps(states, actions, k - 1);
      NextKeeps(states[k - 1], actions[k - 1]);
    }
  }

  /** Some attempt so far was opened by a listener that interrupted the handling of an earlier connection's data. */
  ghost predicate Interrupts(actions: seq<Action>, k: nat)
    requires k <= |actions|
  {
    exists i :: 0 <= i < k && actions[i].Connect? && actions[i].left > 0
  }

  lemma {:induction false} TaintedIff(states: seq<System>, actions: seq<Action>, k: nat)
    requires Run(states, actions) && k <= |actions|
    ensures states[k].tainted <==> Interrupts(actions, k)
  {
    if k > 0 {
      TaintedIff(states, actions, k - 1);
      assert states[k] == Next(states[k - 1], actions[k - 1]);
      if Interrupts(actions, k) && !Interrupts(actions, k - 1) {
        assert actions[k - 1].Connect? && actions[k - 1].left > 0;
      }
    }
  }

  /** Over every run, reconnections included: the client never meets a response without a request or a response to
      another command, a first message that is no greeting only if an attempt was opened in the middle of an earlier
      connection's data, and later no handshake message but an error; no request promise settles twice; and the
      server's frames are orderly. */
  lemma ExchangeSafety(states: seq<System>, actions: seq<Action>, k: nat)
    requires Run(states, actions) && k <= |actions|
    ensures var c := states[k].client;
            && c.failure !in {Some(NoMatchingRequest), Some(CommandMismatch), Some(UnexpectedHandshake(Hello))}
            && (c.failure == Some(NotAHello) ==> Interrupts(actions, k))
            && !c.twice && c.pending.Keys !! c.settled
    ensures Orderly(states[k].server.sent)
    ensures var s := states[k].server; s.running != multiset{} ==> s.handshakeComplete && [Hello] <= s.sent
  {
    RunKeeps(states, actions, k);
    TaintedIff(states, actions, k);
  }

  /** A command of a request succeeded, and its response was taken, in the first steps of a run. */
  ghost predicate Succeeded(actions: seq<Action>, k: nat, r: Request)
    requires k <= |actions|
  {
    Serves(CommandSettles(r, true, true)) in actions[..k]
  }

  /** A request was issued in the first steps of a run. */
  ghost predicate Issued(states: seq<System>, actions: seq<Action>, k: nat, r: Request)
    requires k <= |actions| && |states| > |actions|
  {
    exists i: nat :: i < k && actions[i] == Issues(r.command, true) && states[i].client.sequence + 1 == r.id
  }

  ghost predicate Backed(states: seq<System>, actions: seq<Action>, k: nat)
    requires k <= |actions| && |states| > |actions|
  {
    var s := states[k];
    && (forall r :: Response(r, true) in s.server.sent ==> Succeeded(actions, k, r))
    && (forall r :: Pending(s.client, r) ==> Issued(states, actions, k, r))
    && (forall id :: id in s.client.resolved ==> exists r: Request :: r.id == id && Fulfilled(states, actions, k, r))
  }

  ghost predicate Fulfilled(states: seq<System>, actions: seq<Action>, k: nat, r: Request)
    requires k <= |actions| && |states| > |actions|
  {
    Issued(states, actions, k, r) && Succeeded(actions, k, r)
  }

  lemma SentStep(s: Server, a: ServerAction, r: Request)
    requires ServerEnabled(s, a) && Response(r, true) in ServerNext(s, a).sent && Response(r, true) !in s.sent
    ensures a == CommandSettles(r, true, true)
  {
  }

  /** A greeting alone connects. A connected client goes on with events and with responses to pending requests whose
      command agrees, each of which settles its promise; anything else ends the attempt and settles every promise. */
  lemma MessageStep(c: Client, m: ServerMessage)
    requires c.state != Offline
    ensures var c' := AfterMessage(c, m);
            var goes := if c.state == Connecting then m == Hello
                        else m.Event? || (m.Response? && m.request.id in c.pending && (m.ok ==> Pending(c, m.request)));
            && c'.state == (if goes then Connected else Offline)
            && (goes ==> c'.failure == c.failure && c'.pending == (if m.Response? then c.pending - {m.request.id} else c.pending)
                         && c'.settled == (if m.Response? then c.settled + {m.request.id} else c.settled))
            && (!goes ==> c'.failure.Some? && c'.pending == map[] && c'.settled == c.settled + c.pending.Keys)
  {
  }

  /** A promise is resolved by a success of the request pending under its id, and by nothing else. */
  lemma MessageResolves(c: Client, m: ServerMessage, id: nat)
    ensures id in AfterMessage(c, m).resolved
            <==> || id in c.resolved
                 || (c.state == Connected && m.Response? && m.ok && m.request.id == id && Pending(c, m.request))
  {
  }

  lemma ResolveStep(s: System, a: Action, id: nat)
    requires Inv(s) && Enabled(s, a) && id in Next(s, a).client.resolved && id !in s.client.resolved
    ensures a.Delivers? && s.down[0].Response? && s.down[0].ok && s.down[0].request.id == id && Pending(s.client, s.down[0].request)
  {
    if a.Delivers? {
      MessageResolves(s.client, s.down[0], id);
    } else if a.DeliversStale? {
      MessageResolves(s.client, s.stale[0], id);
    }
  }

  lemma PendingStep(s: System, a: Action, r: Request)
    requires Enabled(s, a) && Pending(Next(s, a).client, r)
    ensures Pending(s.client, r) || (a == Issues(r.command, true) && s.client.sequence + 1 == r.id)
  {
  }

  lemma DownIsSent(s: System)
    requires Inv(s) && s.down != []
    ensures s.down[0] in s.server.sent
  {
  }

  lemma BackedNext(states: seq<System>, actions: seq<Action>, k: nat)
    requires Run(states, actions) && 0 < k <= |actions| && Inv(states[k - 1]) && Backed(states, actions, k - 1)
    ensures Backed(states, actions, k)
  {
    var s, a, s' := states[k - 1], actions[k - 1], states[k];
    assert s' == Next(s, a) && actions[..k] == actions[..k - 1] + [a];
    forall r | Response(r, true) in s'.server.sent
      ensures Succeeded(actions, k, r)
    {
      if a.Serves? && Response(r, true) !in s.server.sent {
        SentStep(s.server, a.a, r);
      }
    }
    forall r | Pending(s'.client, r)
      ensures Issued(states, actions, k, r)
    {
      PendingStep(s, a, r);
      if Pending(s.client, r) {
        assert Issued(states, actions, k - 1, r);
      }
    }
    forall id | id in s'.client.resolved
      ensures exists r: Request :: r.id == id && Fulfilled(states, actions, k, r)
    {
      if id in s.client.resolved {
        var r: Request :| r.id == id && Fulfilled(states, actions, k - 1, r);
        assert Fulfilled(states, actions, k, r);
      } else {
        ResolveStep(s, a, id);
        DownIsSent(s);
        assert Fulfilled(states, actions, k, s.down[0].request);
      }
    }
  }

  lemma {:induction false} RunIsBacked(states: seq<System>, actions: seq<Action>, k: nat)
    requires Run(states, actions) && k <= |actions|
    ensures Backed(states, actions, k)
  {
    if k > 0 {
      RunIsBacked(states, actions, k - 1);
      RunKeeps(states, actions, k - 1);
      BackedNext(states, actions, k);
    }
  }

  /** Over every run, reconnections included, a promise is resolved only when its own command succeeded on the server. */
  lemma ResolvedMeansSucceeded(states: seq<System>, actions: seq<Action>, k: nat, id: nat)
    requires Run(states, actions) && k <= |actions| && id in states[k].client.resolved
    ensures exists r: Request :: r.id == id && Issued(states, actions, k, r) && Succeeded(actions, k, r)
  {
    RunIsBacked(states, actions, k);
    var r: Request :| r.id == id && Fulfilled(states, actions, k, r);
    assert Issued(states, actions, k, r);
  }

  /** The condition is exact: an attempt is failed by a left-over message, before anything else reaches the client, if
      and only if the loop its opening interrupted had messages left. */
  lemma LeftOverFailsAttempt(s: System, supported: bool, left: nat)
    requires Inv(s) && Enabled(s, Connect(supported, left))
    ensures var s' := Next(s, Connect(supported, left));
            && (Enabled(s', DeliversStale) <==> left > 0)
            && (left > 0 ==> !Enabled(s', Delivers) && forall command, encodes :: !Enabled(s', Issues(command, encodes)))
            && (left > 0 ==>
                  var c := Next(s', DeliversStale).client;
                  c.state == Offline && c.failure == Some(if LeftOver(s)[0] == HelloError then Refused else NotAHello))
  {
    ConnectKeeps(s, supported, left);
    if left > 0 {
      StaleKeeps(Next(s, Connect(supported, left)));
    }
  }

  ghost predicate Reachable(s: System) {
    exists states, actions :: Run(states, actions) && states[|actions|] == s
  }

  lemma ReachNext(s: System, a: Action)
    requires Reachable(s) && Enabled(s, a)
    ensures Reachable(Next(s, a))
  {
    var states, actions :| Run(states, actions) && states[|actions|] == s;
    assert Run(states + [Next(s, a)], actions + [a]);
  }

  /** A server that has greeted its client. */
  lemma GreetingWaits() returns (s: System)
    ensures Reachable(s) && s.client == NEW_CLIENT.(state := Connecting) && s.stale == [] && s.down == [Hello]
    ensures s.server == Server(Ready, false, true, Finished, [], multiset{}, [Hello])
  {
    assert Run([IDLE], []);
    s := Reach(IDLE, Connect(true, 0));
    s := Reach(s, Serves(Receive(ClientHello(true), true)));
    s := Reach(s, Serves(SnapshotArrives(false, true)));
    s := Reach(s, Serves(HelloSettles(true, false)));
  }

  lemma ClientIsConnected() returns (s: System)
    ensures Reachable(s) && s.client == NEW_CLIENT.(state := Connected) && s.stale == [] && s.down == []
    ensures s.server == Server(Ready, false, true, Finished, [], multiset{}, [Hello])
  {
    s := GreetingWaits();
    s := Reach(s, Delivers);
  }

  /** A connected client and two events on their way to it. */
  lemma TwoEventsWait() returns (s: System)
    ensures Reachable(s) && s.client == NEW_CLIENT.(state := Connected) && s.stale == [] && s.down == [Event, Event]
    ensures s.server.sent == [Hello, Event, Event]
  {
    s := ClientIsConnected();
    s := Reach(s, Serves(Publish(true)));
    assert s.down == [Event];
    s := Reach(s, Serves(Publish(true)));
  }

  lemma Reach(s: System, a: Action) returns (s': System)
    requires Reachable(s) && Enabled(s, a)
    ensures Reachable(s') && s' == Next(s, a)
  {
    ReachNext(s, a);
    s' := Next(s, a);
  }

  /** A listener that reconnects on the first of two events of a batch: the second one fails the new attempt. */
  lemma ReconnectInCallbackFails() returns (s: System)
    ensures Reachable(s) && s.client.state == Offline && s.client.failure == Some(NotAHello)
  {
    s := TwoEventsWait();
    s := Reach(s, Delivers);
    s := Reach(s, LosesConnection);
    s := Reach(s, Connect(true, 1));
    s := Reach(s, DeliversStale);
  }

  // ---------------------------------------------------------------------------------------------
  // The objects
  // ---------------------------------------------------------------------------------------------

  /** The server's state of one connection. `taken` says whether the transport takes a frame. */
  class ServerConnection {
    var stage: Stage
    var disconnected: bool
    var handshakeComplete: bool
    var phase: Phase
    var queued: seq<Request>
    var running: multiset<Request>
    var sent: seq<ServerMessage>

    ghost function View(): Server
      reads this
    {
      Server(stage, disconnected, handshakeComplete, phase, queued, running, sent)
    }

    constructor ()
      ensures View() == NEW_SERVER && ServerInv(View())
    {
      stage, disconnected, handshakeComplete, phase := AwaitingHello, false, false, NotStarted;
      queued, running, sent := [], multiset{}, [];
    }

    method SendMessage(m: ServerMessage, taken: bool)
      modifies this`sent
      ensures View() == Send(old(View()), m, taken)
    {
      if disconnected {
        return;
      }
      if taken {
        sent := sent + [m];
      }
    }

    method FailProtocol(taken: bool)
      requires ServerInv(View())
      modifies this`stage, this`sent
      ensures View() == AfterFailure(old(View()), taken) && ServerInv(View())
    {
      ServerKeeps(View(), Malformed(taken));
      if disconnected || stage == Closing || stage == Closed {
        return;
      }
      stage := Closing;
      if taken {
        sent := sent + [HelloError];
      }
    }

    method Disconnect()
      requires ServerInv(View())
      modifies this`stage, this`disconnected
      ensures View() == AfterDisconnect(old(View())) && ServerInv(View())
    {
      ServerKeeps(View(), TransportCloses);
      if !disconnected {
        disconnected, stage := true, Closed;
      }
    }

    /** The messages of a chunk, one after the other, until the connection ends. */
    method Receive(messages: seq<ClientMessage>, taken: bool)
      requires ServerInv(View())
      modifies this
      ensures View() == DispatchAll(old(View()), messages, taken) && ServerInv(View())
    {
      var i := 0;
      while i < |messages|
        invariant 0 <= i <= |messages| && ServerInv(View())
        invariant DispatchAll(old(View()), messages, taken) == DispatchAll(View(), messages[i..], taken)
      {
        if disconnected || stage == Closing || stage == Closed {
          TerminalIgnores(View(), messages[i..], taken);
          return;
        }
        DispatchMessage(messages[i], taken);
        i := i + 1;
      }
    }

    method DispatchMessage(m: ClientMessage, taken: bool)
      requires ServerInv(View()) && !Terminal(View())
      modifies this
      ensures View() == Dispatch(old(View()), m, taken) && ServerInv(View())
    {
      ServerKeeps(View(), ServerAction.Receive(m, taken));
      if stage == AwaitingHello {
        if m.Ask? {
          FailProtocol(taken);
        } else if m.supported {
          stage, phase := Handshaking, Snapshotting;
        } else {
          stage, phase := Closing, Finished;
          if taken {
            sent := sent + [HelloError];
          }
        }
      } else if m.ClientHello? {
        FailProtocol(taken);
      } else if stage == Ready {
        running := running + multiset{m.request};
      } else {
        queued := queued + [m.request];
      }
    }

    /** `finishHandshake` once its snapshot is there. */
    method SendHello(closing: bool, taken: bool)
      requires ServerInv(View()) && phase == Snapshotting
      modifies this
      ensures View() == Greet(old(View()), closing, taken) && ServerInv(View())
    {
      ServerKeeps(View(), SnapshotArrives(closing, taken));
      if closing || disconnected || stage != Handshaking {
        phase := Finished;
        return;
      }
      SendMessage(Hello, taken);
      phase := Greeting(taken);
    }

    /** `finishHandshake` once hello is sent; `stale` when a newer snapshot has to follow. */
    method BecomeReady(ok: bool, stale: bool)
      requires ServerInv(View()) && phase.Greeting? && (ok ==> phase.taken)
      modifies this
      ensures View() == Greeted(old(View()), ok, stale) && ServerInv(View())
    {
      ServerKeeps(View(), HelloSettles(ok, stale));
      if ok && !disconnected && stage == Handshaking {
        handshakeComplete, stage := true, Ready;
        phase := if stale then CatchingUp else Finished;
      } else {
        phase := Finished;
      }
    }

    /** A request held back during the handshake. */
    method ResumeRequest()
      requires ServerInv(View()) && phase == Finished && queued != []
      modifies this
      ensures View() == Resume(old(View())) && ServerInv(View())
    {
      ServerKeeps(View(), HandshakeResolves);
      if stage == Ready && !disconnected {
        running := running + multiset{queued[0]};
      }
      queued := queued[1..];
    }

    /** `handleRequest` once the command settled. */
    method Respond(r: Request, ok: bool, taken: bool)
      requires ServerInv(View()) && r in running
      modifies this
      ensures View() == Answer(old(View()), r, ok, taken) && ServerInv(View())
    {
      ServerKeeps(View(), CommandSettles(r, ok, taken));
      running := running - multiset{r};
      SendMessage(Response(r, ok), taken);
    }
  }

  function DispatchAll(s: Server, messages: seq<ClientMessage>, taken: bool): Server
    decreases |messages|
  {
    if messages == [] then s else DispatchAll(Dispatch(s, messages[0], taken), messages[1..], taken)
  }

  lemma {:induction false} TerminalIgnores(s: Server, messages: seq<ClientMessage>, taken: bool)
    requires Terminal(s)
    ensures DispatchAll(s, messages, taken) == s
    decreases |messages|
  {
    if messages != [] {
      TerminalIgnores(s, messages[1..], taken);
    }
  }

  /** The client's table of pending requests. */
  class RequestTable {
    var state: ClientState
    var pending: map<nat, string>
    var sequence: nat
    var failure: Option<Failure>
    ghost var settled: set<nat>
    ghost var resolved: set<nat>
    ghost var twice: bool

    ghost function View(): Client
      reads this
    {
      Client(state, pending, sequence, settled, resolved, twice, failure)
    }

    constructor ()
      ensures View() == NEW_CLIENT && ClientInv(View())
    {
      state, pending, sequence, failure, settled, resolved, twice := Offline, map[], 0, None, {}, {}, false;
    }

    /** Reject the promise of a request. */
    ghost method Reject(id: nat)
      modifies this`settled, this`twice
      ensures View() == AfterSettling(old(View()), id)
    {
      twice := twice || id in settled;
      settled := settled + {id};
    }

    /** Resolve the promise of a request with the result of its command. */
    ghost method Resolve(id: nat)
      modifies this`settled, this`resolved, this`twice
      ensures View() == AfterSettling(old(View()), id).(resolved := old(resolved) + {id})
    {
      twice := twice || id in settled;
      settled, resolved := settled + {id}, resolved + {id};
    }

    method Request(command: string, encodes: bool) returns (id: Option<nat>)
      requires ClientInv(View())
      modifies this
      ensures ClientInv(View())
      ensures id.Some? <==> old(state) == Connected
      ensures View() == if id.Some? then Issue(old(View()), command, encodes) else old(View())
      ensures id.Some? ==> id.value == sequence && (encodes <==> id.value in pending)
    {
      if state != Connected {
        return None;
      }
      sequence := sequence + 1;
      if encodes {
        pending := pending[sequence := command];
      } else {
        Reject(sequence);
      }
      return Some(sequence);
    }

    /** Empty the table and settle each of its promises. */
    method RejectPendingRequests()
      modifies this`pending, this`settled, this`twice
      ensures View() == RejectPending(old(View()))
    {
      var requests := pending.Keys;
      pending := map[];
      var rest := requests;
      while rest != {}
        invariant rest <= requests && state == old(state) && sequence == old(sequence) && failure == old(failure)
        invariant resolved == old(resolved)
        invariant pending == map[] && settled == old(settled) + (requests - rest)
        invariant twice == (old(twice) || old(settled) * (requests - rest) != {})
        decreases rest
      {
        var id :| id in rest;
        RejectedOne(old(settled), requests, rest, id);
        Reject(id);
        rest := rest - {id};
      }
    }

    method Fail(why: Failure)
      modifies this
      ensures View() == AfterFail(old(View()), why)
    {
      if state == Offline {
        return;
      }
      state, failure := Offline, Some(why);
      RejectPendingRequests();
    }

    /** `handleMessage` of the connection and of the client. */
    method HandleMessage(m: ServerMessage)
      modifies this
      ensures View() == AfterMessage(old(View()), m)
    {
      if state == Connecting {
        if m == HelloError {
          Fail(Refused);
        } else if m == Hello {
          state := Connected;
        } else {
          Fail(NotAHello);
        }
      } else if state == Connected {
        if m == Hello || m == HelloError {
          Fail(UnexpectedHandshake(m));
        } else if m.Response? {
          HandleResponse(m.request, m.ok);
        }
      }
    }

    method HandleResponse(r: Request, ok: bool)
      modifies this
      ensures View() == AfterResponse(old(View()), r, ok)
    {
      if r.id !in pending {
        Fail(NoMatchingRequest);
        return;
      }
      var command := pending[r.id];
      pending := pending - {r.id};
      if !ok {
        Reject(r.id);
      } else if r.command != command {
        Reject(r.id);
        Fail(CommandMismatch);
      } else {
        Resolve(r.id);
      }
    }
  }

  lemma RejectedOne(settled: set<nat>, requests: set<nat>, rest: set<nat>, id: nat)
    requires rest <= requests && id in rest
    ensures settled + (requests - (rest - {id})) == settled + (requests - rest) + {id}
    ensures settled * (requests - (rest - {id})) != {} <==> settled * (requests - rest) != {} || id in settled
    ensures id in settled + (requests - rest) <==> id in settled
  {
    assert id in requests - (rest - {id});
    assert requests - (rest - {id}) == (requests - rest) + {id};
    if id in settled {
      assert id in settled * (requests - (rest - {id}));
    }
    assert settled * ((requests - rest) + {id}) == settled * (requests - rest) + settled * {id};
  }
}
