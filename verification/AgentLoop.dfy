/** The agent loop: two nested loops that inject queued messages, stream a reply, execute its tool calls and
    emit events. Model streams, tools, hooks and the arrival of queued messages are arbitrary scripts. */
module AgentLoop {

  import opened Wrappers
  import opened AgentTrace
  import opened AgentTools

  // ---------------------------------------------------------------------------------------------
  // Queues
  // ---------------------------------------------------------------------------------------------

  datatype Mode = All | OneAtATime

  /** What a drain takes: the whole queue, or its first message in one-at-a-time mode. */
  function Taken(mode: Mode, queued: seq<Message>): (r: seq<Message>)
    ensures r <= queued && (mode == OneAtATime ==> |r| <= 1) && (r == [] <==> queued == [])
    ensures mode == All ==> r == queued
  {
    if mode == All || queued == [] then queued else queued[..1]
  }

  class PendingMessageQueue {
    var messages: seq<Message>
    const mode: Mode
    ghost var enqueued: seq<Message>
    ghost var drained: seq<Message>

    constructor (mode: Mode)
      ensures Valid() && this.mode == mode && messages == [] && drained == []
    {
      this.mode, messages, enqueued, drained := mode, [], [], [];
    }

    /** Every message enqueued was drained or is still queued, in order. */
    ghost predicate Valid()
      reads this
    {
      enqueued == drained + messages
    }

    ghost predicate Holds(queued: seq<Message>, out: seq<Message>)
      reads this
    {
      messages == queued && drained == out && Valid()
    }

    method Enqueue(arriving: seq<Message>)
      requires Valid()
      modifies this
      ensures Valid() && drained == old(drained) && messages == old(messages) + arriving
      ensures enqueued == old(enqueued) + arriving
    {
      messages, enqueued := messages + arriving, enqueued + arriving;
    }

    method Drain() returns (r: seq<Message>)
      requires Valid()
      modifies this
      ensures Valid() && enqueued == old(enqueued) && drained == old(drained) + r
      ensures r == Taken(mode, old(messages)) && messages == old(messages)[|r|..]
      ensures mode == All ==> messages == [] && drained == enqueued
    {
      if mode == All {
        r, messages := messages, [];
      } else if messages == [] {
        r := [];
      } else {
        r, messages := [messages[0]], messages[1..];
      }
      drained := drained + r;
    }
  }

  // ---------------------------------------------------------------------------------------------
  // The streamed reply
  // ---------------------------------------------------------------------------------------------

  type Reply = m: Message | m.Assistant? witness Assistant([], Stop, None)

  /** `Finish` is the stream's `done` or `error` event, `Delta` any of its partial updates. */
  datatype StreamEvent = Begin(partial: Message) | Delta(partial: Message) | Finish

  /** The part of the stream that is read: what comes before its first `Finish`. */
  function Live(stream: seq<StreamEvent>): seq<StreamEvent> {
    if stream == [] || stream[0].Finish? then [] else [stream[0]] + Live(stream[1..])
  }

  lemma {:induction false} LiveIs(stream: seq<StreamEvent>, i: nat)
    requires i <= |stream| && (i < |stream| ==> stream[i].Finish?)
    requires forall j :: 0 <= j < i ==> !stream[j].Finish?
    ensures Live(stream) == stream[..i]
  {
    if i > 0 {
      LiveIs(stream[1..], i - 1);
      assert stream[..i] == [stream[0]] + stream[1..][..i - 1];
    }
  }

  predicate BeginsOnce(stream: seq<StreamEvent>) {
    forall i, j :: 0 <= i < j < |stream| ==> !(stream[i].Begin? && stream[j].Begin?)
  }

  ghost predicate Opened(live: seq<StreamEvent>, at: int, first: Message, updates: seq<Message>) {
    && 0 <= at < |live| && live[at].Begin? && first == live[at].partial
    && |updates| == |live| - at - 1
    && forall j :: at < j < |live| ==> live[j].Delta? && updates[j - at - 1] == live[j].partial
  }

  /** The reply's events: opened by the stream's `Begin` and updated by every later partial, or, when the
      stream never begins, opened by the reply itself. */
  ghost predicate Streams(stream: seq<StreamEvent>, reply: Message, first: Message, updates: seq<Message>) {
    var live := Live(stream);
    if forall i :: 0 <= i < |live| ==> !live[i].Begin? then first == reply && updates == []
    else exists at :: Opened(live, at, first, updates)
  }

  /** The first `i` events of the stream are shown: nothing before it begins, `first` and `updates` afterwards. */
  ghost predicate ShownUpTo(stream: seq<StreamEvent>, i: nat, begun: bool, at: int, reply: Message, first: Message,
                            updates: seq<Message>)
    requires i <= |stream|
  {
    && (forall j :: 0 <= j < i ==> !stream[j].Finish?)
    && if begun then Opened(stream[..i], at, first, updates)
       else first == reply && updates == [] && forall j :: 0 <= j < i ==> !stream[j].Begin?
  }

  lemma ShownBegin(stream: seq<StreamEvent>, i: nat, reply: Message)
    requires i < |stream| && stream[i].Begin? && ShownUpTo(stream, i, false, 0, reply, reply, [])
    ensures ShownUpTo(stream, i + 1, true, i, reply, stream[i].partial, [])
  {
  }

  lemma ShownDelta(stream: seq<StreamEvent>, i: nat, begun: bool, at: int, reply: Message, first: Message, updates: seq<Message>)
    requires i < |stream| && stream[i].Delta? && ShownUpTo(stream, i, begun, at, reply, first, updates)
    ensures ShownUpTo(stream, i + 1, begun, at, reply, first, if begun then updates + [stream[i].partial] else updates)
  {
    var live, live' := stream[..i], stream[..i + 1];
    assert forall j :: 0 <= j < i ==> live'[j] == live[j];
  }

  /** A stream begins at most once, so not again after it began. */
  lemma BeginsNoMore(stream: seq<StreamEvent>, i: nat, begun: bool, at: int, reply: Message, first: Message, updates: seq<Message>)
    requires BeginsOnce(stream) && i < |stream| && ShownUpTo(stream, i, begun, at, reply, first, updates)
    ensures stream[i].Begin? ==> !begun
  {
    if begun {
      assert stream[..i][at] == stream[at];
    }
  }

  lemma ShownAll(stream: seq<StreamEvent>, i: nat, begun: bool, at: int, reply: Message, first: Message, updates: seq<Message>)
    requires i <= |stream| && (i < |stream| ==> stream[i].Finish?)
    requires ShownUpTo(stream, i, begun, at, reply, first, updates)
    ensures Streams(stream, reply, first, updates)
  {
    LiveIs(stream, i);
    if begun {
      assert Live(stream)[at].Begin?;
    }
  }

  /** The events of a reply so far. */
  function OpeningEvents(begun: bool, first: Message, updates: seq<Message>): seq<Event> {
    if begun then [MessageStart(first)] + Updates(updates) else []
  }

  lemma OpeningNext(first: Message, updates: seq<Message>, partial: Message)
    ensures OpeningEvents(true, first, updates + [partial]) == OpeningEvents(true, first, updates) + [MessageUpdate(partial)]
    ensures OpeningEvents(true, first, []) == [MessageStart(first)]
  {
  }

  method StreamReply(agent: Agent, context: seq<Message>, stream: seq<StreamEvent>, reply: Reply)
    returns (grown: seq<Message>, ghost first: Message, ghost updates: seq<Message>)
    requires agent.Synced() && BeginsOnce(stream)
    modifies agent
    ensures agent.Synced() && agent.Kept(old(agent.start), old(agent.active), old(agent.aborted))
    ensures grown == context + [reply]
    ensures agent.trace == old(agent.trace) + ReplyEvents(first, updates, reply)
    ensures Streams(stream, reply, first, updates)
  {
    ghost var base, at := agent.trace, 0;
    var i, partial;
    i, grown, partial, at, first, updates := ShowStream(agent, context, stream, reply);
    ShownAll(stream, i, partial.Some?, at, reply, first, updates);
    grown := FinishReply(agent, base, context, grown, partial, reply, first, updates);
  }

  /** The events of the stream before its first `Finish`. */
  method ShowStream(agent: Agent, context: seq<Message>, stream: seq<StreamEvent>, ghost reply: Message)
    returns (i: nat, grown: seq<Message>, partial: Option<Message>, ghost at: int, ghost first: Message, ghost updates: seq<Message>)
    requires agent.Synced() && BeginsOnce(stream)
    modifies agent
    ensures agent.Synced() && agent.Kept(old(agent.start), old(agent.active), old(agent.aborted))
    ensures i <= |stream| && (i < |stream| ==> stream[i].Finish?)
    ensures StreamInv(agent.trace, old(agent.trace), context, grown, stream, i, partial, at, reply, first, updates)
  {
    ghost var base, start, active, aborted := agent.trace, agent.start, agent.active, agent.aborted;
    i, grown, partial, at, first, updates := 0, context, None, 0, reply, [];
    StreamOpens(base, context, stream, reply);
    while i < |stream| && !stream[i].Finish?
      invariant 0 <= i <= |stream| && agent.Synced() && agent.Kept(start, active, aborted)
      invariant StreamInv(agent.trace, base, context, grown, stream, i, partial, at, reply, first, updates)
    {
      grown, partial, at, first, updates := ShowEvent(agent, base, context, grown, stream, i, partial, at, reply, first, updates);
      i := i + 1;
    }
  }

  lemma StreamOpens(base: seq<Event>, context: seq<Message>, stream: seq<StreamEvent>, reply: Message)
    ensures StreamInv(base, base, context, context, stream, 0, None, 0, reply, reply, [])
  {
  }

  /** The events are shown, and the context ends with the partial message once there is one. */
  ghost predicate StreamInv(trace: seq<Event>, base: seq<Event>, context: seq<Message>, grown: seq<Message>,
                            stream: seq<StreamEvent>, i: nat, partial: Option<Message>, at: int, reply: Message,
                            first: Message, updates: seq<Message>)
    requires i <= |stream|
  {
    && ShownUpTo(stream, i, partial.Some?, at, reply, first, updates)
    && trace == base + OpeningEvents(partial.Some?, first, updates)
    && (partial.None? ==> at == 0)
    && grown == context + if partial.Some? then [partial.value] else []
  }

  /** One event of the stream: its begin, an update of a reply that began, or one that comes too early to be shown. */
  method ShowEvent(agent: Agent, ghost base: seq<Event>, ghost context: seq<Message>, grown: seq<Message>,
                   stream: seq<StreamEvent>, i: nat, partial: Option<Message>, ghost at: int, ghost reply: Message,
                   ghost first: Message, ghost updates: seq<Message>)
    returns (grown': seq<Message>, partial': Option<Message>, ghost at': int, ghost first': Message, ghost updates': seq<Message>)
    requires agent.Synced() && BeginsOnce(stream) && i < |stream| && !stream[i].Finish?
    requires StreamInv(agent.trace, base, context, grown, stream, i, partial, at, reply, first, updates)
    modifies agent
    ensures agent.Synced() && agent.Kept(old(agent.start), old(agent.active), old(agent.aborted))
    ensures StreamInv(agent.trace, base, context, grown', stream, i + 1, partial', at', reply, first', updates')
  {
    var event := stream[i];
    grown', partial', at', first', updates' := grown, partial, at, first, updates;
    BeginsNoMore(stream, i, partial.Some?, at, reply, first, updates);
    if event.Begin? {
      ShownBegin(stream, i, reply);
      OpeningNext(event.partial, [], event.partial);
      partial', first', at' := Some(event.partial), event.partial, i;
      grown' := grown + [event.partial];
      agent.Emit(MessageStart(event.partial));
      return;
    }
    ShownDelta(stream, i, partial.Some?, at, reply, first, updates);
    if partial.Some? {
      OpeningNext(first, updates, event.partial);
      partial', updates' := Some(event.partial), updates + [event.partial];
      grown' := grown[|grown| - 1 := event.partial];
      agent.Emit(MessageUpdate(event.partial));
    }
  }

  /** The final message takes the place of the partial one, or opens and closes the reply at once. */
  method FinishReply(agent: Agent, ghost base: seq<Event>, ghost context: seq<Message>, grown0: seq<Message>,
                     partial: Option<Message>, reply: Reply, ghost first: Message, ghost updates: seq<Message>)
    returns (grown: seq<Message>)
    requires agent.Synced() && grown0 == context + if partial.Some? then [partial.value] else []
    requires agent.trace == base + OpeningEvents(partial.Some?, first, updates)
    requires partial.None? ==> first == reply && updates == []
    modifies agent
    ensures agent.Synced() && agent.Kept(old(agent.start), old(agent.active), old(agent.aborted))
    ensures grown == context + [reply] && agent.trace == base + ReplyEvents(first, updates, reply)
  {
    if partial.Some? {
      grown := grown0[|grown0| - 1 := reply];
    } else {
      grown := grown0 + [reply];
      OpeningNext(reply, [], reply);
      agent.Emit(MessageStart(reply));
      assert agent.trace == base + OpeningEvents(true, first, updates);
    }
    agent.Emit(MessageEnd(reply));
    ReplyIs(base, first, updates, reply);
  }

  lemma ReplyIs(base: seq<Event>, first: Message, updates: seq<Message>, reply: Message)
    ensures base + OpeningEvents(true, first, updates) + [MessageEnd(reply)] == base + ReplyEvents(first, updates, reply)
  {
  }

  // ---------------------------------------------------------------------------------------------
  // One turn
  // ---------------------------------------------------------------------------------------------

  datatype Arrivals = Arrivals(steering: seq<Message>, followUps: seq<Message>)

  /** What the outside world does in one turn: the stream and its reply, the tools and hooks of its calls, the
      context `prepareNextTurn` substitutes, the answer of `shouldStopAfterTurn`, and the messages queued before
      the steering poll and before the follow-up poll that may come after the turn. */
  datatype TurnScript = TurnScript(
    stream: seq<StreamEvent>, reply: Reply, tools: nat -> CallScript,
    replacement: Option<seq<Message>>, stop: bool, before: Arrivals, later: Arrivals)

  ghost predicate AllBeginOnce(script: seq<TurnScript>) {
    forall k {:trigger BeginsOnce(script[k].stream)} :: 0 <= k < |script| ==> BeginsOnce(script[k].stream)
  }

  /** The messages injected ahead of a reply: given by the caller, drained from the follow-up queue, and drained
      from the steering queue. */
  datatype Injection = Injection(prompts: seq<Message>, followed: seq<Message>, steered: seq<Message>)

  function Everything(x: Injection): seq<Message> { x.prompts + x.followed + x.steered }

  function Scripts(calls: seq<ToolCall>, tools: nat -> CallScript): (r: seq<CallScript>)
    ensures |r| == |calls|
  {
    seq(|calls|, i requires 0 <= i < |calls| => tools(i))
  }

  predicate Failed(reply: Message) { reply.Assistant? && reply.stopReason in {Error, Aborted} }

  /** The loop goes on after a turn whose calls did not all ask to terminate. */
  ghost predicate More(t: Turn) {
    t.reply.Assistant? && !Failed(t.reply) && Calls(t.reply.blocks) != [] && !t.terminate
  }

  /** The tool phase of a turn: nothing after a failed reply or one without calls, errors for a truncated reply,
      the outcomes of the calls otherwise. */
  ghost predicate ToolsFollow(reply: Reply, tools: nat -> CallScript, t: Turn) {
    var calls := Calls(reply.blocks);
    if Failed(reply) || calls == [] then t.steps == Nothing && t.results == []
    else if reply.stopReason == Length then |t.results| == |calls| && Truncates(calls, t.results) && !t.terminate
    else exists finals :: Executes(calls, Scripts(calls, tools), t.steps, finals, t.results, t.terminate, t.aborted)
  }

  /** A turn that follows its script after injecting `x`. */
  ghost predicate Follows(script: TurnScript, x: Injection, t: Turn) {
    && TurnOk(t)
    && t.prompts == x.prompts && t.followed == x.followed && t.steered == x.steered
    && t.reply == script.reply && Streams(script.stream, t.reply, t.first, t.updates)
    && ToolsFollow(script.reply, script.tools, t)
  }

  /** Inject messages: each is shown and added to the context and to the new messages. */
  method Inject(agent: Agent, context: seq<Message>, newMessages: seq<Message>, pending: seq<Message>)
    returns (grown: seq<Message>, added: seq<Message>)
    requires agent.Synced()
    modifies agent
    ensures agent.Synced() && agent.Kept(old(agent.start), old(agent.active), old(agent.aborted))
    ensures agent.trace == old(agent.trace) + Pairs(pending)
    ensures grown == context + pending && added == newMessages + pending
  {
    grown, added := context, newMessages;
    var i := 0;
    while i < |pending|
      invariant 0 <= i <= |pending|
      invariant agent.Synced() && agent.Kept(old(agent.start), old(agent.active), old(agent.aborted))
      invariant agent.trace == old(agent.trace) + Pairs(pending[..i])
      invariant grown == context + pending[..i] && added == newMessages + pending[..i]
    {
      agent.Emit(MessageStart(pending[i]));
      agent.Emit(MessageEnd(pending[i]));
      grown, added := grown + [pending[i]], added + [pending[i]];
      PairsNext(pending[..i], pending[i]);
      assert pending[..i + 1] == pending[..i] + [pending[i]];
      i := i + 1;
    }
    assert pending[..i] == pending;
  }

  lemma PairsNext(messages: seq<Message>, m: Message)
    ensures Pairs(messages + [m]) == Pairs(messages) + [MessageStart(m), MessageEnd(m)]
  {
    assert (messages + [m])[..|messages|] == messages;
  }

  lemma {:induction false} PairsConcat(a: seq<Message>, b: seq<Message>)
    ensures Pairs(a + b) == Pairs(a) + Pairs(b)
    decreases |b|
  {
    if b == [] {
      assert a + b == a;
    } else {
      var init := b[..|b| - 1];
      PairsConcat(a, init);
      PairsNext(a + init, b[|b| - 1]);
      PairsNext(init, b[|b| - 1]);
      assert a + b == (a + init) + [b[|b| - 1]] && b == init + [b[|b| - 1]];
    }
  }

  /** The tool phase of a reply that did not fail. */
  method RunTools(agent: Agent, sequential: bool, reply: Reply, tools: nat -> CallScript, ghost frame: Turn)
    returns (results: seq<Message>, more: bool, ghost t: Turn)
    requires agent.Synced() && !Failed(reply) && frame.reply == reply
    modifies agent
    ensures agent.Synced() && agent.Kept(old(agent.start), old(agent.active), old(agent.aborted))
    ensures t == frame.(steps := t.steps, results := t.results, terminate := t.terminate, aborted := t.aborted)
    ensures TurnOk(t) && t.results == results && ToolsFollow(reply, tools, t) && more == More(t)
    ensures t.aborted ==> agent.aborted
    ensures agent.trace == old(agent.trace) + Render(Calls(reply.blocks), t.steps)
  {
    var calls := Calls(reply.blocks);
    if calls == [] {
      results, more := [], false;
      t := frame.(steps := Nothing, results := [], terminate := false, aborted := false);
    } else if reply.stopReason == Length {
      var terminate;
      ghost var steps;
      results, terminate, steps := FailTruncated(agent, calls);
      more := !terminate;
      t := frame.(steps := steps, results := results, terminate := terminate, aborted := false);
    } else {
      var terminate;
      ghost var steps, finals;
      results, terminate, steps, finals := ExecuteCalls(agent, sequential, calls, Scripts(calls, tools));
      more := !terminate;
      t := frame.(steps := steps, results := results, terminate := terminate, aborted := agent.aborted);
    }
  }

  lemma TurnTrace(base: seq<Event>, shown: seq<Message>, pending: seq<Message>, t: Turn)
    requires TurnOk(t) && Injected(t) == shown + pending
    ensures base + [TurnStart] + Pairs(shown) + Pairs(pending) + ReplyEvents(t.first, t.updates, t.reply)
            + Render(Calls(t.reply.blocks), t.steps) + [TurnEnd(t.reply, t.results)] == base + TurnEvents(t)
  {
    PairsConcat(shown, pending);
    Regrouped(base, [TurnStart], Pairs(shown), Pairs(pending), ReplyEvents(t.first, t.updates, t.reply),
              Render(Calls(t.reply.blocks), t.steps), [TurnEnd(t.reply, t.results)]);
  }

  lemma Regrouped<T>(base: seq<T>, a: seq<T>, b: seq<T>, c: seq<T>, d: seq<T>, e: seq<T>, f: seq<T>)
    ensures base + a + b + c + d + e + f == base + (a + (b + c) + d + e + f)
  {
  }

  /** One turn, after `turn_start` and the messages `shown` have been emitted: inject the pending messages,
      stream the reply, execute its calls, close the turn. */
  method RunTurn(agent: Agent, sequential: bool, script: TurnScript, context: seq<Message>, newMessages: seq<Message>,
                 pending: seq<Message>, ghost base: seq<Event>, ghost shown: seq<Message>, ghost x: Injection)
    returns (grown: seq<Message>, added: seq<Message>, more: bool, ghost t: Turn)
    requires agent.Synced() && agent.trace == base + [TurnStart] + Pairs(shown)
    requires BeginsOnce(script.stream) && Everything(x) == shown + pending
    modifies agent
    ensures agent.Synced() && agent.Kept(old(agent.start), old(agent.active), old(agent.aborted))
    ensures Follows(script, x, t) && agent.trace == base + TurnEvents(t)
    ensures grown == context + pending + [t.reply] + t.results
    ensures added == newMessages + pending + [t.reply] + t.results
    ensures more == More(t) && (t.aborted ==> agent.aborted)
  {
    grown, added := Inject(agent, context, newMessages, pending);
    ghost var first, updates;
    grown, first, updates := StreamReply(agent, grown, script.stream, script.reply);
    added := added + [script.reply];
    ghost var frame := Turn(x.prompts, x.followed, x.steered, first, updates, script.reply, Nothing, [], false, false);
    var results: seq<Message> := [];
    if Failed(script.reply) {
      more, t := false, frame;
    } else {
      results, more, t := RunTools(agent, sequential, script.reply, script.tools, frame);
      grown, added := grown + results, added + results;
    }
    agent.Emit(TurnEnd(script.reply, results));
    TurnTrace(base, shown, pending, t);
  }

  // ---------------------------------------------------------------------------------------------
  // The loop
  // ---------------------------------------------------------------------------------------------

  ghost function AllSteered(turns: seq<Turn>): seq<Message> {
    if turns == [] then [] else AllSteered(turns[..|turns| - 1]) + turns[|turns| - 1].steered
  }

  ghost function AllFollowed(turns: seq<Turn>): seq<Message> {
    if turns == [] then [] else AllFollowed(turns[..|turns| - 1]) + turns[|turns| - 1].followed
  }

  lemma TurnsNext(turns: seq<Turn>, t: Turn)
    requires TurnsOk(turns) && TurnOk(t)
    ensures TurnsOk(turns + [t]) && Word(turns + [t]) == Word(turns) + TurnEvents(t)
    ensures AllAdded(turns + [t]) == AllAdded(turns) + Added(t)
    ensures AllSteered(turns + [t]) == AllSteered(turns) + t.steered
    ensures AllFollowed(turns + [t]) == AllFollowed(turns) + t.followed
  {
    assert (turns + [t])[..|turns|] == turns;
  }

  const NO_INJECTION := Injection([], [], [])

  /** The messages injected ahead of the next reply: in the first turn those the run was started with, then the
      pending ones, which came from one of the queues. */
  function NextInjection(opening: Injection, pending: seq<Message>, following: bool): Injection {
    if following then Injection(opening.prompts, opening.followed + pending, opening.steered)
    else Injection(opening.prompts, opening.followed, opening.steered + pending)
  }

  lemma NextInjects(opening: Injection, pending: seq<Message>, following: bool)
    requires following ==> opening == NO_INJECTION
    ensures Everything(NextInjection(opening, pending, following)) == Everything(opening) + pending
  {
  }

  /** Between two turns: `opening` are the messages already shown for the turn to come, in the first turn. The
      trace is a word of the grammar, the new messages are those of the turns, and the context is `ground`, which
      the turns account for, followed by what is shown. */
  ghost predicate Boundary(trace: seq<Event>, turns: seq<Turn>, opening: Injection, newMessages: seq<Message>,
                           context: seq<Message>, ground: seq<Message>)
  {
    && TurnsOk(turns)
    && trace == [AgentStart] + Word(turns) + (if turns == [] then [TurnStart] + Pairs(Everything(opening)) else [])
    && (turns != [] ==> opening == NO_INJECTION)
    && newMessages == AllAdded(turns) + Everything(opening)
    && context == ground + Everything(opening)
  }

  lemma BoundaryNext(turns: seq<Turn>, opening: Injection, newMessages: seq<Message>, context: seq<Message>,
                     ground: seq<Message>, pending: seq<Message>, t: Turn, newMessages': seq<Message>, context': seq<Message>)
    requires TurnsOk(turns) && TurnOk(t) && newMessages == AllAdded(turns) + Everything(opening)
    requires context == ground + Everything(opening)
    requires Injected(t) == Everything(opening) + pending
    requires newMessages' == newMessages + pending + [t.reply] + t.results
    requires context' == context + pending + [t.reply] + t.results
    ensures Boundary([AgentStart] + Word(turns) + TurnEvents(t), turns + [t], NO_INJECTION, newMessages', context', ground + Added(t))
  {
    TurnsNext(turns, t);
    assert [AgentStart] + Word(turns) + TurnEvents(t) == [AgentStart] + Word(turns + [t]) + [];
    Regrouped4(AllAdded(turns), Everything(opening), pending, [t.reply], t.results);
    Regrouped4(ground, Everything(opening), pending, [t.reply], t.results);
  }

  lemma Regrouped4<T>(a: seq<T>, b: seq<T>, c: seq<T>, d: seq<T>, e: seq<T>)
    ensures a + b + c + d + e == a + ((b + c) + d + e)
  {
  }

  /** What a queue handed out: what it had handed out before the run, the messages injected in the turns, those
      shown for the turn to come, and those pending. */
  ghost predicate Accounts(drained: seq<Message>, drained0: seq<Message>, injected: seq<Message>,
                           opening: seq<Message>, pending: seq<Message>)
  {
    drained == drained0 + injected + opening + pending
  }

  lemma AccountsInjected(drained: seq<Message>, drained0: seq<Message>, injected: seq<Message>,
                         opening: seq<Message>, pending: seq<Message>, more: seq<Message>)
    requires Accounts(drained, drained0, injected, opening, pending) && more == opening + pending
    ensures Accounts(drained, drained0, injected + more, [], [])
  {
  }

  lemma AccountsDrained(drained: seq<Message>, drained0: seq<Message>, injected: seq<Message>, opening: seq<Message>,
                        taken: seq<Message>)
    requires Accounts(drained, drained0, injected, opening, [])
    ensures Accounts(drained + taken, drained0, injected, opening, taken)
  {
  }

  /** The accounts of both queues. */
  ghost predicate Balanced(h: History, opening: Injection, pending: seq<Message>, following: bool,
                           steered: seq<Message>, steered0: seq<Message>, followed: seq<Message>, followed0: seq<Message>)
  {
    && Accounts(steered, steered0, AllSteered(h.turns), opening.steered, if following then [] else pending)
    && Accounts(followed, followed0, AllFollowed(h.turns), opening.followed, if following then pending else [])
  }

  lemma BalancedInjected(h: History, opening: Injection, pending: seq<Message>, following: bool,
                         steered: seq<Message>, steered0: seq<Message>, followed: seq<Message>, followed0: seq<Message>, t: Turn)
    requires Balanced(h, opening, pending, following, steered, steered0, followed, followed0)
    requires TurnsOk(h.turns) && TurnOk(t)
    requires var x := NextInjection(opening, pending, following); t.steered == x.steered && t.followed == x.followed
    ensures Balanced(h.(turns := h.turns + [t]), NO_INJECTION, [], false, steered, steered0, followed, followed0)
  {
    TurnsNext(h.turns, t);
    AccountsInjected(steered, steered0, AllSteered(h.turns), opening.steered, if following then [] else pending, t.steered);
    AccountsInjected(followed, followed0, AllFollowed(h.turns), opening.followed, if following then pending else [], t.followed);
  }

  /** The history of a run: how it was opened, what its first poll returned, the queue modes, and its turns. */
  datatype History = History(
    opening: Injection, polled: seq<Message>, steeringMode: Mode, followUpMode: Mode,
    script: seq<TurnScript>, turns: seq<Turn>)

  /** A turn after the first comes because the last one left tool results to answer or because a queue had
      messages, never after a failed reply or a requested stop, and its messages come from one queue only. */
  ghost predicate Continues(h: History, k: nat)
    requires 0 < k < |h.turns| <= |h.script|
  {
    var t, last := h.turns[k], h.turns[k - 1];
    && t.prompts == []
    && (t.followed == [] || t.steered == [])
    && (h.steeringMode == OneAtATime ==> |t.steered| <= 1)
    && (h.followUpMode == OneAtATime ==> |t.followed| <= 1)
    && last.reply.Assistant? && !Failed(last.reply) && !h.script[k - 1].stop
    && (More(last) || Injected(t) != [])
    && (t.followed != [] ==> !More(last))
  }

  ghost predicate TurnAt(h: History, k: nat)
    requires k < |h.turns| <= |h.script|
  {
    var t := h.turns[k];
    && Follows(h.script[k], Injection(t.prompts, t.followed, t.steered), t)
    && if k == 0 then t.prompts == h.opening.prompts && t.followed == h.opening.followed
                      && t.steered == h.opening.steered + h.polled
       else Continues(h, k)
  }

  ghost predicate Sound(h: History) {
    |h.turns| <= |h.script| && forall k {:trigger TurnAt(h, k)} :: 0 <= k < |h.turns| ==> TurnAt(h, k)
  }

  lemma SoundNext(h: History, t: Turn)
    requires Sound(h) && |h.turns| < |h.script|
    requires TurnAt(h.(turns := h.turns + [t]), |h.turns|)
    ensures Sound(h.(turns := h.turns + [t]))
  {
    var h' := h.(turns := h.turns + [t]);
    forall k | 0 <= k < |h'.turns|
      ensures TurnAt(h', k)
    {
      if k < |h.turns| {
        assert TurnAt(h, k);
        assert h'.turns[k] == h.turns[k] && (k > 0 ==> h'.turns[k - 1] == h.turns[k - 1]);
      }
    }
  }

  /** What the loop keeps from turn to turn. `opening` is what was shown for the first turn until that turn is
      done, `following` says that the pending messages are follow-ups. */
  ghost predicate LoopInv(h: History, trace: seq<Event>, opening: Injection, newMessages: seq<Message>,
                          context: seq<Message>, ground: seq<Message>,
                          pending: seq<Message>, following: bool, more: bool)
  {
    && Sound(h)
    && Boundary(trace, h.turns, opening, newMessages, context, ground)
    && (h.turns == [] ==> opening == h.opening && pending == h.polled && !following && more)
    && (h.turns != [] ==>
         && var n := |h.turns|;
            var last := h.turns[n - 1];
            && !Failed(last.reply) && !h.script[n - 1].stop
            && (more && !following ==> More(last))
            && (following ==> !More(last) && pending != []))
    && (!following && h.steeringMode == OneAtATime ==> |pending| <= 1)
    && (following && h.followUpMode == OneAtATime ==> |pending| <= 1)
  }

  /** The next turn, from `turn_start` to `turn_end`. */
  method NextTurn(agent: Agent, sequential: bool, script: TurnScript, context: seq<Message>, newMessages: seq<Message>,
                  pending: seq<Message>, firstTurn: bool, more: bool, ghost h: History, ghost opening: Injection,
                  ghost ground: seq<Message>, ghost following: bool)
    returns (grown: seq<Message>, added: seq<Message>, again: bool, ghost t: Turn)
    requires agent.Synced() && BeginsOnce(script.stream)
    requires LoopInv(h, agent.trace, opening, newMessages, context, ground, pending, following, more)
    requires firstTurn == (h.turns == []) && (more || pending != [])
    requires |h.turns| < |h.script| && script == h.script[|h.turns|]
    modifies agent
    ensures agent.Synced() && agent.Kept(old(agent.start), old(agent.active), old(agent.aborted))
    ensures TurnOk(t) && Sound(h.(turns := h.turns + [t])) && again == More(t) && t.reply == script.reply
    ensures Boundary(agent.trace, h.turns + [t], NO_INJECTION, added, grown, ground + Added(t))
    ensures t.aborted ==> agent.aborted
    ensures var x := NextInjection(opening, pending, following); t.steered == x.steered && t.followed == x.followed
  {
    if !firstTurn {
      agent.Emit(TurnStart);
    }
    ghost var x := NextInjection(opening, pending, following);
    NextInjects(opening, pending, following);
    ghost var base := [AgentStart] + Word(h.turns);
    StartOfTurn(old(agent.trace), agent.trace, base, opening, firstTurn);
    grown, added, again, t := RunTurn(agent, sequential, script, context, newMessages, pending, base, Everything(opening), x);
    BoundaryNext(h.turns, opening, newMessages, context, ground, pending, t, added, grown);
    NextIsSound(h, opening, pending, following, t);
  }

  lemma StartOfTurn(before: seq<Event>, after: seq<Event>, base: seq<Event>, opening: Injection, firstTurn: bool)
    requires before == base + (if firstTurn then [TurnStart] + Pairs(Everything(opening)) else [])
    requires after == if firstTurn then before else before + [TurnStart]
    requires !firstTurn ==> opening == NO_INJECTION
    ensures after == base + [TurnStart] + Pairs(Everything(opening))
  {
  }

  lemma NextIsSound(h: History, opening: Injection, pending: seq<Message>, following: bool, t: Turn)
    requires Sound(h) && |h.turns| < |h.script|
    requires h.turns == [] ==> opening == h.opening && pending == h.polled && !following
    requires h.turns != [] ==>
      && opening == NO_INJECTION
      && var n := |h.turns|;
         var last := h.turns[n - 1];
         !Failed(last.reply) && !h.script[n - 1].stop
         && (More(last) || pending != []) && (following ==> !More(last))
    requires !following && h.steeringMode == OneAtATime ==> |pending| <= 1
    requires following && h.followUpMode == OneAtATime ==> |pending| <= 1
    requires Follows(h.script[|h.turns|], NextInjection(opening, pending, following), t)
    ensures Sound(h.(turns := h.turns + [t]))
  {
    var x, k := NextInjection(opening, pending, following), |h.turns|;
    var h' := h.(turns := h.turns + [t]);
    assert Injection(t.prompts, t.followed, t.steered) == x;
    if k > 0 {
      assert TurnAt(h, k - 1);
      assert h'.turns[k - 1] == h.turns[k - 1];
      assert Continues(h', k);
    }
    SoundNext(h, t);
  }

  /** The last turn's reply failed, or the caller asked to stop after it. */
  ghost predicate Halted(h: History) {
    0 < |h.turns| <= |h.script| && (Failed(h.turns[|h.turns| - 1].reply) || h.script[|h.turns| - 1].stop)
  }

  /** The last turn left tool results to answer. */
  ghost predicate Unanswered(h: History) { h.turns != [] && More(h.turns[|h.turns| - 1]) }

  /** Why a run ended: it was halted, or nothing was left to do but what was queued after the last poll. */
  ghost predicate Ended(h: History, steering: seq<Message>, followUps: seq<Message>) {
    Halted(h)
    || (!Unanswered(h) && followUps == [] && 0 < |h.turns| <= |h.script|
        && steering == h.script[|h.turns| - 1].later.steering)
  }

  /** A turn that is followed by another was answered by a reply that neither failed nor was aborted, nobody asked to stop
      after it, and either its reply called tools that did not all ask to terminate, or queued messages follow. */
  lemma GoesOnBecause(h: History, k: nat)
    requires Sound(h) && k + 1 < |h.turns|
    ensures var t, next := h.turns[k], h.turns[k + 1];
            && t.reply.Assistant? && t.reply.stopReason !in {Error, Aborted} && !h.script[k].stop
            && ((Calls(t.reply.blocks) != [] && !t.terminate) || next.followed + next.steered != [])
            && (next.followed != [] ==> Calls(t.reply.blocks) == [] || t.terminate)
  {
    assert TurnAt(h, k + 1);
    assert Continues(h, k + 1);
  }

  /** A reply that failed or was aborted ends the run, and its calls are not executed. */
  lemma FailureEndsRun(h: History, k: nat)
    requires Sound(h) && k < |h.turns| && h.script[k].reply.stopReason in {Error, Aborted}
    ensures k == |h.turns| - 1 && h.turns[k].steps == Nothing && h.turns[k].results == []
  {
    assert TurnAt(h, k);
    if k + 1 < |h.turns| {
      GoesOnBecause(h, k);
    }
  }

  /** In every turn of a run a tool runs only for a call its script lets run, and never for a reply that failed, was aborted
      or was cut off by the token limit; for any other reply it runs for every such call, unless the signal fired; and the
      calls of a reply that was cut off are answered with that notice. */
  lemma TurnRunsWhatMayRun(h: History, k: nat, i: nat)
    requires Sound(h) && k < |h.turns| && h.turns[k].reply.Assistant? && i < |Calls(h.turns[k].reply.blocks)|
    ensures var t, ran, script := h.turns[k], Watch(h.turns[k].steps).ran, h.script[k].tools(i);
            && t.reply == h.script[k].reply
            && (i in ran ==> MayRun(script) && ran[i] == script.updates && t.reply.stopReason !in {Error, Aborted, Length})
            && (!t.aborted && t.reply.stopReason !in {Error, Aborted, Length} ==> (i in ran <==> MayRun(script)))
            && (t.reply.stopReason == Length ==>
                  i < |t.results| && t.results[i].ToolResult? && t.results[i].isError
                  && t.results[i].text == Truncated(Calls(t.reply.blocks)[i].name))
  {
    var t := h.turns[k];
    assert TurnAt(h, k);
    var calls, scripts := Calls(t.reply.blocks), Scripts(Calls(t.reply.blocks), h.script[k].tools);
    if t.reply.stopReason !in {Error, Aborted, Length} {
      var finals :| Executes(calls, scripts, t.steps, finals, t.results, t.terminate, t.aborted);
      RunsExactlyWhatMayRun(calls, scripts, t.steps, finals, t.results, t.terminate, t.aborted, i);
    }
  }

  /** A run ends for one of three reasons: its last reply failed or was aborted, the caller asked to stop, or there are
      neither tool results to answer nor messages queued, but for steering that came after the last poll. */
  lemma EndsBecause(h: History, steering: seq<Message>, followUps: seq<Message>)
    requires Sound(h) && Ended(h, steering, followUps)
    ensures h.turns != []
    ensures var n := |h.turns| - 1;
            var t, script := h.turns[n], h.script[n];
            && t.reply.Assistant?
            && (|| t.reply.stopReason in {Error, Aborted}
                || script.stop
                || ((Calls(t.reply.blocks) == [] || t.terminate) && followUps == [] && steering == script.later.steering))
  {
    assert TurnAt(h, |h.turns| - 1);
  }

  lemma Completes(trace: seq<Event>, turns: seq<Turn>, newMessages: seq<Message>, context: seq<Message>,
                  ground: seq<Message>)
    requires Boundary(trace, turns, NO_INJECTION, newMessages, context, ground) && turns != []
    ensures CompleteTrace(trace + [AgentEnd(newMessages)], turns) && newMessages == AllAdded(turns)
  {
    assert AllAdded(turns) + Everything(NO_INJECTION) == AllAdded(turns);
    assert [AgentStart] + Word(turns) + [] == [AgentStart] + Word(turns);
  }

  // ---------------------------------------------------------------------------------------------
  // The context and the signal over a run
  // ---------------------------------------------------------------------------------------------

  /** `prepareNextTurn` replaces the context after a turn whose reply did not fail. */
  ghost function Reset(script: TurnScript, context: seq<Message>): seq<Message> {
    if !Failed(script.reply) && script.replacement.Some? then script.replacement.value else context
  }

  /** The context after the turns: each turn adds its messages, and may replace the whole. */
  ghost function ContextAfter(context0: seq<Message>, script: seq<TurnScript>, turns: seq<Turn>): seq<Message>
    requires |turns| <= |script|
    decreases |turns|, 1
  {
    if turns == [] then context0 else Reset(script[|turns| - 1], ContextBefore(context0, script, turns))
  }

  /** The context when the last turn ends, before it may be replaced. */
  ghost function ContextBefore(context0: seq<Message>, script: seq<TurnScript>, turns: seq<Turn>): seq<Message>
    requires 0 < |turns| <= |script|
    decreases |turns|, 0
  {
    ContextAfter(context0, script, turns[..|turns| - 1]) + Added(turns[|turns| - 1])
  }

  /** Without a replacement the context is the starting context followed by the messages of the turns. */
  lemma {:induction false} UnreplacedContext(context0: seq<Message>, script: seq<TurnScript>, turns: seq<Turn>)
    requires |turns| <= |script|
    requires forall k :: 0 <= k < |turns| ==> Failed(script[k].reply) || script[k].replacement.None?
    ensures ContextAfter(context0, script, turns) == context0 + AllAdded(turns)
    decreases |turns|
  {
    if turns == [] {
      assert context0 + [] == context0;
    } else {
      var n := |turns| - 1;
      UnreplacedContext(context0, script, turns[..n]);
      assert context0 + AllAdded(turns[..n]) + Added(turns[n]) == context0 + (AllAdded(turns[..n]) + Added(turns[n]));
    }
  }

  /** The last replacement is what counts: from there on the context is the replacement followed by the messages of the
      later turns. */
  lemma {:induction false} ReplacedContext(context0: seq<Message>, script: seq<TurnScript>, turns: seq<Turn>, k: nat)
    requires k < |turns| <= |script|
    requires script[k].replacement.Some? && script[k].reply.stopReason !in {Error, Aborted}
    requires forall j :: k < j < |turns| ==> Failed(script[j].reply) || script[j].replacement.None?
    ensures ContextAfter(context0, script, turns) == script[k].replacement.value + AllAdded(turns[k + 1..])
    decreases |turns|
  {
    var n := |turns| - 1;
    if k == n {
      assert turns[k + 1..] == [];
    } else {
      ReplacedContext(context0, script, turns[..n], k);
      var later := turns[k + 1..];
      assert later[..|later| - 1] == turns[..n][k + 1..];
      Regrouped2(script[k].replacement.value, AllAdded(turns[..n][k + 1..]), Added(turns[n]));
    }
  }

  lemma Regrouped2<T>(a: seq<T>, b: seq<T>, c: seq<T>)
    ensures a + b + c == a + (b + c)
  {
  }

  /** Some turn saw the signal fire. */
  ghost predicate AnyAborted(turns: seq<Turn>) {
    turns != [] && (turns[|turns| - 1].aborted || AnyAborted(turns[..|turns| - 1]))
  }

  lemma AnyAbortedNext(turns: seq<Turn>, t: Turn)
    ensures AnyAborted(turns + [t]) <==> AnyAborted(turns) || t.aborted
  {
    assert (turns + [t])[..|turns|] == turns;
  }

  lemma {:induction false} AbortedTurn(turns: seq<Turn>, k: nat)
    requires k < |turns| && turns[k].aborted
    ensures AnyAborted(turns)
  {
    if k < |turns| - 1 {
      AbortedTurn(turns[..|turns| - 1], k);
    }
  }

  /** In a run whose signal no turn saw, every call of every reply that did not fail is answered. */
  lemma EveryCallAnswered(h: History, k: nat)
    requires Sound(h) && k < |h.turns| && !AnyAborted(h.turns)
    ensures var t := h.turns[k];
            t.reply.Assistant? && (!Failed(t.reply) ==> |t.results| == |Calls(t.reply.blocks)|)
  {
    assert TurnAt(h, k);
    if h.turns[k].aborted {
      AbortedTurn(h.turns, k);
    }
  }

  /** The loop's variables. */
  datatype Loop = Loop(context: seq<Message>, newMessages: seq<Message>, pending: seq<Message>, firstTurn: bool)

  /** What a run is measured against: its history, the messages shown for its first turn until that is done, the
      context the turns account for, whether the pending messages are follow-ups, and where it started. */
  datatype Book = Book(
    h: History, opening: Injection, ground: seq<Message>, following: bool,
    context0: seq<Message>, steered0: seq<Message>, followed0: seq<Message>)

  ghost predicate Grounded(b: Book) {
    |b.h.turns| <= |b.h.script| && b.ground == ContextAfter(b.context0, b.h.script, b.h.turns)
  }

  ghost predicate Inv(l: Loop, b: Book, trace: seq<Event>, steered: seq<Message>, followed: seq<Message>, more: bool) {
    && LoopInv(b.h, trace, b.opening, l.newMessages, l.context, b.ground, l.pending, b.following, more)
    && Grounded(b)
    && Balanced(b.h, b.opening, l.pending, b.following, steered, b.steered0, followed, b.followed0)
    && l.firstTurn == (b.h.turns == [])
  }

  /** The run is complete: its trace is a word of the grammar, nothing drained is left pending, the new messages are
      those of the turns, and the context is the one the turns lead to. */
  ghost predicate Done(l: Loop, b: Book, trace: seq<Event>, steered: seq<Message>, followed: seq<Message>) {
    && Sound(b.h) && CompleteTrace(trace, b.h.turns) && l.pending == []
    && l.newMessages == AllAdded(b.h.turns)
    && l.context == ContextAfter(b.context0, b.h.script, b.h.turns)
    && steered == b.steered0 + AllSteered(b.h.turns) && followed == b.followed0 + AllFollowed(b.h.turns)
  }

  /** Only the turns, the pending messages and the context of a book change in a run. */
  ghost predicate SameRun(b: Book, b': Book) {
    b'.h == b.h.(turns := b'.h.turns) && b'.context0 == b.context0 && b'.steered0 == b.steered0 && b'.followed0 == b.followed0
  }

  /** Right after a turn: nothing is pending. */
  ghost predicate AfterTurn(l: Loop, b: Book, trace: seq<Event>, steered: seq<Message>, followed: seq<Message>) {
    && Sound(b.h) && b.h.turns != [] && l.pending == [] && !l.firstTurn && b.opening == NO_INJECTION && !b.following
    && Boundary(trace, b.h.turns, NO_INJECTION, l.newMessages, l.context, b.ground)
    && Balanced(b.h, NO_INJECTION, [], false, steered, b.steered0, followed, b.followed0)
  }

  /** The last turn is done and the context is still the one it left. */
  ghost predicate Unreset(b: Book) {
    0 < |b.h.turns| <= |b.h.script| && b.ground == ContextBefore(b.context0, b.h.script, b.h.turns)
  }

  lemma Finishes(l: Loop, b: Book, trace: seq<Event>, steered: seq<Message>, followed: seq<Message>)
    requires AfterTurn(l, b, trace, steered, followed) && Grounded(b)
    ensures Done(l, b, trace + [AgentEnd(l.newMessages)], steered, followed)
  {
    Completes(trace, b.h.turns, l.newMessages, l.context, b.ground);
  }

  /** `prepareNextTurn` may put another context in place. */
  lemma Resets(l: Loop, b: Book, trace: seq<Event>, steered: seq<Message>, followed: seq<Message>, script: TurnScript)
    requires AfterTurn(l, b, trace, steered, followed) && Unreset(b) && script == b.h.script[|b.h.turns| - 1]
    ensures var b' := b.(ground := Reset(script, b.ground));
            AfterTurn(l.(context := Reset(script, l.context)), b', trace, steered, followed) && Grounded(b')
  {
    assert l.context == b.ground + Everything(NO_INJECTION) == b.ground;
    assert Reset(script, b.ground) + Everything(NO_INJECTION) == Reset(script, b.ground);
  }

  /** Polling the steering queue after a turn that ended neither the run nor the script. */
  lemma Steers(l: Loop, b: Book, trace: seq<Event>, steered: seq<Message>, followed: seq<Message>, taken: seq<Message>)
    requires AfterTurn(l, b, trace, steered, followed) && Grounded(b)
    requires b.h.steeringMode == OneAtATime ==> |taken| <= 1
    requires !Halted(b.h)
    ensures Inv(l.(pending := taken), b, trace, steered + taken, followed, Unanswered(b.h))
  {
    AccountsDrained(steered, b.steered0, AllSteered(b.h.turns), [], taken);
  }

  /** Polling the follow-up queue when the agent would stop. */
  lemma FollowsUp(l: Loop, b: Book, trace: seq<Event>, steered: seq<Message>, followed: seq<Message>, taken: seq<Message>)
    requires AfterTurn(l, b, trace, steered, followed) && Grounded(b) && taken != []
    requires b.h.followUpMode == OneAtATime ==> |taken| <= 1
    requires !Halted(b.h) && !Unanswered(b.h)
    ensures Inv(l.(pending := taken), b.(following := true), trace, steered, followed + taken, true)
  {
    AccountsDrained(followed, b.followed0, AllFollowed(b.h.turns), [], taken);
  }

  lemma IdleIsAfterTurn(l: Loop, b: Book, trace: seq<Event>, steered: seq<Message>, followed: seq<Message>)
    requires Inv(l, b, trace, steered, followed, false) && l.pending == [] && !b.following && b.h.turns != []
    ensures AfterTurn(l, b, trace, steered, followed) && Grounded(b)
  {
  }

  /** One turn of the inner loop. */
  method TakeTurn(agent: Agent, sequential: bool, script: TurnScript, l: Loop, more: bool, ghost b: Book,
                  ghost steered: seq<Message>, ghost followed: seq<Message>)
    returns (l': Loop, again: bool, ghost b': Book)
    requires agent.Synced() && BeginsOnce(script.stream)
    requires Inv(l, b, agent.trace, steered, followed, more) && (more || l.pending != [])
    requires |b.h.turns| < |b.h.script| && script == b.h.script[|b.h.turns|]
    requires AnyAborted(b.h.turns) ==> agent.aborted
    modifies agent
    ensures agent.Synced() && agent.Kept(old(agent.start), old(agent.active), old(agent.aborted))
    ensures SameRun(b, b') && |b'.h.turns| == |b.h.turns| + 1
    ensures AfterTurn(l', b', agent.trace, steered, followed) && Unreset(b')
    ensures AnyAborted(b'.h.turns) ==> agent.aborted
    ensures again == Unanswered(b'.h) && b'.h.turns[|b.h.turns|].reply == script.reply
  {
    var context, newMessages;
    ghost var turn;
    context, newMessages, again, turn := NextTurn(agent, sequential, script, l.context, l.newMessages, l.pending,
                                                  l.firstTurn, more, b.h, b.opening, b.ground, b.following);
    BalancedInjected(b.h, b.opening, l.pending, b.following, steered, b.steered0, followed, b.followed0, turn);
    AnyAbortedNext(b.h.turns, turn);
    b' := b.(h := b.h.(turns := b.h.turns + [turn]), opening := NO_INJECTION, following := false, ground := b.ground + Added(turn));
    assert b'.h.turns[..|b.h.turns|] == b.h.turns;
    l' := Loop(context, newMessages, [], false);
  }

  /** The end of a turn: a failed reply or a requested stop ends the run, and otherwise steering is polled. */
  method CloseTurn(agent: Agent, steering: PendingMessageQueue, followUps: PendingMessageQueue, script: TurnScript,
                   l: Loop, ghost b: Book)
    returns (l': Loop, ended: bool, ghost b': Book)
    requires agent.Synced() && steering != followUps && steering.Valid() && followUps.Valid()
    requires steering.mode == b.h.steeringMode
    requires AfterTurn(l, b, agent.trace, steering.drained, followUps.drained) && Unreset(b)
    requires var n := |b.h.turns| - 1; b.h.script[n] == script && b.h.turns[n].reply == script.reply
    modifies agent, steering, followUps
    ensures agent.Synced() && agent.Kept(old(agent.start), old(agent.active), old(agent.aborted))
    ensures steering.Valid() && followUps.Valid()
    ensures b' == b.(ground := b'.ground)
    ensures ended == Halted(b.h)
    ensures ended ==> Done(l', b', agent.trace, steering.drained, followUps.drained)
    ensures !ended ==> Inv(l', b', agent.trace, steering.drained, followUps.drained, Unanswered(b.h))
                       && (l'.pending == [] || steering.mode == All ==> steering.messages == [])
  {
    l', b', ended := l, b.(ground := Reset(script, b.ground)), true;
    Resets(l, b, agent.trace, steering.drained, followUps.drained, script);
    if Failed(script.reply) {
      EndRun(agent, l', b', steering.drained, followUps.drained);
      return;
    }
    if script.replacement.Some? {
      l' := l'.(context := script.replacement.value);
    }
    if script.stop {
      EndRun(agent, l', b', steering.drained, followUps.drained);
      return;
    }
    ended := false;
    l' := PollSteering(agent, steering, followUps, script, l', b');
  }

  method EndRun(agent: Agent, l: Loop, ghost b: Book, ghost steered: seq<Message>, ghost followed: seq<Message>)
    requires agent.Synced() && AfterTurn(l, b, agent.trace, steered, followed) && Grounded(b)
    modifies agent
    ensures agent.Synced() && agent.Kept(old(agent.start), old(agent.active), old(agent.aborted))
    ensures Done(l, b, agent.trace, steered, followed)
  {
    Finishes(l, b, agent.trace, steered, followed);
    agent.Emit(AgentEnd(l.newMessages));
  }

  method PollSteering(agent: Agent, steering: PendingMessageQueue, followUps: PendingMessageQueue, script: TurnScript,
                      l: Loop, ghost b: Book)
    returns (l': Loop)
    requires steering != followUps && steering.Valid() && followUps.Valid() && steering.mode == b.h.steeringMode
    requires AfterTurn(l, b, agent.trace, steering.drained, followUps.drained) && Grounded(b)
    requires !Halted(b.h)
    modifies steering, followUps
    ensures steering.Valid() && followUps.Valid() && (l'.pending == [] || steering.mode == All ==> steering.messages == [])
    ensures Inv(l', b, agent.trace, steering.drained, followUps.drained, Unanswered(b.h))
  {
    steering.Enqueue(script.before.steering);
    followUps.Enqueue(script.before.followUps);
    Steers(l, b, agent.trace, steering.drained, followUps.drained, Taken(steering.mode, steering.messages));
    var pending := steering.Drain();
    l' := l.(pending := pending);
  }

  /** One pass of the inner loop: a turn, then the exits and the steering poll. */
  method Pass(agent: Agent, steering: PendingMessageQueue, followUps: PendingMessageQueue, sequential: bool,
              script: TurnScript, l: Loop, more: bool, ghost b: Book)
    returns (l': Loop, again: bool, ended: bool, ghost b': Book)
    requires agent.Synced() && steering != followUps && steering.Valid() && followUps.Valid()
    requires BeginsOnce(script.stream) && steering.mode == b.h.steeringMode
    requires Inv(l, b, agent.trace, steering.drained, followUps.drained, more) && (more || l.pending != [])
    requires |b.h.turns| < |b.h.script| && script == b.h.script[|b.h.turns|]
    requires AnyAborted(b.h.turns) ==> agent.aborted
    modifies agent, steering, followUps
    ensures agent.Synced() && agent.Kept(old(agent.start), old(agent.active), old(agent.aborted))
    ensures steering.Valid() && followUps.Valid()
    ensures SameRun(b, b') && |b'.h.turns| == |b.h.turns| + 1
    ensures again == Unanswered(b'.h) && ended == Halted(b'.h)
    ensures AnyAborted(b'.h.turns) ==> agent.aborted
    ensures ended ==> Done(l', b', agent.trace, steering.drained, followUps.drained)
    ensures !ended ==> Inv(l', b', agent.trace, steering.drained, followUps.drained, again) && !b'.following
                       && (l'.pending == [] || steering.mode == All ==> steering.messages == [])
  {
    ghost var b1;
    l', again, b1 := TakeTurn(agent, sequential, script, l, more, b, steering.drained, followUps.drained);
    l', ended, b' := CloseTurn(agent, steering, followUps, script, l', b1);
  }

  /** The agent would stop: a queued follow-up keeps the outer loop going. */
  method PollFollowUps(agent: Agent, steering: PendingMessageQueue, followUps: PendingMessageQueue, script: TurnScript,
                       l: Loop, ghost b: Book)
    returns (l': Loop, ghost b': Book)
    requires steering != followUps && steering.Valid() && followUps.Valid() && followUps.mode == b.h.followUpMode
    requires AfterTurn(l, b, agent.trace, steering.drained, followUps.drained) && Grounded(b)
    requires !Halted(b.h) && !Unanswered(b.h) && steering.messages == [] && script == b.h.script[|b.h.turns| - 1]
    modifies steering, followUps
    ensures steering.Valid() && followUps.Valid()
    ensures if l'.pending == [] then
              && Ended(b.h, steering.messages, followUps.messages) && b' == b
              && AfterTurn(l', b, agent.trace, steering.drained, followUps.drained) && Grounded(b)
            else
              b' == b.(following := true) && Inv(l', b', agent.trace, steering.drained, followUps.drained, true)
    ensures followUps.mode == All ==> followUps.messages == []
  {
    steering.Enqueue(script.later.steering);
    followUps.Enqueue(script.later.followUps);
    ghost var taken, followed := Taken(followUps.mode, followUps.messages), followUps.drained;
    if taken != [] {
      FollowsUp(l, b, agent.trace, steering.drained, followed, taken);
    }
    var pending := followUps.Drain();
    l' := l.(pending := pending);
    b' := if pending == [] then b else b.(following := true);
    assert pending == [] ==> l' == l && followUps.drained == followed;
  }

  /** A run that is not over: everything holds up to the turn that is to come, and there is a reason for it. */
  ghost predicate Underway(l: Loop, b: Book, trace: seq<Event>, steered: seq<Message>, followed: seq<Message>) {
    && (Inv(l, b, trace, steered, followed, true) || Inv(l, b, trace, steered, followed, false))
    && !Halted(b.h) && (b.h.turns == [] || Unanswered(b.h) || l.pending != [])
  }

  ghost function OpeningBook(opening: Injection, polled: seq<Message>, steeringMode: Mode, followUpMode: Mode,
                             script: seq<TurnScript>, context0: seq<Message>, steered0: seq<Message>,
                             followed0: seq<Message>): Book
  {
    Book(History(opening, polled, steeringMode, followUpMode, script, []), opening, context0, false, context0, steered0, followed0)
  }

  lemma Opens(l: Loop, b: Book, trace: seq<Event>, steered: seq<Message>)
    requires b == OpeningBook(b.h.opening, b.h.polled, b.h.steeringMode, b.h.followUpMode, b.h.script, b.context0, b.steered0, b.followed0)
    requires trace == [AgentStart] + [TurnStart] + Pairs(Everything(b.h.opening))
    requires l == Loop(b.context0 + Everything(b.h.opening), Everything(b.h.opening), b.h.polled, true)
    requires b.h.steeringMode == OneAtATime ==> |b.h.polled| <= 1
    requires steered == b.steered0 + b.h.opening.steered
    ensures Inv(l, b, trace, steered + b.h.polled, b.followed0 + b.h.opening.followed, true)
  {
    OpensAtBoundary(l.newMessages, l.context, b.h.opening, b.context0, trace);
    OpensAccounts(steered, b.steered0, b.h.opening.steered, b.h.polled);
    OpensAccounts(b.followed0 + b.h.opening.followed, b.followed0, b.h.opening.followed, []);
    assert b.followed0 + b.h.opening.followed + [] == b.followed0 + b.h.opening.followed;
  }

  lemma OpensAtBoundary(newMessages: seq<Message>, context: seq<Message>, opening: Injection, context0: seq<Message>, trace: seq<Event>)
    requires trace == [AgentStart] + [TurnStart] + Pairs(Everything(opening))
    requires newMessages == Everything(opening) && context == context0 + Everything(opening)
    ensures Boundary(trace, [], opening, newMessages, context, context0)
  {
    assert trace == [AgentStart] + Word([]) + ([TurnStart] + Pairs(Everything(opening)));
    assert AllAdded([]) + Everything(opening) == Everything(opening);
  }

  lemma OpensAccounts(drained: seq<Message>, drained0: seq<Message>, opening: seq<Message>, polled: seq<Message>)
    requires drained == drained0 + opening
    ensures Accounts(drained + polled, drained0, [], opening, polled)
  {
  }

  /** The steering poll before the first turn. */
  method InitialPoll(agent: Agent, steering: PendingMessageQueue, followUps: PendingMessageQueue, skipInitialPoll: bool,
                     initial: seq<Message>, prompted: seq<Message>, arriving: Arrivals, ghost script: seq<TurnScript>,
                     ghost opening: Injection, ghost context0: seq<Message>, ghost steered0: seq<Message>,
                     ghost followed0: seq<Message>)
    returns (l: Loop, ghost b: Book)
    requires steering != followUps && steering.Valid() && followUps.Valid()
    requires agent.trace == [AgentStart] + [TurnStart] + Pairs(Everything(opening))
    requires prompted == Everything(opening) && initial == context0 + prompted
    requires steering.drained == steered0 + opening.steered && followUps.drained == followed0 + opening.followed
    modifies steering, followUps
    ensures steering.Valid() && followUps.Valid()
    ensures var polled := if skipInitialPoll then [] else Taken(steering.mode, old(steering.messages) + arriving.steering);
            b == OpeningBook(opening, polled, steering.mode, followUps.mode, script, context0, steered0, followed0)
    ensures Inv(l, b, agent.trace, steering.drained, followUps.drained, true)
    ensures !skipInitialPoll && steering.mode == All ==> steering.messages == []
  {
    steering.Enqueue(arriving.steering);
    followUps.Enqueue(arriving.followUps);
    ghost var steered := steering.drained;
    var pending := [];
    if !skipInitialPoll {
      pending := steering.Drain();
    }
    assert steering.drained == steered + pending;
    b := OpeningBook(opening, pending, steering.mode, followUps.mode, script, context0, steered0, followed0);
    l := Loop(initial, prompted, pending, true);
    Opens(l, b, agent.trace, steered);
  }

  datatype Exit = Idle | Over | OutOfScript

  /** Where a run stands after a pass of the outer loop: going on, over, or out of script. */
  ghost predicate Stands(exit: Exit, l: Loop, b: Book, trace: seq<Event>, steering: PendingMessageQueue,
                         followUps: PendingMessageQueue, t: nat)
    reads steering, followUps
  {
    match exit
    case Idle => Inv(l, b, trace, steering.drained, followUps.drained, true)
    case Over => Done(l, b, trace, steering.drained, followUps.drained) && Ended(b.h, steering.messages, followUps.messages)
    case OutOfScript => t == |b.h.script| && Underway(l, b, trace, steering.drained, followUps.drained)
  }

  /** The inner loop has nothing left to do. */
  ghost predicate Idles(l: Loop, b: Book, trace: seq<Event>, steered: seq<Message>, followed: seq<Message>) {
    && Inv(l, b, trace, steered, followed, false) && l.pending == [] && !b.following
    && !Halted(b.h) && !Unanswered(b.h) && 0 < |b.h.turns| <= |b.h.script|
  }

  /** The agent would stop: end the run unless a follow-up is queued. */
  method StopOrFollowUp(agent: Agent, steering: PendingMessageQueue, followUps: PendingMessageQueue, script: TurnScript,
                        l0: Loop, ghost b0: Book, ghost t: nat)
    returns (exit: Exit, l: Loop, ghost b: Book)
    requires agent.Synced() && steering != followUps && steering.Valid() && followUps.Valid()
    requires followUps.mode == b0.h.followUpMode
    requires Idles(l0, b0, agent.trace, steering.drained, followUps.drained) && steering.messages == []
    requires script == b0.h.script[|b0.h.turns| - 1]
    modifies agent, steering, followUps
    ensures agent.Synced() && agent.Kept(old(agent.start), old(agent.active), old(agent.aborted))
    ensures steering.Valid() && followUps.Valid() && b == b0.(following := b.following)
    ensures exit != OutOfScript && Stands(exit, l, b, agent.trace, steering, followUps, t)
  {
    IdleIsAfterTurn(l0, b0, agent.trace, steering.drained, followUps.drained);
    l, b := PollFollowUps(agent, steering, followUps, script, l0, b0);
    if l.pending == [] {
      EndRun(agent, l, b, steering.drained, followUps.drained);
      exit := Over;
    } else {
      exit := Idle;
    }
  }

  /** The inner loop: turns as long as there are tool results to answer or messages pending. */
  method RunTurns(agent: Agent, steering: PendingMessageQueue, followUps: PendingMessageQueue, sequential: bool,
                  script: seq<TurnScript>, start: nat, l0: Loop, ghost b0: Book)
    returns (exit: Exit, t: nat, l: Loop, ghost b: Book)
    requires agent.Synced() && steering != followUps && steering.Valid() && followUps.Valid()
    requires AllBeginOnce(script) && script == b0.h.script && start == |b0.h.turns| <= |script|
    requires steering.mode == b0.h.steeringMode
    requires Inv(l0, b0, agent.trace, steering.drained, followUps.drained, true)
    requires AnyAborted(b0.h.turns) ==> agent.aborted
    modifies agent, steering, followUps
    ensures agent.Synced() && agent.Kept(old(agent.start), old(agent.active), old(agent.aborted))
    ensures steering.Valid() && followUps.Valid() && SameRun(b0, b) && t == |b.h.turns| <= |script|
    ensures AnyAborted(b.h.turns) ==> agent.aborted
    ensures exit == Over ==> Done(l, b, agent.trace, steering.drained, followUps.drained) && Halted(b.h)
    ensures exit == OutOfScript ==> t == |script| && Underway(l, b, agent.trace, steering.drained, followUps.drained)
    ensures exit == Idle ==> t > start && Idles(l, b, agent.trace, steering.drained, followUps.drained) && steering.messages == []
  {
    l, b, t, exit := l0, b0, start, Idle;
    var more := true;
    while exit == Idle && (more || l.pending != [])
      invariant agent.Synced() && agent.Kept(old(agent.start), old(agent.active), old(agent.aborted))
      invariant steering.Valid() && followUps.Valid()
      invariant SameRun(b0, b) && start <= t == |b.h.turns| <= |script|
      invariant Turning(exit, t == start, more, l, b, agent.trace, steering, followUps)
      invariant AnyAborted(b.h.turns) ==> agent.aborted
      decreases exit == Idle, |script| - t
    {
      exit, t, more, l, b := TryPass(agent, steering, followUps, sequential, script, t, more, l, b, t == start);
    }
  }

  /** Where the inner loop stands before a pass; `atStart` tells that it has not taken a turn yet. */
  ghost predicate Turning(exit: Exit, atStart: bool, more: bool, l: Loop, b: Book, trace: seq<Event>,
                          steering: PendingMessageQueue, followUps: PendingMessageQueue)
    reads steering, followUps
  {
    match exit
    case Idle =>
      && Inv(l, b, trace, steering.drained, followUps.drained, more)
      && if atStart then more
         else && !b.following && more == Unanswered(b.h) && !Halted(b.h)
              && (l.pending == [] || steering.mode == All ==> steering.messages == [])
    case Over => Done(l, b, trace, steering.drained, followUps.drained) && Halted(b.h)
    case OutOfScript => |b.h.turns| == |b.h.script| && Underway(l, b, trace, steering.drained, followUps.drained)
  }

  /** A pass of the inner loop, unless the script is used up. */
  method TryPass(agent: Agent, steering: PendingMessageQueue, followUps: PendingMessageQueue, sequential: bool,
                 script: seq<TurnScript>, t0: nat, more0: bool, l0: Loop, ghost b0: Book, ghost atStart: bool)
    returns (exit: Exit, t: nat, more: bool, l: Loop, ghost b: Book)
    requires agent.Synced() && steering != followUps && steering.Valid() && followUps.Valid()
    requires AllBeginOnce(script) && script == b0.h.script && t0 == |b0.h.turns| <= |script|
    requires steering.mode == b0.h.steeringMode && (more0 || l0.pending != [])
    requires Turning(Idle, atStart, more0, l0, b0, agent.trace, steering, followUps)
    requires AnyAborted(b0.h.turns) ==> agent.aborted
    modifies agent, steering, followUps
    ensures agent.Synced() && agent.Kept(old(agent.start), old(agent.active), old(agent.aborted))
    ensures steering.Valid() && followUps.Valid() && SameRun(b0, b) && t == |b.h.turns| <= |script|
    ensures AnyAborted(b.h.turns) ==> agent.aborted
    ensures Turning(exit, false, more, l, b, agent.trace, steering, followUps)
    ensures exit == OutOfScript || t == t0 + 1
  {
    if t0 == |script| {
      exit, t, more, l, b := OutOfScript, t0, more0, l0, b0;
      return;
    }
    var over;
    l, more, over, b := Pass(agent, steering, followUps, sequential, script[t0], l0, more0, b0);
    exit, t := if over then Over else Idle, t0 + 1;
  }

  /** One pass of the outer loop: the inner loop, then the follow-up poll. */
  method OuterPass(agent: Agent, steering: PendingMessageQueue, followUps: PendingMessageQueue, sequential: bool,
                   script: seq<TurnScript>, start: nat, l0: Loop, ghost b0: Book)
    returns (exit: Exit, t: nat, l: Loop, ghost b: Book)
    requires agent.Synced() && steering != followUps && steering.Valid() && followUps.Valid()
    requires AllBeginOnce(script) && script == b0.h.script && start == |b0.h.turns| <= |script|
    requires steering.mode == b0.h.steeringMode && followUps.mode == b0.h.followUpMode
    requires Inv(l0, b0, agent.trace, steering.drained, followUps.drained, true)
    requires AnyAborted(b0.h.turns) ==> agent.aborted
    modifies agent, steering, followUps
    ensures agent.Synced() && agent.Kept(old(agent.start), old(agent.active), old(agent.aborted))
    ensures steering.Valid() && followUps.Valid() && SameRun(b0, b) && t == |b.h.turns| <= |script|
    ensures AnyAborted(b.h.turns) ==> agent.aborted
    ensures Stands(exit, l, b, agent.trace, steering, followUps, t) && (exit == Idle ==> t > start)
  {
    exit, t, l, b := RunTurns(agent, steering, followUps, sequential, script, start, l0, b0);
    if exit == Idle {
      exit, l, b := StopOrFollowUp(agent, steering, followUps, script[t - 1], l, b, t);
    }
  }

  /** Both loops. A run that outlasts the script is still under way when the script is used up. */
  method RunLoop(agent: Agent, steering: PendingMessageQueue, followUps: PendingMessageQueue, sequential: bool,
                 skipInitialPoll: bool, initial: seq<Message>, prompted: seq<Message>, arriving: Arrivals,
                 script: seq<TurnScript>, ghost opening: Injection, ghost context0: seq<Message>,
                 ghost steered0: seq<Message>, ghost followed0: seq<Message>)
    returns (finished: bool, l: Loop, ghost b: Book)
    requires agent.Synced() && steering != followUps && steering.Valid() && followUps.Valid()
    requires agent.trace == [AgentStart] + [TurnStart] + Pairs(Everything(opening))
    requires prompted == Everything(opening) && initial == context0 + prompted
    requires steering.drained == steered0 + opening.steered && followUps.drained == followed0 + opening.followed
    requires AllBeginOnce(script)
    modifies agent, steering, followUps
    ensures agent.Synced() && agent.Kept(old(agent.start), old(agent.active), old(agent.aborted))
    ensures steering.Valid() && followUps.Valid()
    ensures var polled := if skipInitialPoll then [] else Taken(steering.mode, old(steering.messages) + arriving.steering);
            SameRun(OpeningBook(opening, polled, steering.mode, followUps.mode, script, context0, steered0, followed0), b)
    ensures finished ==> Done(l, b, agent.trace, steering.drained, followUps.drained)
                         && Ended(b.h, steering.messages, followUps.messages)
    ensures !finished ==> |b.h.turns| == |script| && Underway(l, b, agent.trace, steering.drained, followUps.drained)
    ensures AnyAborted(b.h.turns) ==> agent.aborted
  {
    l, b := InitialPoll(agent, steering, followUps, skipInitialPoll, initial, prompted, arriving, script, opening, context0,
                        steered0, followed0);
    ghost var b0 := b;
    finished := false;
    var t, exit := 0, Idle;
    while exit == Idle
      invariant agent.Synced() && agent.Kept(old(agent.start), old(agent.active), old(agent.aborted))
      invariant steering.Valid() && followUps.Valid() && SameRun(b0, b) && t == |b.h.turns| <= |script|
      invariant Stands(exit, l, b, agent.trace, steering, followUps, t)
      invariant AnyAborted(b.h.turns) ==> agent.aborted
      decreases exit == Idle, |script| - t
    {
      exit, t, l, b := OuterPass(agent, steering, followUps, sequential, script, t, l, b);
    }
    finished := exit == Over;
  }

  // ---------------------------------------------------------------------------------------------
  // Runs of the agent
  // ---------------------------------------------------------------------------------------------

  datatype AgentError = AlreadyProcessing | NothingToContinue | CannotContinueFromAssistant

  /** No run is active. */
  ghost predicate Rests(agent: Agent)
    reads agent
  {
    !agent.active && agent.pendingToolCalls == {} && agent.streamingMessage.None? && agent.Synced()
  }

  /** The transcript rebuilt from the events of a run that has reached a turn boundary. */
  lemma TranscriptUnderway(s: AgentState, trace: seq<Event>, turns: seq<Turn>, opening: Injection,
                           newMessages: seq<Message>, context: seq<Message>, ground: seq<Message>)
    requires Boundary(trace, turns, opening, newMessages, context, ground)
    requires s.pendingToolCalls == {} && s.streaming.None?
    ensures Settled(ReduceAll(s, trace), s.messages + newMessages)
  {
    if turns == [] {
      var a, b := [AgentStart] + Word(turns), Pairs(Everything(opening));
      assert a == [AgentStart];
      assert trace == a + [TurnStart] + b;
      ReduceConcat(s, a + [TurnStart], b);
      ReduceConcat(s, a, [TurnStart]);
      ReduceOne(s, AgentStart);
      ReduceOne(ReduceAll(s, a), TurnStart);
      ReducePairs(s, Everything(opening));
      assert AllAdded(turns) + Everything(opening) == Everything(opening);
    } else {
      TranscriptAtBoundary(s, turns);
      assert trace == [AgentStart] + Word(turns);
      assert AllAdded(turns) + Everything(opening) == AllAdded(turns);
    }
  }

  /** No turn so far replaced the context. */
  ghost predicate Unreplaced(h: History) {
    |h.turns| <= |h.script| && forall k :: 0 <= k < |h.turns| ==> Failed(h.script[k].reply) || h.script[k].replacement.None?
  }

  /** Every call of every reply that did not fail is answered. */
  ghost predicate AllAnswered(turns: seq<Turn>) {
    forall k :: 0 <= k < |turns| && turns[k].reply.Assistant? && !Failed(turns[k].reply) ==>
      |turns[k].results| == |Calls(turns[k].reply.blocks)|
  }

  /** The outcome of a run: where it stands, that the agent's transcript grew by exactly the new messages, that the
      loop's context is the same transcript unless it was replaced, that no tool call is pending, that every call is
      answered unless the signal fired, and that each queue's messages were injected, are pending or are still
      queued. */
  ghost predicate RunResult(finished: bool, l: Loop, b: Book, agent: Agent, steering: PendingMessageQueue,
                            followUps: PendingMessageQueue)
    reads agent, steering, followUps
  {
    && (if finished then
          && Done(l, b, agent.trace, steering.drained, followUps.drained)
          && Ended(b.h, steering.messages, followUps.messages)
          && Rests(agent)
        else
          |b.h.turns| == |b.h.script| && Underway(l, b, agent.trace, steering.drained, followUps.drained) && agent.active)
    && agent.messages == b.context0 + l.newMessages && agent.pendingToolCalls == {}
    && (Unreplaced(b.h) ==> l.context == b.context0 + l.newMessages)
    && (!agent.aborted ==> AllAnswered(b.h.turns))
    && steering.Valid() && followUps.Valid()
  }

  /** `runWithLifecycle` around `runAgentLoop`, or around `runAgentLoopContinue` when there are no prompts. */
  method RunWithLifecycle(agent: Agent, steering: PendingMessageQueue, followUps: PendingMessageQueue, sequential: bool,
                          skipInitialPoll: bool, prompts: seq<Message>, arriving: Arrivals, script: seq<TurnScript>,
                          ghost opening: Injection, ghost steered0: seq<Message>, ghost followed0: seq<Message>)
    returns (finished: bool, l: Loop, ghost b: Book)
    requires Rests(agent) && steering != followUps && steering.Valid() && followUps.Valid()
    requires prompts == Everything(opening)
    requires steering.drained == steered0 + opening.steered && followUps.drained == followed0 + opening.followed
    requires AllBeginOnce(script)
    modifies agent, steering, followUps
    ensures RunResult(finished, l, b, agent, steering, followUps)
    ensures var polled := if skipInitialPoll then [] else Taken(steering.mode, old(steering.messages) + arriving.steering);
            SameRun(OpeningBook(opening, polled, steering.mode, followUps.mode, script, old(agent.messages), steered0, followed0), b)
  {
    var context := agent.messages;
    var initial, prompted := Announce(agent, prompts);
    finished, l, b := RunLoop(agent, steering, followUps, sequential, skipInitialPoll, initial, prompted, arriving, script,
                              opening, context, steered0, followed0);
    Rebuilt(agent.start, agent.trace, agent.State(), finished, l, b, steering.drained, followUps.drained);
    ContextIsTranscript(finished, l, b, agent.trace, steering.drained, followUps.drained);
    if !agent.aborted {
      RunAnswers(b.h);
    }
    if finished {
      agent.FinishRun();
    }
  }

  /** The start of a run: the agent becomes active, and the run, its first turn and the prompts are announced. */
  method Announce(agent: Agent, prompts: seq<Message>) returns (initial: seq<Message>, prompted: seq<Message>)
    requires Rests(agent)
    modifies agent
    ensures agent.Synced() && agent.active && agent.trace == [AgentStart] + [TurnStart] + Pairs(prompts)
    ensures agent.start.messages == old(agent.messages) && agent.start.pendingToolCalls == {} && agent.start.streaming.None?
    ensures initial == old(agent.messages) + prompts && prompted == prompts
  {
    agent.Begin();
    var context := agent.messages;
    agent.Emit(AgentStart);
    agent.Emit(TurnStart);
    initial, prompted := Inject(agent, context, [], prompts);
    assert [] + prompts == prompts;
  }

  lemma Rebuilt(s: AgentState, trace: seq<Event>, r: AgentState, finished: bool, l: Loop, b: Book,
                steered: seq<Message>, followed: seq<Message>)
    requires Reaches(s, trace, r) && s.pendingToolCalls == {} && s.streaming.None?
    requires if finished then Done(l, b, trace, steered, followed) else Underway(l, b, trace, steered, followed)
    ensures Settled(r, s.messages + l.newMessages)
  {
    ReachesReduction(s, trace, r);
    if finished {
      TranscriptAtEnd(s, trace, b.h.turns);
    } else {
      TranscriptUnderway(s, trace, b.h.turns, b.opening, l.newMessages, l.context, b.ground);
    }
  }

  lemma ContextIsTranscript(finished: bool, l: Loop, b: Book, trace: seq<Event>, steered: seq<Message>, followed: seq<Message>)
    requires if finished then Done(l, b, trace, steered, followed) else Underway(l, b, trace, steered, followed)
    ensures Unreplaced(b.h) ==> l.context == b.context0 + l.newMessages
    ensures Sound(b.h)
  {
    if Unreplaced(b.h) {
      UnreplacedContext(b.context0, b.h.script, b.h.turns);
      if !finished {
        assert b.context0 + AllAdded(b.h.turns) + Everything(b.opening) == b.context0 + (AllAdded(b.h.turns) + Everything(b.opening));
      }
    }
  }

  /** A turn with a call to an unknown tool is followed up: the model gets to see the error. */
  lemma UnknownToolGoesOn(h: History, k: nat, i: nat)
    requires Sound(h) && k < |h.turns|
    requires var t := h.turns[k];
             && t.reply.Assistant? && !Failed(t.reply) && i < |t.results| && i < |Calls(t.reply.blocks)|
             && !h.script[k].tools(i).found
    ensures More(h.turns[k])
  {
    var t := h.turns[k];
    assert TurnAt(h, k);
    var calls, scripts := Calls(t.reply.blocks), Scripts(Calls(t.reply.blocks), h.script[k].tools);
    if t.reply.stopReason != Length {
      var finals :| Executes(calls, scripts, t.steps, finals, t.results, t.terminate, t.aborted);
      FailureKeepsGoing(calls, scripts, finals, Watch(t.steps).ran, t.aborted, i);
    }
  }

  lemma RunAnswers(h: History)
    requires Sound(h) && !AnyAborted(h.turns)
    ensures AllAnswered(h.turns)
  {
    forall k | 0 <= k < |h.turns| && h.turns[k].reply.Assistant? && !Failed(h.turns[k].reply)
      ensures |h.turns[k].results| == |Calls(h.turns[k].reply.blocks)|
    {
      EveryCallAnswered(h, k);
    }
  }

  /** Start a run from prompts. */
  method Prompt(agent: Agent, steering: PendingMessageQueue, followUps: PendingMessageQueue, sequential: bool,
                prompts: seq<Message>, arriving: Arrivals, script: seq<TurnScript>)
    returns (r: Result<bool, AgentError>, l: Loop, ghost b: Book)
    requires agent.active || Rests(agent)
    requires steering != followUps && steering.Valid() && followUps.Valid()
    requires AllBeginOnce(script)
    modifies agent, steering, followUps
    ensures r == Err(AlreadyProcessing) <==> old(agent.active)
    ensures r.Err? ==> old(agent.active) && unchanged(agent, steering, followUps)
    ensures r.Ok? ==> RunResult(r.value, l, b, agent, steering, followUps)
    ensures r.Ok? ==> SameRun(OpeningBook(Injection(prompts, [], []), Taken(steering.mode, old(steering.messages) + arriving.steering),
                                          steering.mode, followUps.mode, script, old(agent.messages),
                                          old(steering.drained), old(followUps.drained)), b)
  {
    l := Loop([], [], [], false);
    b := OpeningBook(NO_INJECTION, [], All, All, [], [], [], []);
    if agent.active {
      r := Err(AlreadyProcessing);
      return;
    }
    ghost var opening := Injection(prompts, [], []);
    var finished;
    finished, l, b := RunWithLifecycle(agent, steering, followUps, sequential, false, prompts, arriving, script, opening,
                                       steering.drained, followUps.drained);
    r := Ok(finished);
  }

  /** What `continue` opens a run with: after an assistant message, the steering queue or else the follow-up queue;
      otherwise the transcript as it is. */
  ghost function ContinueWith(transcript: seq<Message>, steered: seq<Message>, followed: seq<Message>): Result<Injection, AgentError> {
    if transcript == [] then Err(NothingToContinue)
    else if !transcript[|transcript| - 1].Assistant? then Ok(NO_INJECTION)
    else if steered != [] then Ok(Injection([], [], steered))
    else if followed != [] then Ok(Injection([], followed, []))
    else Err(CannotContinueFromAssistant)
  }

  /** The steering queue comes first, and a follow-up is taken only when it is empty; a transcript that does not end with
      an assistant message is continued as it is, whatever is queued. */
  lemma ContinueOrder(transcript: seq<Message>, steered: seq<Message>, followed: seq<Message>)
    ensures var r, idle := ContinueWith(transcript, steered, followed), steered == [] && followed == [];
            && (r == Err(NothingToContinue) <==> transcript == [])
            && (r == Err(CannotContinueFromAssistant) <==> transcript != [] && transcript[|transcript| - 1].Assistant? && idle)
            && (r.Ok? <==> transcript != [] && (transcript[|transcript| - 1].Assistant? ==> !idle))
            && (r.Ok? ==> r.value.prompts == []
                          && var answered := transcript[|transcript| - 1].Assistant?;
                          && r.value.steered == (if answered then steered else [])
                          && r.value.followed == (if answered && steered == [] then followed else []))
  {
  }

  /** Continue from the current transcript. */
  method Continue(agent: Agent, steering: PendingMessageQueue, followUps: PendingMessageQueue, sequential: bool,
                  arriving: Arrivals, script: seq<TurnScript>)
    returns (r: Result<bool, AgentError>, l: Loop, ghost b: Book)
    requires agent.active || Rests(agent)
    requires steering != followUps && steering.Valid() && followUps.Valid()
    requires AllBeginOnce(script)
    modifies agent, steering, followUps
    ensures r == Err(AlreadyProcessing) <==> old(agent.active)
    ensures r.Err? ==> unchanged(agent) && steering.Holds(old(steering.messages), old(steering.drained))
                       && followUps.Holds(old(followUps.messages), old(followUps.drained))
    ensures r.Ok? ==> RunResult(r.value, l, b, agent, steering, followUps)
    ensures !old(agent.active) ==>
      var how := ContinueWith(old(agent.messages), Taken(steering.mode, old(steering.messages)), Taken(followUps.mode, old(followUps.messages)));
      if how.Err? then r == Err(how.error)
      else r.Ok?
           && var skip := how.value.steered != [];
              var polled := if skip then [] else Taken(steering.mode, old(steering.messages) + arriving.steering);
              SameRun(OpeningBook(how.value, polled, steering.mode, followUps.mode, script, old(agent.messages),
                                  old(steering.drained), old(followUps.drained)), b)
  {
    l := Loop([], [], [], false);
    b := OpeningBook(NO_INJECTION, [], All, All, [], [], [], []);
    if agent.active {
      r := Err(AlreadyProcessing);
      return;
    }
    ghost var steered0, followed0 := steering.drained, followUps.drained;
    var how := TakeOpening(agent, steering, followUps);
    if how.Err? {
      r := Err(how.error);
      return;
    }
    var finished;
    finished, l, b := RunWithLifecycle(agent, steering, followUps, sequential, how.value.steered != [], Everything(how.value),
                                       arriving, script, how.value, steered0, followed0);
    r := Ok(finished);
  }

  /** Drain what `continue` opens the run with. */
  method TakeOpening(agent: Agent, steering: PendingMessageQueue, followUps: PendingMessageQueue)
    returns (how: Result<Injection, AgentError>)
    requires steering != followUps && steering.Valid() && followUps.Valid()
    modifies steering, followUps
    ensures steering.Valid() && followUps.Valid()
    ensures how == ContinueWith(agent.messages, Taken(steering.mode, old(steering.messages)), Taken(followUps.mode, old(followUps.messages)))
    ensures how.Err? ==> steering.Holds(old(steering.messages), old(steering.drained))
                         && followUps.Holds(old(followUps.messages), old(followUps.drained))
    ensures how.Ok? ==> steering.drained == old(steering.drained) + how.value.steered
                        && followUps.drained == old(followUps.drained) + how.value.followed
    ensures how.Ok? && how.value.steered == [] ==> steering.messages == old(steering.messages)
  {
    if agent.messages == [] {
      return Err(NothingToContinue);
    }
    if !agent.messages[|agent.messages| - 1].Assistant? {
      return Ok(NO_INJECTION);
    }
    var steered := steering.Drain();
    if steered != [] {
      return Ok(Injection([], [], steered));
    }
    assert steering.messages == old(steering.messages) && steering.drained == old(steering.drained);
    var followed := followUps.Drain();
    if followed != [] {
      return Ok(Injection([], followed, []));
    }
    assert followUps.messages == old(followUps.messages) && followUps.drained == old(followUps.drained);
    return Err(CannotContinueFromAssistant);
  }

  /** In one-at-a-time mode no turn injects two messages of the same queue; and no turn injects two queued messages
      at all, except exactly the first turn of a run opened by a follow-up whose initial poll finds steering. */
  lemma OneAtATimeBetweenReplies(h: History)
    requires Sound(h) && h.steeringMode == OneAtATime && h.followUpMode == OneAtATime
    requires |h.opening.steered| <= 1 && |h.opening.followed| <= 1 && |h.polled| <= 1
    requires h.opening.steered == [] || (h.polled == [] && h.opening.followed == [])
    ensures forall k :: 0 <= k < |h.turns| ==> |h.turns[k].steered| <= 1 && |h.turns[k].followed| <= 1
    ensures forall k :: 0 < k < |h.turns| ==> |h.turns[k].followed + h.turns[k].steered| <= 1
    ensures (forall k :: 0 <= k < |h.turns| ==> |h.turns[k].followed + h.turns[k].steered| <= 1)
            <==> (h.turns == [] || h.opening.followed == [] || h.polled == [])
  {
    forall k | 0 <= k < |h.turns|
      ensures |h.turns[k].steered| <= 1 && |h.turns[k].followed| <= 1
      ensures k > 0 || h.opening.followed == [] || h.polled == [] ==> |h.turns[k].followed + h.turns[k].steered| <= 1
    {
      assert TurnAt(h, k);
    }
    if h.turns != [] {
      assert TurnAt(h, 0);
    }
  }

  /** A run in which a follow-up and a steering message are both injected ahead of one reply, with both queues in
      one-at-a-time mode: `continue` takes the follow-up, and the steering message arrives before the first poll. */
  method FollowUpMeetsSteering(followUp: Message, steer: Message, reply: Reply) returns (newMessages: seq<Message>)
    requires Calls(reply.blocks) == []
    ensures newMessages == [followUp, steer, reply]
  {
    var agent := new Agent([reply]);
    var steering := new PendingMessageQueue(OneAtATime);
    var followUps := new PendingMessageQueue(OneAtATime);
    followUps.Enqueue([followUp]);
    newMessages := ContinueOnce(agent, steering, followUps, Arrivals([steer], []), reply);
  }

  /** A run of one turn that `continue` opens with follow-ups. */
  method ContinueOnce(agent: Agent, steering: PendingMessageQueue, followUps: PendingMessageQueue, arriving: Arrivals, reply: Reply)
    returns (newMessages: seq<Message>)
    requires Rests(agent) && steering != followUps && steering.Valid() && followUps.Valid()
    requires agent.messages != [] && agent.messages[|agent.messages| - 1].Assistant?
    requires steering.messages == [] && followUps.messages != [] && Calls(reply.blocks) == []
    modifies agent, steering, followUps
    ensures newMessages == Taken(followUps.mode, old(followUps.messages)) + Taken(steering.mode, arriving.steering) + [reply]
  {
    var none := Arrivals([], []);
    var tool := CallScript(false, false, None, NoBefore, [], Throws(""), NoAfter);
    var turn := TurnScript([Finish], reply, _ => tool, None, true, none, none);
    assert [] + arriving.steering == arriving.steering;
    ghost var b;
    ghost var followed, polled := Taken(followUps.mode, followUps.messages), Taken(steering.mode, arriving.steering);
    var r, l;
    r, l, b := Continue(agent, steering, followUps, false, arriving, [turn]);
    newMessages := l.newMessages;
    OnlyTurn(r.value, l, b, agent.trace, steering.drained, followUps.drained, followed, polled);
  }

  lemma OnlyTurn(finished: bool, l: Loop, b: Book, trace: seq<Event>, steered: seq<Message>, followed: seq<Message>,
                 taken: seq<Message>, polled: seq<Message>)
    requires if finished then Done(l, b, trace, steered, followed)
             else Underway(l, b, trace, steered, followed) && |b.h.turns| == |b.h.script|
    requires |b.h.script| == 1 && Calls(b.h.script[0].reply.blocks) == []
    requires b.h.opening == Injection([], taken, []) && b.h.polled == polled
    ensures l.newMessages == taken + polled + [b.h.script[0].reply]
  {
    AddedSoFar(finished, l, b, trace, steered, followed);
    OneTurnAdds(b.h.turns);
    OnlyTurnAdds(b.h, taken, polled);
  }

  /** At a turn boundary the new messages are those of the turns. */
  lemma AddedSoFar(finished: bool, l: Loop, b: Book, trace: seq<Event>, steered: seq<Message>, followed: seq<Message>)
    requires b.h.turns != []
    requires if finished then Done(l, b, trace, steered, followed) else Underway(l, b, trace, steered, followed)
    ensures l.newMessages == AllAdded(b.h.turns) && Sound(b.h)
  {
    assert AllAdded(b.h.turns) + Everything(NO_INJECTION) == AllAdded(b.h.turns);
  }

  lemma OnlyTurnAdds(h: History, taken: seq<Message>, polled: seq<Message>)
    requires Sound(h) && |h.turns| == 1 && Calls(h.script[0].reply.blocks) == []
    requires h.opening == Injection([], taken, []) && h.polled == polled
    ensures Added(h.turns[0]) == taken + polled + [h.script[0].reply]
  {
    assert TurnAt(h, 0);
    TurnAdds(h.turns[0], taken, polled);
  }

  lemma TurnAdds(t: Turn, taken: seq<Message>, polled: seq<Message>)
    requires t.prompts == [] && t.followed == taken && t.steered == [] + polled && t.results == []
    ensures Added(t) == taken + polled + [t.reply]
  {
  }

  lemma OneTurnAdds(turns: seq<Turn>)
    requires |turns| == 1
    ensures AllAdded(turns) == Added(turns[0])
  {
    assert turns[..0] == [] && AllAdded(turns[..0]) == [];
  }
}
