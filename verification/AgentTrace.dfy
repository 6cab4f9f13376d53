/** Messages and events of an agent run, the grammar of a run's event trace, and the reducer that rebuilds
    the agent's state from the trace. */
module AgentTrace {

  import opened Wrappers

  datatype StopReason = Stop | Length | ToolUse | Error | Aborted

  datatype ToolCall = ToolCall(id: string, name: string, arguments: string)

  datatype Content = Prose(text: string) | Call(call: ToolCall)

  /** Result text: what a tool, a hook or an error message said, or one of the loop's own notices. */
  datatype Text = Said(words: string) | NotFound(name: string) | Blocked | OperationAborted | Truncated(name: string)

  /** What a tool returns; `content` may be missing, and no added tools is the same as an empty list. */
  datatype ToolOutput = ToolOutput(
    content: Option<Text>, details: string, usage: Option<int>, terminate: Option<bool>, addedTools: seq<string>)

  /** What a call came to. */
  datatype Finalized = Finalized(output: ToolOutput, isError: bool)

  datatype Message =
    | User(prompt: string)
    | Custom(data: string)
    | Assistant(blocks: seq<Content>, stopReason: StopReason, errorMessage: Option<string>)
    | ToolResult(toolCallId: string, toolName: string, text: Text, details: string, usage: Option<int>,
                 addedTools: seq<string>, isError: bool)

  datatype Event =
    | AgentStart
    | TurnStart
    | MessageStart(message: Message)
    | MessageUpdate(message: Message)
    | MessageEnd(message: Message)
    | ToolStart(toolCallId: string, toolName: string, arguments: string)
    | ToolUpdate(toolCallId: string, toolName: string, partial: string)
    | ToolEnd(toolCallId: string, toolName: string, output: ToolOutput, isError: bool)
    | TurnEnd(message: Message, toolResults: seq<Message>)
    | AgentEnd(messages: seq<Message>)

  /** The tool calls of a reply, in source order. */
  function Calls(content: seq<Content>): seq<ToolCall> {
    if content == [] then []
    else if content[0].Call? then [content[0].call] + Calls(content[1..])
    else Calls(content[1..])
  }

  // ---------------------------------------------------------------------------------------------
  // Grammar
  // ---------------------------------------------------------------------------------------------

  /** What happens to the `i`-th call of a batch; `Ran` is the invocation of its tool, which emits nothing. */
  datatype ToolStep =
    | Started(i: nat)
    | Ran(i: nat)
    | Updated(i: nat, partial: string)
    | Ended(i: nat, final: Finalized)
    | Reported(i: nat, message: Message)

  /** The steps of a tool phase, in order. */
  datatype Trail = Nothing | Then(before: Trail, step: ToolStep)

  /** Calls started so far, those started and not ended, those whose tool was run with the updates it showed,
      what the ended ones came to, and the number of results reported. */
  datatype Monitor = Monitor(
    started: nat, open: set<nat>, ran: map<nat, seq<string>>, ended: map<nat, Finalized>, reported: nat)

  const FRESH := Monitor(0, {}, map[], map[], 0)

  /** The order of tool events: calls start in source order, run at most once, are updated only between
      their run and their end, end once, and are reported in source order after they ended. */
  predicate Allows(m: Monitor, step: ToolStep) {
    match step
    case Started(i) => i == m.started
    case Ran(i) => i in m.open && i !in m.ran
    case Updated(i, _) => i in m.open && i in m.ran
    case Ended(i, _) => i in m.open
    case Reported(i, _) => i == m.reported && i < m.started && i !in m.open
  }

  function Advance(m: Monitor, step: ToolStep): Monitor {
    match step
    case Started(i) => m.(started := m.started + 1, open := m.open + {i})
    case Ran(i) => m.(ran := m.ran[i := []])
    case Updated(i, partial) =>
      m.(ran := m.ran[i := (if i in m.ran then m.ran[i] else []) + [partial]])
    case Ended(i, final) => m.(open := m.open - {i}, ended := m.ended[i := final])
    case Reported(_, _) => m.(reported := m.reported + 1)
  }

  /** The monitor after the steps. */
  ghost function Watch(steps: Trail): Monitor {
    match steps
    case Nothing => FRESH
    case Then(before, step) => Advance(Watch(before), step)
  }

  /** Each step is allowed where it happens. */
  ghost predicate Legal(steps: Trail) {
    match steps
    case Nothing => true
    case Then(before, step) => Legal(before) && Allows(Watch(before), step)
  }

  ghost predicate StartedIn(steps: Trail, i: nat) { steps.Then? && (steps.step == Started(i) || StartedIn(steps.before, i)) }

  ghost predicate RanIn(steps: Trail, i: nat) { steps.Then? && (steps.step == Ran(i) || RanIn(steps.before, i)) }

  ghost predicate EndedIn(steps: Trail, i: nat) {
    steps.Then? && ((steps.step.Ended? && steps.step.i == i) || EndedIn(steps.before, i))
  }

  ghost predicate ReportedIn(steps: Trail, i: nat) {
    steps.Then? && ((steps.step.Reported? && steps.step.i == i) || ReportedIn(steps.before, i))
  }

  /** The order of tool events, said of the history: each step of a call happens once and in its place, and an
      update falls strictly between the run and the end of its call. */
  ghost predicate Ordered(steps: Trail) {
    match steps
    case Nothing => true
    case Then(before, step) =>
      && Ordered(before)
      && match step
         case Started(i) => !StartedIn(before, i) && forall j :: 0 <= j < i ==> StartedIn(before, j)
         case Ran(i) => StartedIn(before, i) && !RanIn(before, i) && !EndedIn(before, i)
         case Updated(i, _) => StartedIn(before, i) && RanIn(before, i) && !EndedIn(before, i)
         case Ended(i, _) => StartedIn(before, i) && !EndedIn(before, i)
         case Reported(i, _) =>
           EndedIn(before, i) && !ReportedIn(before, i) && forall j :: 0 <= j < i ==> ReportedIn(before, j)
  }

  /** What the monitor knows of a call's history. */
  ghost predicate KnowsCall(m: Monitor, steps: Trail, i: nat) {
    && (StartedIn(steps, i) <==> i < m.started)
    && (i in m.open <==> StartedIn(steps, i) && !EndedIn(steps, i))
    && (i in m.ran <==> RanIn(steps, i))
    && (EndedIn(steps, i) ==> StartedIn(steps, i))
    && (ReportedIn(steps, i) <==> i < m.reported)
  }

  ghost predicate Knows(m: Monitor, steps: Trail) {
    forall i: nat {:trigger KnowsCall(m, steps, i)} :: KnowsCall(m, steps, i)
  }

  /** The monitor accepts exactly the ordered histories. */
  lemma {:induction false} LegalIsOrdered(steps: Trail)
    ensures Legal(steps) <==> Ordered(steps)
    ensures Legal(steps) ==> Knows(Watch(steps), steps)
  {
    if steps.Then? {
      var before, step := steps.before, steps.step;
      LegalIsOrdered(before);
      if Legal(before) {
        StepIsOrdered(before, step);
      }
    }
  }

  lemma StepIsOrdered(before: Trail, step: ToolStep)
    requires Legal(before) && Ordered(before) && Knows(Watch(before), before)
    ensures Allows(Watch(before), step) <==> Ordered(Then(before, step))
    ensures Allows(Watch(before), step) ==> Knows(Advance(Watch(before), step), Then(before, step))
  {
    var m := Watch(before);
    assert KnowsCall(m, before, step.i) && KnowsCall(m, before, m.started) && KnowsCall(m, before, m.reported);
    forall j: nat | j < step.i
      ensures (StartedIn(before, j) <==> j < m.started) && (ReportedIn(before, j) <==> j < m.reported)
    {
      assert KnowsCall(m, before, j);
    }
    if Allows(m, step) {
      KnowsMore(m, before, step);
    }
  }

  lemma KnowsMore(m: Monitor, before: Trail, step: ToolStep)
    requires Knows(m, before) && Allows(m, step)
    ensures Knows(Advance(m, step), Then(before, step))
  {
    forall i: nat
      ensures KnowsCall(Advance(m, step), Then(before, step), i)
    {
      assert KnowsCall(m, before, i);
    }
  }

  /** A finished tool phase has started, ended and reported exactly the calls it answers. */
  lemma PhaseIsComplete(calls: seq<ToolCall>, steps: Trail, results: seq<Message>, i: nat)
    requires ToolPhase(calls, steps, results)
    ensures StartedIn(steps, i) <==> i < |results|
    ensures EndedIn(steps, i) <==> i < |results|
    ensures ReportedIn(steps, i) <==> i < |results|
  {
    LegalIsOrdered(steps);
    assert KnowsCall(Watch(steps), steps, i);
  }

  /** The events of a step. */
  function Shown(calls: seq<ToolCall>, step: ToolStep): seq<Event>
    requires step.i < |calls|
  {
    var call := calls[step.i];
    match step
    case Started(_) => [ToolStart(call.id, call.name, call.arguments)]
    case Ran(_) => []
    case Updated(_, partial) => [ToolUpdate(call.id, call.name, partial)]
    case Ended(_, final) => [ToolEnd(call.id, call.name, final.output, final.isError)]
    case Reported(_, message) => [MessageStart(message), MessageEnd(message)]
  }

  ghost predicate Within(calls: seq<ToolCall>, steps: Trail) {
    match steps
    case Nothing => true
    case Then(before, step) => Within(calls, before) && step.i < |calls|
  }

  ghost function Render(calls: seq<ToolCall>, steps: Trail): seq<Event>
    requires Within(calls, steps)
  {
    match steps
    case Nothing => []
    case Then(before, step) => Render(calls, before) + Shown(calls, step)
  }

  /** The result messages reported by the steps, in order. */
  ghost function Results(steps: Trail): seq<Message> {
    match steps
    case Nothing => []
    case Then(before, step) => if step.Reported? then Results(before) + [step.message] else Results(before)
  }

  /** What the events tell of a call: its start with its arguments, each update of its tool, and what it came to. */
  lemma {:induction false} EventsTell(calls: seq<ToolCall>, steps: Trail, i: nat)
    requires Within(calls, steps) && Legal(steps) && i < |calls|
    ensures i < Watch(steps).started ==> ToolStart(calls[i].id, calls[i].name, calls[i].arguments) in Render(calls, steps)
    ensures i in Watch(steps).ran ==>
      forall k :: 0 <= k < |Watch(steps).ran[i]| ==>
        ToolUpdate(calls[i].id, calls[i].name, Watch(steps).ran[i][k]) in Render(calls, steps)
    ensures i in Watch(steps).ended ==>
      var final := Watch(steps).ended[i];
      ToolEnd(calls[i].id, calls[i].name, final.output, final.isError) in Render(calls, steps)
  {
    if steps.Then? {
      EventsTell(calls, steps.before, i);
    }
  }

  /** One turn: the messages injected before the reply, the streamed reply, and the tool phase. `steered` and
      `followed` are the injected messages that came from the two queues, `prompts` the others. */
  datatype Turn = Turn(
    prompts: seq<Message>, followed: seq<Message>, steered: seq<Message>,
    first: Message, updates: seq<Message>, reply: Message,
    steps: Trail, results: seq<Message>, terminate: bool, aborted: bool)

  /** One result per call, in source order with matching id and name. */
  ghost predicate Answers(calls: seq<ToolCall>, results: seq<Message>) {
    && |results| <= |calls|
    && forall i :: 0 <= i < |results| ==>
         results[i].ToolResult? && results[i].toolCallId == calls[i].id && results[i].toolName == calls[i].name
  }

  /** A tool phase answering `calls`: legal, complete for the answered calls, reporting exactly `results`. */
  ghost predicate ToolPhase(calls: seq<ToolCall>, steps: Trail, results: seq<Message>) {
    && Within(calls, steps)
    && Legal(steps)
    && (var m := Watch(steps); m.open == {} && m.started == m.reported == |results|)
    && Results(steps) == results
    && Answers(calls, results)
  }

  ghost predicate TurnOk(t: Turn) {
    && t.reply.Assistant?
    && var calls := Calls(t.reply.blocks);
       && ToolPhase(calls, t.steps, t.results)
       && (t.reply.stopReason in {Error, Aborted} ==> t.steps == Nothing)
       && (t.reply.stopReason == Length ==> Watch(t.steps).ran == map[])
       && (t.reply.stopReason !in {Error, Aborted} && !t.aborted ==> |t.results| == |calls|)
  }

  function Pairs(messages: seq<Message>): seq<Event> {
    if messages == [] then []
    else Pairs(messages[..|messages| - 1])
         + [MessageStart(messages[|messages| - 1]), MessageEnd(messages[|messages| - 1])]
  }

  function Updates(messages: seq<Message>): (r: seq<Event>)
    ensures |r| == |messages|
  {
    seq(|messages|, i requires 0 <= i < |messages| => MessageUpdate(messages[i]))
  }

  function Injected(t: Turn): seq<Message> { t.prompts + t.followed + t.steered }

  /** The messages a turn adds to the conversation. */
  function Added(t: Turn): seq<Message> { Injected(t) + [t.reply] + t.results }

  function ReplyEvents(first: Message, updates: seq<Message>, reply: Message): seq<Event> {
    [MessageStart(first)] + Updates(updates) + [MessageEnd(reply)]
  }

  /** turn_start (message_start message_end)* message_start message_update* message_end tools turn_end */
  ghost function TurnEvents(t: Turn): seq<Event>
    requires TurnOk(t)
  {
    [TurnStart] + Pairs(Injected(t)) + ReplyEvents(t.first, t.updates, t.reply)
    + Render(Calls(t.reply.blocks), t.steps) + [TurnEnd(t.reply, t.results)]
  }

  ghost predicate TurnsOk(turns: seq<Turn>) {
    forall k {:trigger TurnOk(turns[k])} :: 0 <= k < |turns| ==> TurnOk(turns[k])
  }

  ghost function Word(turns: seq<Turn>): seq<Event>
    requires TurnsOk(turns)
  {
    if turns == [] then [] else Word(turns[..|turns| - 1]) + TurnEvents(turns[|turns| - 1])
  }

  ghost function AllAdded(turns: seq<Turn>): seq<Message> {
    if turns == [] then [] else AllAdded(turns[..|turns| - 1]) + Added(turns[|turns| - 1])
  }

  /** A complete trace: agent_start turn+ agent_end. */
  ghost predicate CompleteTrace(trace: seq<Event>, turns: seq<Turn>) {
    turns != [] && TurnsOk(turns) && trace == [AgentStart] + Word(turns) + [AgentEnd(AllAdded(turns))]
  }

  /** The starts and ends of turns among the events. */
  ghost function Marks(events: seq<Event>): seq<Event> {
    if events == [] then []
    else
      var last := events[|events| - 1];
      Marks(events[..|events| - 1]) + if last.TurnStart? || last.TurnEnd? then [last] else []
  }

  lemma {:induction false} MarksConcat(a: seq<Event>, b: seq<Event>)
    ensures Marks(a + b) == Marks(a) + Marks(b)
    decreases |b|
  {
    if b == [] {
      assert a + b == a;
    } else {
      MarksConcat(a, b[..|b| - 1]);
      assert (a + b)[..|a + b| - 1] == a + b[..|b| - 1];
    }
  }

  lemma {:induction false} Unmarked(events: seq<Event>)
    requires forall i :: 0 <= i < |events| ==> !events[i].TurnStart? && !events[i].TurnEnd?
    ensures Marks(events) == []
  {
    if events != [] {
      Unmarked(events[..|events| - 1]);
    }
  }

  lemma {:induction false} PairsUnmarked(messages: seq<Message>)
    ensures Marks(Pairs(messages)) == []
  {
    if messages != [] {
      var init, m := messages[..|messages| - 1], messages[|messages| - 1];
      PairsUnmarked(init);
      Unmarked([MessageStart(m), MessageEnd(m)]);
      MarksConcat(Pairs(init), [MessageStart(m), MessageEnd(m)]);
    }
  }

  lemma {:induction false} RenderUnmarked(calls: seq<ToolCall>, steps: Trail)
    requires Within(calls, steps)
    ensures Marks(Render(calls, steps)) == []
  {
    if steps.Then? {
      RenderUnmarked(calls, steps.before);
      Unmarked(Shown(calls, steps.step));
      MarksConcat(Render(calls, steps.before), Shown(calls, steps.step));
    }
  }

  lemma MarkOf(e: Event)
    requires e.TurnStart? || e.TurnEnd?
    ensures Marks([e]) == [e]
  {
    assert [e][..0] == [];
  }

  lemma TurnMarks(t: Turn)
    requires TurnOk(t)
    ensures Marks(TurnEvents(t)) == [TurnStart, TurnEnd(t.reply, t.results)]
  {
    var a, b, c := [TurnStart], Pairs(Injected(t)), ReplyEvents(t.first, t.updates, t.reply);
    var d, e := Render(Calls(t.reply.blocks), t.steps), [TurnEnd(t.reply, t.results)];
    MarkOf(TurnStart);
    MarkOf(TurnEnd(t.reply, t.results));
    PairsUnmarked(Injected(t));
    Unmarked(c);
    RenderUnmarked(Calls(t.reply.blocks), t.steps);
    MarksConcat(a + b + c + d, e);
    MarksConcat(a + b + c, d);
    MarksConcat(a + b, c);
    MarksConcat(a, b);
  }

  /** In the events of the turns each starts once and ends once, in order, and ends with its reply and its tool results. */
  lemma {:induction false} TurnsAreMarked(turns: seq<Turn>)
    requires TurnsOk(turns)
    ensures var marks := Marks(Word(turns));
            && |marks| == 2 * |turns|
            && forall k :: 0 <= k < |turns| ==>
                 marks[2 * k] == TurnStart && marks[2 * k + 1] == TurnEnd(turns[k].reply, turns[k].results)
  {
    if turns != [] {
      var n := |turns| - 1;
      TurnsAreMarked(turns[..n]);
      TurnMarks(turns[n]);
      MarksConcat(Word(turns[..n]), TurnEvents(turns[n]));
    }
  }

  // ---------------------------------------------------------------------------------------------
  // Turns cut short
  // ---------------------------------------------------------------------------------------------

  /** How far a turn has come: messages shown, the reply opened and updated, or tool steps taken. */
  datatype PartialTurn =
    | Injecting(shown: seq<Message>)
    | Streaming(shown: seq<Message>, first: Message, updates: seq<Message>)
    | Working(shown: seq<Message>, first: Message, updates: seq<Message>, reply: Message, steps: Trail)

  ghost predicate PartialOk(p: PartialTurn) {
    p.Working? ==>
      && p.reply.Assistant?
      && var calls := Calls(p.reply.blocks);
         && Within(calls, p.steps) && Legal(p.steps) && Answers(calls, Results(p.steps))
         && (p.reply.stopReason in {Error, Aborted} ==> p.steps == Nothing)
         && (p.reply.stopReason == Length ==> Watch(p.steps).ran == map[])
  }

  ghost function PartialEvents(p: PartialTurn): seq<Event>
    requires PartialOk(p)
  {
    match p
    case Injecting(shown) => [TurnStart] + Pairs(shown)
    case Streaming(shown, first, updates) => [TurnStart] + Pairs(shown) + ([MessageStart(first)] + Updates(updates))
    case Working(shown, first, updates, reply, steps) =>
      [TurnStart] + Pairs(shown) + ReplyEvents(first, updates, reply) + Render(Calls(reply.blocks), steps)
  }

  lemma {:induction false} WatchBounds(calls: seq<ToolCall>, steps: Trail)
    requires Within(calls, steps) && Legal(steps)
    ensures var m := Watch(steps);
            && m.started <= |calls| && m.reported == |Results(steps)| <= m.started && forall i :: i in m.open ==> i < m.started
  {
    if steps.Then? {
      WatchBounds(calls, steps.before);
    }
  }

  /** Every open call can still end. */
  lemma {:induction false} CloseOpen(calls: seq<ToolCall>, steps: Trail, final: Finalized) returns (closed: Trail)
    requires Within(calls, steps) && Legal(steps)
    ensures Within(calls, closed) && Legal(closed) && Results(closed) == Results(steps)
    ensures Watch(closed).open == {} && Watch(closed).ran == Watch(steps).ran
    ensures Render(calls, steps) <= Render(calls, closed)
    decreases |Watch(steps).open|
  {
    closed := steps;
    if Watch(steps).open != {} {
      var i :| i in Watch(steps).open;
      WatchBounds(calls, steps);
      closed := CloseOpen(calls, Then(steps, Ended(i, final)), final);
    }
  }

  /** Every call that ended can still be reported. */
  lemma {:induction false} ReportRest(calls: seq<ToolCall>, steps: Trail) returns (done: Trail)
    requires Within(calls, steps) && Legal(steps) && Watch(steps).open == {} && Answers(calls, Results(steps))
    ensures ToolPhase(calls, done, Results(done)) && Watch(done).ran == Watch(steps).ran
    ensures Render(calls, steps) <= Render(calls, done)
    decreases |calls| - |Results(steps)|
  {
    WatchBounds(calls, steps);
    var i := Watch(steps).reported;
    done := steps;
    if i < Watch(steps).started {
      var message := ToolResult(calls[i].id, calls[i].name, Said(""), "", None, [], true);
      done := ReportRest(calls, Then(steps, Reported(i, message)));
    }
  }

  /** Wherever a turn is cut short, what it has emitted is a beginning of the events of a whole turn. */
  lemma PartialTurnExtends(p: PartialTurn) returns (t: Turn)
    requires PartialOk(p)
    ensures TurnOk(t) && Injected(t) == p.shown && PartialEvents(p) <= TurnEvents(t)
  {
    assert p.shown + [] + [] == p.shown;
    var empty := Assistant([], Stop, None);
    if p.Working? {
      t := WorkingExtends(p);
    } else if p.Streaming? {
      t := Turn(p.shown, [], [], p.first, p.updates, empty, Nothing, [], false, false);
      StreamingExtends(p, t);
    } else {
      t := Turn(p.shown, [], [], empty, [], empty, Nothing, [], false, false);
      InjectingExtends(p, t);
    }
  }

  lemma WorkingExtends(p: PartialTurn) returns (t: Turn)
    requires PartialOk(p) && p.Working?
    ensures TurnOk(t) && Injected(t) == p.shown && PartialEvents(p) <= TurnEvents(t)
  {
    var calls := Calls(p.reply.blocks);
    var done := p.steps;
    if p.steps != Nothing {
      var closed := CloseOpen(calls, p.steps, Finalized(ToolOutput(None, "", None, None, []), true));
      done := ReportRest(calls, closed);
    }
    t := Turn(p.shown, [], [], p.first, p.updates, p.reply, done, Results(done), false, true);
    assert p.shown + [] + [] == p.shown;
    var head := [TurnStart] + Pairs(p.shown) + ReplyEvents(p.first, p.updates, p.reply);
    PrefixAfter(head, Render(calls, p.steps), Render(calls, done), [TurnEnd(t.reply, t.results)]);
  }

  lemma PrefixAfter<T>(head: seq<T>, a: seq<T>, b: seq<T>, tail: seq<T>)
    requires a <= b
    ensures head + a <= head + b + tail
  {
  }

  lemma StreamingExtends(p: PartialTurn, t: Turn)
    requires p.Streaming? && TurnOk(t) && Injected(t) == p.shown && t.first == p.first && t.updates == p.updates
    ensures PartialEvents(p) <= TurnEvents(t)
  {
    var head, begun := [TurnStart] + Pairs(p.shown), [MessageStart(p.first)] + Updates(p.updates);
    var rest := [MessageEnd(t.reply)] + Render(Calls(t.reply.blocks), t.steps) + [TurnEnd(t.reply, t.results)];
    assert head + begun + rest == TurnEvents(t);
  }

  lemma InjectingExtends(p: PartialTurn, t: Turn)
    requires p.Injecting? && TurnOk(t) && Injected(t) == p.shown
    ensures PartialEvents(p) <= TurnEvents(t)
  {
    var head := [TurnStart] + Pairs(p.shown);
    var rest := ReplyEvents(t.first, t.updates, t.reply) + Render(Calls(t.reply.blocks), t.steps) + [TurnEnd(t.reply, t.results)];
    assert head + rest == TurnEvents(t);
  }

  /** A run stopped anywhere has emitted a beginning of a complete trace. */
  lemma StoppedRunIsPrefix(turns: seq<Turn>, p: PartialTurn, trace: seq<Event>) returns (whole: seq<Event>, all: seq<Turn>)
    requires TurnsOk(turns) && PartialOk(p) && trace <= [AgentStart] + Word(turns) + PartialEvents(p)
    ensures CompleteTrace(whole, all) && trace <= whole && turns <= all
  {
    var t := PartialTurnExtends(p);
    all := turns + [t];
    whole := [AgentStart] + Word(all) + [AgentEnd(AllAdded(all))];
    WordNext(turns, t);
    PrefixAfter([AgentStart] + Word(turns), PartialEvents(p), TurnEvents(t), [AgentEnd(AllAdded(all))]);
  }

  lemma WordNext(turns: seq<Turn>, t: Turn)
    requires TurnsOk(turns) && TurnOk(t)
    ensures TurnsOk(turns + [t]) && [AgentStart] + Word(turns + [t]) == [AgentStart] + Word(turns) + TurnEvents(t)
  {
    assert (turns + [t])[..|turns|] == turns;
  }

  // ---------------------------------------------------------------------------------------------
  // The reducer
  // ---------------------------------------------------------------------------------------------

  datatype AgentState = AgentState(
    messages: seq<Message>, streaming: Option<Message>, pendingToolCalls: set<string>, errorMessage: Option<string>)

  function Reduce(s: AgentState, e: Event): AgentState {
    match e
    case MessageStart(m) => s.(streaming := Some(m))
    case MessageUpdate(m) => s.(streaming := Some(m))
    case MessageEnd(m) => s.(streaming := None, messages := s.messages + [m])
    case ToolStart(id, _, _) => s.(pendingToolCalls := s.pendingToolCalls + {id})
    case ToolEnd(id, _, _, _) => s.(pendingToolCalls := s.pendingToolCalls - {id})
    case TurnEnd(m, _) =>
      if m.Assistant? && m.errorMessage.Some? && m.errorMessage.value != "" then s.(errorMessage := m.errorMessage) else s
    case AgentEnd(_) => s.(streaming := None)
    case _ => s
  }

  function ReduceAll(s: AgentState, events: seq<Event>): AgentState {
    if events == [] then s else Reduce(ReduceAll(s, events[..|events| - 1]), events[|events| - 1])
  }

  lemma {:induction false} ReduceConcat(s: AgentState, a: seq<Event>, b: seq<Event>)
    ensures ReduceAll(s, a + b) == ReduceAll(ReduceAll(s, a), b)
    decreases |b|
  {
    if b == [] {
      assert a + b == a;
    } else {
      ReduceConcat(s, a, b[..|b| - 1]);
      assert (a + b)[..|a + b| - 1] == a + b[..|b| - 1];
    }
  }

  lemma ReduceOne(s: AgentState, e: Event)
    ensures ReduceAll(s, [e]) == Reduce(s, e)
  {
    assert [e][..0] == [];
    assert ReduceAll(s, [e][..0]) == s;
  }

  /** `states` are the states passed through from `s` to `r` as the events come in. */
  ghost predicate Passes(s: AgentState, events: seq<Event>, states: seq<AgentState>, r: AgentState) {
    && |states| == |events| + 1 && states[0] == s && states[|events|] == r
    && forall i :: 0 <= i < |events| ==> states[i + 1] == Reduce(states[i], events[i])
  }

  ghost predicate Reaches(s: AgentState, events: seq<Event>, r: AgentState) { exists states :: Passes(s, events, states, r) }

  lemma ReachesNone(s: AgentState)
    ensures Reaches(s, [], s)
  {
    assert Passes(s, [], [s], s);
  }

  lemma ReachesNext(s: AgentState, events: seq<Event>, r: AgentState, e: Event)
    requires Reaches(s, events, r)
    ensures Reaches(s, events + [e], Reduce(r, e))
  {
    var states :| Passes(s, events, states, r);
    assert Passes(s, events + [e], states + [Reduce(r, e)], Reduce(r, e));
  }

  /** Processing the events one by one computes their reduction. */
  lemma {:induction false} ReachesReduction(s: AgentState, events: seq<Event>, r: AgentState)
    requires Reaches(s, events, r)
    ensures r == ReduceAll(s, events)
    decreases |events|
  {
    var states :| Passes(s, events, states, r);
    if events != [] {
      var n := |events| - 1;
      assert Passes(s, events[..n], states[..n + 1], states[n]);
      ReachesReduction(s, events[..n], states[n]);
    }
  }

  lemma {:induction false} ReducePairs(s: AgentState, messages: seq<Message>)
    ensures var r := ReduceAll(s, Pairs(messages));
            && r.messages == s.messages + messages && r.pendingToolCalls == s.pendingToolCalls
            && (messages != [] || s.streaming.None? ==> r.streaming.None?)
  {
    if messages != [] {
      var init, m := messages[..|messages| - 1], messages[|messages| - 1];
      ReducePairs(s, init);
      ReducePair(ReduceAll(s, Pairs(init)), m);
      ReduceConcat(s, Pairs(init), [MessageStart(m), MessageEnd(m)]);
      assert messages == init + [m];
    }
  }

  lemma ReducePair(s: AgentState, m: Message)
    ensures ReduceAll(s, [MessageStart(m), MessageEnd(m)]) == s.(streaming := None, messages := s.messages + [m])
  {
    var events := [MessageStart(m), MessageEnd(m)];
    assert events[..1] == [MessageStart(m)];
    ReduceOne(s, MessageStart(m));
  }

  lemma {:induction false} ReduceUpdates(s: AgentState, updates: seq<Message>)
    ensures var r := ReduceAll(s, Updates(updates));
            r.messages == s.messages && r.pendingToolCalls == s.pendingToolCalls
  {
    if updates != [] {
      ReduceUpdates(s, updates[..|updates| - 1]);
      assert Updates(updates)[..|updates| - 1] == Updates(updates[..|updates| - 1]);
    }
  }

  lemma ReduceReply(s: AgentState, first: Message, updates: seq<Message>, reply: Message)
    ensures var r := ReduceAll(s, ReplyEvents(first, updates, reply));
            r.messages == s.messages + [reply] && r.pendingToolCalls == s.pendingToolCalls && r.streaming.None?
  {
    var a, b, c := [MessageStart(first)], Updates(updates), [MessageEnd(reply)];
    ReduceConcat(s, a + b, c);
    ReduceConcat(s, a, b);
    ReduceOne(s, MessageStart(first));
    ReduceUpdates(ReduceAll(s, a), updates);
    ReduceOne(ReduceAll(s, a + b), MessageEnd(reply));
  }

  ghost predicate OpenCall(calls: seq<ToolCall>, open: set<nat>, i: nat, id: string) {
    i in open && i < |calls| && calls[i].id == id
  }

  /** Every pending id belongs to an open call. */
  ghost predicate Covered(pending: set<string>, calls: seq<ToolCall>, open: set<nat>) {
    forall id :: id in pending ==> exists i :: OpenCall(calls, open, i, id)
  }

  /** Pending tool calls are among the ids of the open calls, even when ids repeat. */
  lemma {:induction false} ReduceTools(s: AgentState, calls: seq<ToolCall>, steps: Trail)
    requires Within(calls, steps) && Legal(steps) && s.pendingToolCalls == {}
    ensures var r := ReduceAll(s, Render(calls, steps));
            && r.messages == s.messages + Results(steps)
            && Covered(r.pendingToolCalls, calls, Watch(steps).open)
            && (s.streaming.None? ==> r.streaming.None?)
  {
    if steps.Then? {
      var before, step := steps.before, steps.step;
      ReduceTools(s, calls, before);
      ReduceConcat(s, Render(calls, before), Shown(calls, step));
      ReduceStep(ReduceAll(s, Render(calls, before)), calls, step, Watch(before));
    }
  }

  lemma ReduceStep(s: AgentState, calls: seq<ToolCall>, step: ToolStep, m: Monitor)
    requires step.i < |calls| && Allows(m, step) && Covered(s.pendingToolCalls, calls, m.open)
    ensures var r := ReduceAll(s, Shown(calls, step));
            && r.messages == s.messages + (if step.Reported? then [step.message] else [])
            && Covered(r.pendingToolCalls, calls, Advance(m, step).open)
            && (s.streaming.None? ==> r.streaming.None?)
  {
    if step.Reported? {
      ReducePair(s, step.message);
    } else if !step.Ran? {
      ReduceOne(s, Shown(calls, step)[0]);
      var r := Reduce(s, Shown(calls, step)[0]);
      assert step.Started? ==> OpenCall(calls, Advance(m, step).open, step.i, calls[step.i].id);
      forall id | id in r.pendingToolCalls && id in s.pendingToolCalls
        ensures exists i :: OpenCall(calls, Advance(m, step).open, i, id)
      {
        var i :| OpenCall(calls, m.open, i, id);
        assert OpenCall(calls, Advance(m, step).open, i, id);
      }
    }
  }

  ghost predicate DistinctIds(calls: seq<ToolCall>) {
    forall i, j :: 0 <= i < j < |calls| ==> calls[i].id != calls[j].id
  }

  ghost predicate IsOpen(calls: seq<ToolCall>, open: set<nat>, id: string) { exists i :: OpenCall(calls, open, i, id) }

  /** When ids do not repeat, the pending tool calls are exactly the calls that started and have not ended. */
  lemma {:induction false} PendingAreOpen(s: AgentState, calls: seq<ToolCall>, steps: Trail)
    requires Within(calls, steps) && Legal(steps) && s.pendingToolCalls == {} && DistinctIds(calls)
    ensures var r := ReduceAll(s, Render(calls, steps));
            forall id :: id in r.pendingToolCalls <==> IsOpen(calls, Watch(steps).open, id)
  {
    if steps.Then? {
      var before, step := steps.before, steps.step;
      PendingAreOpen(s, calls, before);
      ReduceConcat(s, Render(calls, before), Shown(calls, step));
      PendingStep(ReduceAll(s, Render(calls, before)), calls, step, Watch(before));
    }
  }

  lemma PendingStep(s: AgentState, calls: seq<ToolCall>, step: ToolStep, m: Monitor)
    requires step.i < |calls| && Allows(m, step) && DistinctIds(calls)
    requires forall id :: id in s.pendingToolCalls <==> IsOpen(calls, m.open, id)
    ensures var r := ReduceAll(s, Shown(calls, step));
            forall id :: id in r.pendingToolCalls <==> IsOpen(calls, Advance(m, step).open, id)
  {
    var r, open := ReduceAll(s, Shown(calls, step)), Advance(m, step).open;
    if step.Reported? {
      ReducePair(s, step.message);
    } else if !step.Ran? {
      ReduceOne(s, Shown(calls, step)[0]);
    }
    forall id
      ensures id in r.pendingToolCalls <==> IsOpen(calls, open, id)
    {
      OpenAfter(calls, step, m, id);
    }
  }

  lemma OpenAfter(calls: seq<ToolCall>, step: ToolStep, m: Monitor, id: string)
    requires step.i < |calls| && Allows(m, step) && DistinctIds(calls)
    ensures IsOpen(calls, Advance(m, step).open, id)
            <==> if step.Started? && calls[step.i].id == id then true
                 else if step.Ended? && calls[step.i].id == id then false
                 else IsOpen(calls, m.open, id)
  {
    var open := Advance(m, step).open;
    if step.Started? && calls[step.i].id == id {
      assert OpenCall(calls, open, step.i, id);
    } else if !(step.Ended? && calls[step.i].id == id) {
      if IsOpen(calls, m.open, id) {
        var i :| OpenCall(calls, m.open, i, id);
        assert OpenCall(calls, open, i, id);
      }
      if IsOpen(calls, open, id) {
        var i :| OpenCall(calls, open, i, id);
        assert OpenCall(calls, m.open, i, id);
      }
    }
  }

  /** While a reply is streamed, its latest version is shown and the transcript is still the one before it. */
  lemma StreamingShowsLatest(s: AgentState, first: Message, updates: seq<Message>)
    ensures var r := ReduceAll(s, [MessageStart(first)] + Updates(updates));
            && r.streaming == Some(if updates == [] then first else updates[|updates| - 1])
            && r.messages == s.messages && r.pendingToolCalls == s.pendingToolCalls
  {
    ReduceConcat(s, [MessageStart(first)], Updates(updates));
    ReduceOne(s, MessageStart(first));
    ReduceUpdates(ReduceAll(s, [MessageStart(first)]), updates);
    if updates != [] {
      var events := Updates(updates);
      assert events[|events| - 1] == MessageUpdate(updates[|updates| - 1]);
    }
  }

  /** The end of a turn whose reply carries an error message. */
  ghost predicate Reports(e: Event) {
    e.TurnEnd? && e.message.Assistant? && e.message.errorMessage.Some? && e.message.errorMessage.value != ""
  }

  /** The error message is that of the last turn that reported one. */
  lemma {:induction false} ErrorIsLastReported(s: AgentState, events: seq<Event>, k: nat)
    requires k < |events| && Reports(events[k]) && forall j :: k < j < |events| ==> !Reports(events[j])
    ensures ReduceAll(s, events).errorMessage == events[k].message.errorMessage
    decreases |events|
  {
    if k < |events| - 1 {
      ErrorIsLastReported(s, events[..|events| - 1], k);
    }
  }

  lemma {:induction false} ErrorStays(s: AgentState, events: seq<Event>)
    requires forall j :: 0 <= j < |events| ==> !Reports(events[j])
    ensures ReduceAll(s, events).errorMessage == s.errorMessage
    decreases |events|
  {
    if events != [] {
      ErrorStays(s, events[..|events| - 1]);
    }
  }

  /** A whole turn adds its messages to the transcript and leaves no tool call pending. */
  lemma ReduceTurn(s: AgentState, t: Turn)
    requires TurnOk(t) && s.pendingToolCalls == {}
    ensures Settled(ReduceAll(s, TurnEvents(t)), s.messages + Added(t))
  {
    var calls := Calls(t.reply.blocks);
    var a, b, c := [TurnStart], Pairs(Injected(t)), ReplyEvents(t.first, t.updates, t.reply);
    var d, e := Render(calls, t.steps), [TurnEnd(t.reply, t.results)];
    var s2, s3 := ReduceAll(s, b), ReduceAll(ReduceAll(s, b), c);
    ReduceOne(s, TurnStart);
    ReducePairs(s, Injected(t));
    ReduceReply(s2, t.first, t.updates, t.reply);
    ReduceTurnTail(s3, t);
    Regroup(s.messages, Injected(t), [t.reply], t.results);
    ReduceFive(s, a, b, c, d, e);
  }

  lemma ReduceTurnTail(s: AgentState, t: Turn)
    requires TurnOk(t) && s.pendingToolCalls == {} && s.streaming.None?
    ensures Settled(ReduceAll(ReduceAll(s, Render(Calls(t.reply.blocks), t.steps)), [TurnEnd(t.reply, t.results)]),
                    s.messages + t.results)
  {
    var calls := Calls(t.reply.blocks);
    ReduceTools(s, calls, t.steps);
    ReduceOne(ReduceAll(s, Render(calls, t.steps)), TurnEnd(t.reply, t.results));
  }

  lemma Regroup<T>(a: seq<T>, b: seq<T>, c: seq<T>, d: seq<T>)
    ensures a + b + c + d == a + (b + c + d)
  {
  }

  lemma ReduceFive(s: AgentState, a: seq<Event>, b: seq<Event>, c: seq<Event>, d: seq<Event>, e: seq<Event>)
    ensures ReduceAll(s, a + b + c + d + e)
            == ReduceAll(ReduceAll(ReduceAll(ReduceAll(ReduceAll(s, a), b), c), d), e)
  {
    ReduceConcat(s, a + b + c + d, e);
    ReduceConcat(s, a + b + c, d);
    ReduceConcat(s, a + b, c);
    ReduceConcat(s, a, b);
  }

  /** The parts of a reduced state the turns are about. */
  ghost predicate Settled(r: AgentState, messages: seq<Message>) {
    r.messages == messages && r.pendingToolCalls == {} && r.streaming.None?
  }

  lemma ReduceMore(s: AgentState, word: seq<Event>, added: seq<Message>, t: Turn)
    requires TurnOk(t) && Settled(ReduceAll(s, word), s.messages + added)
    ensures Settled(ReduceAll(s, word + TurnEvents(t)), s.messages + (added + Added(t)))
  {
    var events, more := TurnEvents(t), Added(t);
    ReduceTurn(ReduceAll(s, word), t);
    ReduceConcat(s, word, events);
    Regroup(s.messages, added, [], more);
    assert s.messages + added + [] == s.messages + added && added + [] == added;
  }

  lemma {:induction false} ReduceTurns(s: AgentState, turns: seq<Turn>)
    requires TurnsOk(turns) && s.pendingToolCalls == {} && s.streaming.None?
    ensures Settled(ReduceAll(s, Word(turns)), s.messages + AllAdded(turns))
  {
    if turns != [] {
      var init, last := turns[..|turns| - 1], turns[|turns| - 1];
      ReduceTurns(s, init);
      ReduceMore(s, Word(init), AllAdded(init), last);
    }
  }

  lemma TranscriptAtEnd(s: AgentState, trace: seq<Event>, turns: seq<Turn>)
    requires CompleteTrace(trace, turns) && s.pendingToolCalls == {} && s.streaming.None?
    ensures Settled(ReduceAll(s, trace), s.messages + AllAdded(turns))
  {
    TranscriptAtBoundary(s, turns);
    ReduceEnd(s, [AgentStart] + Word(turns), s.messages + AllAdded(turns), AllAdded(turns));
  }

  lemma ReduceEnd(s: AgentState, word: seq<Event>, messages: seq<Message>, added: seq<Message>)
    requires Settled(ReduceAll(s, word), messages)
    ensures Settled(ReduceAll(s, word + [AgentEnd(added)]), messages)
  {
    ReduceConcat(s, word, [AgentEnd(added)]);
    ReduceOne(ReduceAll(s, word), AgentEnd(added));
  }

  /** At every turn boundary the transcript rebuilt from the events is the starting transcript followed by the
      messages of the turns, and nothing is pending. */
  lemma TranscriptAtBoundary(s: AgentState, turns: seq<Turn>)
    requires TurnsOk(turns) && s.pendingToolCalls == {} && s.streaming.None?
    ensures Settled(ReduceAll(s, [AgentStart] + Word(turns)), s.messages + AllAdded(turns))
  {
    ReduceConcat(s, [AgentStart], Word(turns));
    ReduceOne(s, AgentStart);
    ReduceTurns(s, turns);
  }
}
