/** Execution of the tool calls of one assistant reply. What tools and hooks do is an arbitrary script per
    call; the abort signal may fire at any suspension point. */
module AgentTools {

  import opened Wrappers
  import opened AgentTrace

  /** What `beforeToolCall` does: it is not configured, throws, or returns (nothing is `block == false`). */
  datatype Before = NoBefore | BeforeThrows(error: string) | BeforeReturns(block: bool, reason: string, terminate: bool)

  datatype Execution = Returns(output: ToolOutput) | Throws(error: string)

  /** What `afterToolCall` does: it is not configured, throws, or returns overrides (nothing is all `None`). */
  datatype After =
    | NoAfter
    | AfterThrows(error: string)
    | AfterReturns(content: Option<Text>, details: Option<string>, usage: Option<int>, terminate: Option<bool>,
                   isError: Option<bool>)

  datatype CallScript = CallScript(
    found: bool, sequential: bool, argumentError: Option<string>, before: Before,
    updates: seq<string>, execution: Execution, after: After)

  datatype Preparation = Immediate(final: Finalized) | Prepared

  function ErrorResult(text: Text): ToolOutput { ToolOutput(Some(text), "{}", None, None, []) }

  function Failure(text: Text): Finalized { Finalized(ErrorResult(text), true) }

  /** `prepareToolCall`, with the signal as it is when the hook has returned. */
  function Prepare(call: ToolCall, script: CallScript, aborted: bool): Preparation {
    if !script.found then Immediate(Failure(NotFound(call.name)))
    else if script.argumentError.Some? then Immediate(Failure(Said(script.argumentError.value)))
    else if script.before.BeforeThrows? then Immediate(Failure(Said(script.before.error)))
    else if aborted then Immediate(Failure(OperationAborted))
    else if script.before.BeforeReturns? && script.before.block then
      var text := if script.before.reason == "" then Blocked else Said(script.before.reason);
      Immediate(Finalized(ErrorResult(text).(terminate := if script.before.terminate then Some(true) else None), true))
    else Prepared
  }

  /** The result of `executePreparedToolCall`. */
  function Executed(execution: Execution): Finalized {
    match execution
    case Returns(output) => Finalized(output, false)
    case Throws(error) => Failure(Said(error))
  }

  function Or<T>(a: Option<T>, b: Option<T>): Option<T> { if a.Some? then a else b }

  /** `finalizeExecutedToolCall`. */
  function Finish(f: Finalized, after: After): Finalized {
    match after
    case NoAfter => f
    case AfterThrows(error) => Failure(Said(error))
    case AfterReturns(content, details, usage, terminate, isError) =>
      Finalized(
        f.output.(content := Or(content, f.output.content),
                  details := if details.Some? then details.value else f.output.details,
                  usage := Or(usage, f.output.usage),
                  terminate := Or(terminate, f.output.terminate)),
        if isError.Some? then isError.value else f.isError)
  }

  /** A call told of an abort never runs, and whatever keeps a call from running is reported as an error. */
  lemma NotRunIsError(call: ToolCall, script: CallScript)
    ensures !Prepare(call, script, true).Prepared?
    ensures forall aborted :: Prepare(call, script, aborted).Immediate? ==> Prepare(call, script, aborted).final.isError
    ensures forall aborted :: Prepare(call, script, aborted).Prepared?
                              ==> script.found && script.argumentError.None? && !aborted && !script.before.BeforeThrows?
  {
  }

  /** A hook that overrides nothing changes nothing; what it does override wins, and it never touches the added tools. */
  lemma OverridesWin(f: Finalized, after: After)
    requires after.AfterReturns?
    ensures after == AfterReturns(None, None, None, None, None) ==> Finish(f, after) == f
    ensures after.content.Some? ==> Finish(f, after).output.content == after.content
    ensures after.terminate.Some? ==> Finish(f, after).output.terminate == after.terminate
    ensures after.isError.Some? ==> Finish(f, after).isError == after.isError.value
    ensures Finish(f, after).output.addedTools == f.output.addedTools
  {
  }

  /** A call that failed without a hook's word never lets the batch terminate: the model gets to see the error. */
  lemma FailureKeepsGoing(calls: seq<ToolCall>, scripts: seq<CallScript>, finals: seq<Finalized>,
                          ran: map<nat, seq<string>>, aborted: bool, i: nat)
    requires Batch(calls, scripts, finals, ran, aborted) && i < |finals|
    requires !scripts[i].found || scripts[i].argumentError.Some? || scripts[i].before.BeforeThrows?
             || (scripts[i].execution.Throws? && scripts[i].after.NoAfter? && !scripts[i].before.BeforeReturns?)
    ensures !ShouldTerminate(finals)
  {
    assert finals[i].output.terminate == None;
  }

  function ResultMessage(call: ToolCall, f: Finalized): Message {
    ToolResult(call.id, call.name, if f.output.content.Some? then f.output.content.value else Said(""), f.output.details,
               f.output.usage, f.output.addedTools, f.isError)
  }

  predicate ShouldTerminate(finals: seq<Finalized>) {
    finals != [] && forall i :: 0 <= i < |finals| ==> finals[i].output.terminate == Some(true)
  }

  // ---------------------------------------------------------------------------------------------
  // The specification of a batch: what its calls come to, whatever the mode and the schedule
  // ---------------------------------------------------------------------------------------------

  /** `final` is what the call came to: the outcome of its tool if that ran, or what its preparation answered, with the
      signal unfired then unless `late`. */
  ghost predicate IsOutcome(call: ToolCall, script: CallScript, final: Finalized, ran: bool, late: bool) {
    if ran then Prepare(call, script, false).Prepared? && final == Finish(Executed(script.execution), script.after)
    else Prepare(call, script, false) == Immediate(final) || (late && Prepare(call, script, true) == Immediate(final))
  }

  /** `finals` answers a prefix of the calls, each as if nothing was aborted except possibly the last, and all
      of them unless the signal fired. */
  ghost predicate Batch(calls: seq<ToolCall>, scripts: seq<CallScript>, finals: seq<Finalized>,
                        ran: map<nat, seq<string>>, aborted: bool)
  {
    && |finals| <= |calls| == |scripts|
    && (!aborted ==> |finals| == |calls|)
    && (calls != [] ==> finals != [])
    && (forall i :: 0 <= i < |finals| ==> IsOutcome(calls[i], scripts[i], finals[i], i in ran, aborted && i + 1 == |finals|))
  }

  ghost predicate Settles(calls: seq<ToolCall>, finals: seq<Finalized>, results: seq<Message>) {
    |results| == |finals| <= |calls| && forall i :: 0 <= i < |finals| ==> results[i] == ResultMessage(calls[i], finals[i])
  }

  /** The end events carry the outcomes that are reported. */
  ghost predicate EndsAs(ended: map<nat, Finalized>, finals: seq<Finalized>) {
    && (forall i :: 0 <= i < |finals| ==> i in ended && ended[i] == finals[i])
    && (forall i :: i in ended ==> i < |finals|)
  }

  /** The tools that run: only those whose call is prepared, each showing all its updates in order, and all of
      those when nothing is aborted. */
  ghost predicate RunsBelow(calls: seq<ToolCall>, scripts: seq<CallScript>, ran: map<nat, seq<string>>, n: nat, aborted: bool)
    requires n <= |calls| == |scripts|
  {
    && (forall i :: i in ran ==>
         i < n && Prepare(calls[i], scripts[i], false).Prepared? && ran[i] == scripts[i].updates)
    && (!aborted ==> forall i :: 0 <= i < n && Prepare(calls[i], scripts[i], false).Prepared? ==> i in ran)
  }

  /** The whole contract of an executed batch. */
  ghost predicate Executes(calls: seq<ToolCall>, scripts: seq<CallScript>, steps: Trail,
                           finals: seq<Finalized>, results: seq<Message>, terminate: bool, aborted: bool)
  {
    && ToolPhase(calls, steps, results)
    && Batch(calls, scripts, finals, Watch(steps).ran, aborted)
    && Settles(calls, finals, results)
    && EndsAs(Watch(steps).ended, finals)
    && RunsBelow(calls, scripts, Watch(steps).ran, |calls|, aborted)
    && terminate == ShouldTerminate(finals)
  }

  // ---------------------------------------------------------------------------------------------
  // What a batch does, said of the scripts
  // ---------------------------------------------------------------------------------------------

  /** The hook lets the call through: there is none, or it returned without blocking. */
  predicate LetThrough(script: CallScript) { script.before.NoBefore? || (script.before.BeforeReturns? && !script.before.block) }

  /** The tool is known, its arguments are valid, and the hook lets the call through. */
  predicate MayRun(script: CallScript) { script.found && script.argumentError.None? && LetThrough(script) }

  /** A result with a text, an error flag, and no usage or tools of its own. */
  ghost predicate Says(result: Message, final: Finalized, text: Text, isError: bool) {
    && result.ToolResult? && result.text == text && result.isError == isError == final.isError
    && final.output.content == Some(text) && result.usage == final.output.usage == None
    && result.addedTools == final.output.addedTools == [] && result.details == final.output.details == "{}"
  }

  /** The tool runs for exactly the calls that may run, and for none when aborted before the hook's answer. */
  lemma RunsExactlyWhatMayRun(calls: seq<ToolCall>, scripts: seq<CallScript>, steps: Trail, finals: seq<Finalized>,
                              results: seq<Message>, terminate: bool, aborted: bool, i: nat)
    requires Executes(calls, scripts, steps, finals, results, terminate, aborted) && i < |calls|
    ensures i in Watch(steps).ran ==> MayRun(scripts[i]) && Watch(steps).ran[i] == scripts[i].updates
    ensures !aborted ==> (i in Watch(steps).ran <==> MayRun(scripts[i]))
  {
  }

  /** A call that may not run is answered with an error: the reason the hook gave for blocking it or a notice, what
      the hook or the validation threw, or that there is no such tool. Only a blocking hook can make such a call ask to
      terminate. */
  lemma NotRunSays(calls: seq<ToolCall>, scripts: seq<CallScript>, steps: Trail, finals: seq<Finalized>,
                   results: seq<Message>, terminate: bool, aborted: bool, i: nat)
    requires Executes(calls, scripts, steps, finals, results, terminate, aborted) && i < |finals|
    requires !MayRun(scripts[i]) && (i + 1 < |finals| || !aborted)
    ensures var script, text := scripts[i], results[i].text;
            && Says(results[i], finals[i], text, true)
            && (!script.found ==> text == NotFound(calls[i].name))
            && (script.found && script.argumentError.Some? ==> text == Said(script.argumentError.value))
            && (script.found && script.argumentError.None? && script.before.BeforeThrows? ==> text == Said(script.before.error))
            && (script.found && script.argumentError.None? && script.before.BeforeReturns? ==>
                  text == if script.before.reason == "" then Blocked else Said(script.before.reason))
    ensures finals[i].output.terminate
            == if scripts[i].found && scripts[i].argumentError.None? && scripts[i].before.BeforeReturns? && scripts[i].before.terminate
               then Some(true) else None
  {
    assert results[i] == ResultMessage(calls[i], finals[i]);
  }

  /** A call that may run and did not was told of the abort and is answered with its notice; it is the last one. */
  lemma AbortedSays(calls: seq<ToolCall>, scripts: seq<CallScript>, steps: Trail, finals: seq<Finalized>,
                    results: seq<Message>, terminate: bool, aborted: bool, i: nat)
    requires Executes(calls, scripts, steps, finals, results, terminate, aborted)
    requires i < |finals| && MayRun(scripts[i]) && i !in Watch(steps).ran
    ensures aborted && i + 1 == |finals| && Says(results[i], finals[i], OperationAborted, true)
  {
    assert results[i] == ResultMessage(calls[i], finals[i]);
  }

  /** Without an after hook, a call whose tool ran carries what the tool returned, content and flag and all, or the
      error it threw, even if the signal fired meanwhile. */
  lemma RanSays(calls: seq<ToolCall>, scripts: seq<CallScript>, steps: Trail, finals: seq<Finalized>,
                results: seq<Message>, terminate: bool, aborted: bool, i: nat)
    requires Executes(calls, scripts, steps, finals, results, terminate, aborted) && i < |finals|
    requires i in Watch(steps).ran && scripts[i].after.NoAfter?
    ensures match scripts[i].execution
            case Throws(error) => Says(results[i], finals[i], Said(error), true) && finals[i].output.terminate == None
            case Returns(output) =>
              && finals[i].output == output && !finals[i].isError
              && results[i] == ToolResult(calls[i].id, calls[i].name,
                                          if output.content.Some? then output.content.value else Said(""),
                                          output.details, output.usage, output.addedTools, false)
  {
    assert results[i] == ResultMessage(calls[i], finals[i]);
  }

  /** An after hook that throws replaces the result by its error; one that returns overrides exactly the fields it
      names, of the result and of the error flag. */
  lemma HookedSays(calls: seq<ToolCall>, scripts: seq<CallScript>, steps: Trail, finals: seq<Finalized>,
                   results: seq<Message>, terminate: bool, aborted: bool, i: nat, output: ToolOutput)
    requires Executes(calls, scripts, steps, finals, results, terminate, aborted) && i < |finals|
    requires i in Watch(steps).ran && scripts[i].execution == Returns(output)
    ensures scripts[i].after.AfterThrows? ==> Says(results[i], finals[i], Said(scripts[i].after.error), true)
    ensures scripts[i].after.AfterReturns? ==>
      var after, final := scripts[i].after, finals[i];
      && (if after.content.Some? then final.output.content == after.content else final.output.content == output.content)
      && (if after.details.Some? then final.output.details == after.details.value else final.output.details == output.details)
      && (if after.usage.Some? then final.output.usage == after.usage else final.output.usage == output.usage)
      && (if after.terminate.Some? then final.output.terminate == after.terminate else final.output.terminate == output.terminate)
      && final.output.addedTools == output.addedTools
      && (if after.isError.Some? then final.isError == after.isError.value else !final.isError)
  {
    assert results[i] == ResultMessage(calls[i], finals[i]);
  }

  /** The end event of a call and its result tell the same: its id and name, its text and details, and the error flag. */
  lemma EventsAgree(calls: seq<ToolCall>, scripts: seq<CallScript>, steps: Trail, finals: seq<Finalized>,
                    results: seq<Message>, terminate: bool, aborted: bool, i: nat)
    requires Executes(calls, scripts, steps, finals, results, terminate, aborted) && i < |results|
    ensures var call, r := calls[i], results[i];
            && r.ToolResult? && r.toolCallId == call.id && r.toolName == call.name
            && exists output :: ToolEnd(call.id, call.name, output, r.isError) in Render(calls, steps)
                                && (output.content.Some? ==> r.text == output.content.value) && r.details == output.details
                                && r.usage == output.usage && r.addedTools == output.addedTools
  {
    EventsTell(calls, steps, i);
    assert results[i] == ResultMessage(calls[i], finals[i]);
    assert ToolEnd(calls[i].id, calls[i].name, finals[i].output, finals[i].isError) in Render(calls, steps);
  }

  /** The calls of a reply cut off by the token limit are answered with that notice. */
  lemma TruncatedSays(calls: seq<ToolCall>, results: seq<Message>, i: nat)
    requires Truncates(calls, results) && i < |results|
    ensures var r := results[i];
            r.ToolResult? && r.text == Truncated(calls[i].name) && r.isError && r.usage == None && r.addedTools == []
  {
  }

  /** A batch asks to terminate exactly when it answered some call and every answer asks for it. */
  lemma TerminatesIff(calls: seq<ToolCall>, scripts: seq<CallScript>, steps: Trail, finals: seq<Finalized>,
                      results: seq<Message>, terminate: bool, aborted: bool)
    requires Executes(calls, scripts, steps, finals, results, terminate, aborted)
    ensures terminate <==> finals != [] && forall i :: 0 <= i < |finals| ==> finals[i].output.terminate == Some(true)
  {
  }

  /** In a batch that was not aborted, a call whose tool did not run is reported as an error. */
  lemma NotRunIsReported(calls: seq<ToolCall>, scripts: seq<CallScript>, steps: Trail, finals: seq<Finalized>,
                         results: seq<Message>, terminate: bool, i: nat)
    requires Executes(calls, scripts, steps, finals, results, terminate, false) && i < |calls| && i !in Watch(steps).ran
    ensures i < |results| && results[i].ToolResult? && results[i].isError
  {
    NotRunIsError(calls[i], scripts[i]);
    assert results[i] == ResultMessage(calls[i], finals[i]);
  }

  /** After hooks that ask for it end the run after a batch, whatever the tools returned. */
  lemma HooksTerminate(calls: seq<ToolCall>, scripts: seq<CallScript>, steps: Trail, finals: seq<Finalized>,
                       results: seq<Message>, terminate: bool)
    requires Executes(calls, scripts, steps, finals, results, terminate, false) && calls != []
    requires forall i :: 0 <= i < |calls| ==>
      Prepare(calls[i], scripts[i], false).Prepared? && scripts[i].after.AfterReturns? && scripts[i].after.terminate == Some(true)
    ensures terminate
  {
    forall i | 0 <= i < |finals|
      ensures finals[i].output.terminate == Some(true)
    {
      OverridesWin(Executed(scripts[i].execution), scripts[i].after);
      assert finals[i] == Finish(Executed(scripts[i].execution), scripts[i].after);
    }
  }

  /** Without an abort, any two executions of the same calls by tools and hooks that depend only on the call
      report the same results and the same terminate flag, whatever their modes and completion orders. */
  lemma ModesAgree(calls: seq<ToolCall>, scripts: seq<CallScript>,
                   steps: Trail, finals: seq<Finalized>, results: seq<Message>, terminate: bool,
                   steps': Trail, finals': seq<Finalized>, results': seq<Message>, terminate': bool)
    requires Executes(calls, scripts, steps, finals, results, terminate, false)
    requires Executes(calls, scripts, steps', finals', results', terminate', false)
    ensures results == results' && terminate == terminate'
    ensures Watch(steps).ran == Watch(steps').ran
  {
    assert finals == finals';
    var a, b := Watch(steps).ran, Watch(steps').ran;
    assert forall i :: i in a <==> i in b;
  }

  // ---------------------------------------------------------------------------------------------
  // The executors
  // ---------------------------------------------------------------------------------------------

  /** The agent: the state its events reduce to, and its active run with the abort signal. */
  class Agent {
    var messages: seq<Message>
    var streamingMessage: Option<Message>
    var pendingToolCalls: set<string>
    var errorMessage: Option<string>
    var active: bool
    var aborted: bool
    /** The events of the current run, and the state it started from. */
    ghost var trace: seq<Event>
    ghost var start: AgentState

    constructor (transcript: seq<Message>)
      ensures messages == transcript && pendingToolCalls == {} && streamingMessage == None && !active && Synced()
    {
      messages, streamingMessage, pendingToolCalls, errorMessage := transcript, None, {}, None;
      active, aborted, trace := false, false, [];
      start := AgentState(transcript, None, {}, None);
      new;
      ReachesNone(start);
    }

    ghost function State(): AgentState
      reads this
    {
      AgentState(messages, streamingMessage, pendingToolCalls, errorMessage)
    }

    /** The fields are what the run's events reduce to. */
    ghost predicate Synced()
      reads this
    {
      Reaches(start, trace, State())
    }

    /** Start a run: a fresh signal, and the transcript so far. */
    method Begin()
      requires !active
      modifies this
      ensures active && !aborted && trace == [] && start == State() && Synced()
      ensures messages == old(messages) && pendingToolCalls == old(pendingToolCalls) && streamingMessage.None?
    {
      active, aborted, streamingMessage, errorMessage := true, false, None, None;
      trace, start := [], State();
      ReachesNone(start);
    }

    /** The end of a run. */
    method FinishRun()
      requires Synced()
      modifies this`active, this`streamingMessage, this`pendingToolCalls
      ensures !active && streamingMessage.None? && pendingToolCalls == {}
      ensures old(streamingMessage).None? && old(pendingToolCalls) == {} ==> Synced()
    {
      active, streamingMessage, pendingToolCalls := false, None, {};
    }

    /** A suspension point: the signal may fire, and never unfires. */
    method Await()
      modifies this`aborted
      ensures old(aborted) ==> aborted
    {
      var fired: bool := *;
      aborted := aborted || fired;
    }

    /** The state after an event. */
    method ProcessEvents(e: Event)
      modifies this`messages, this`streamingMessage, this`pendingToolCalls, this`errorMessage
      ensures State() == Reduce(old(State()), e)
    {
      match e
      case MessageStart(m) => streamingMessage := Some(m);
      case MessageUpdate(m) => streamingMessage := Some(m);
      case MessageEnd(m) =>
        streamingMessage := None;
        messages := messages + [m];
      case ToolStart(id, _, _) => pendingToolCalls := pendingToolCalls + {id};
      case ToolEnd(id, _, _, _) => pendingToolCalls := pendingToolCalls - {id};
      case TurnEnd(m, _) =>
        if m.Assistant? && m.errorMessage.Some? && m.errorMessage.value != "" {
          errorMessage := m.errorMessage;
        }
      case AgentEnd(_) => streamingMessage := None;
      case AgentStart =>
      case TurnStart =>
      case ToolUpdate(_, _, _) =>
    }

    method Emit(e: Event)
      requires Synced()
      modifies this
      ensures Synced() && Kept(old(start), old(active), old(aborted)) && trace == old(trace) + [e]
    {
      ProcessEvents(e);
      trace := trace + [e];
      ReachesNext(start, old(trace), old(State()), e);
      Await();
    }

    /** What every step of a run keeps: the starting state, the run being active, and a fired signal. */
    ghost predicate Kept(wasStart: AgentState, wasActive: bool, wasAborted: bool)
      reads this
    {
      start == wasStart && active == wasActive && (wasAborted ==> aborted)
    }

    /** The trace is `base` followed by the legal tool steps `steps`. */
    ghost predicate At(base: seq<Event>, calls: seq<ToolCall>, steps: Trail)
      reads this
    {
      Within(calls, steps) && Legal(steps) && trace == base + Render(calls, steps) && Synced()
    }

    /** Perform one tool step: emit its events. */
    method Perform(ghost base: seq<Event>, calls: seq<ToolCall>, ghost steps: Trail, step: ToolStep)
      returns (ghost next: Trail)
      requires At(base, calls, steps) && step.i < |calls| && Allows(Watch(steps), step)
      modifies this
      ensures next == Then(steps, step) && At(base, calls, next)
      ensures Watch(next) == Advance(Watch(steps), step)
      ensures Results(next) == if step.Reported? then Results(steps) + [step.message] else Results(steps)
      ensures Kept(old(start), old(active), old(aborted))
    {
      var events := Shown(calls, step);
      EmitAll(events);
      Await();
      next := Then(steps, step);
    }

    method EmitAll(events: seq<Event>)
      requires Synced()
      modifies this
      ensures Synced() && Kept(old(start), old(active), old(aborted)) && trace == old(trace) + events
    {
      var i := 0;
      while i < |events|
        invariant 0 <= i <= |events| && Synced()
        invariant trace == old(trace) + events[..i] && Kept(old(start), old(active), old(aborted))
      {
        Emit(events[i]);
        i := i + 1;
      }
      assert events[..i] == events;
    }
  }

  /** The results are errors that say the reply was cut off. */
  ghost predicate Truncates(calls: seq<ToolCall>, results: seq<Message>) {
    && |results| <= |calls|
    && forall i :: 0 <= i < |results| ==> results[i] == ResultMessage(calls[i], Failure(Truncated(calls[i].name)))
  }

  lemma TruncatesNext(calls: seq<ToolCall>, results: seq<Message>)
    requires Truncates(calls, results) && |results| < |calls|
    ensures var i := |results|; Truncates(calls, results + [ResultMessage(calls[i], Failure(Truncated(calls[i].name)))])
  {
  }

  lemma TruncatesAnswers(calls: seq<ToolCall>, results: seq<Message>)
    requires Truncates(calls, results)
    ensures Answers(calls, results)
  {
  }

  /** Calls of a reply cut off by the token limit are all answered with an error and none is run. */
  method FailTruncated(agent: Agent, calls: seq<ToolCall>)
    returns (results: seq<Message>, terminate: bool, ghost steps: Trail)
    requires agent.Synced()
    modifies agent
    ensures agent.At(old(agent.trace), calls, steps) && ToolPhase(calls, steps, results)
    ensures |results| == |calls| && Truncates(calls, results) && Watch(steps).ran == map[] && !terminate
    ensures agent.Kept(old(agent.start), old(agent.active), old(agent.aborted))
  {
    results, terminate, steps := [], false, Nothing;
    ghost var base := agent.trace;
    var i := 0;
    while i < |calls|
      invariant 0 <= i <= |calls| && |results| == i
      invariant agent.At(base, calls, steps) && Results(steps) == results
      invariant Between(Watch(steps), i) && Watch(steps).ran == map[]
      invariant Truncates(calls, results)
      invariant agent.Kept(old(agent.start), old(agent.active), old(agent.aborted))
    {
      steps := agent.Perform(base, calls, steps, Started(i));
      var message;
      message, steps := Conclude(agent, base, calls, steps, i, Failure(Truncated(calls[i].name)));
      TruncatesNext(calls, results);
      results := results + [message];
      i := i + 1;
    }
    TruncatesAnswers(calls, results);
  }

  /** Between two calls of a sequential batch: `i` calls started, ended and reported. */
  ghost predicate Between(m: Monitor, i: nat) { m.started == i && m.reported == i && m.open == {} }

  /** The end of the `i`-th call and its result message. */
  method Conclude(agent: Agent, ghost base: seq<Event>, calls: seq<ToolCall>, ghost steps: Trail, i: nat, final: Finalized)
    returns (message: Message, ghost next: Trail)
    requires agent.At(base, calls, steps) && i < |calls|
    requires var m := Watch(steps); m.open == {i} && m.started == i + 1 && m.reported == i
    modifies agent
    ensures agent.At(base, calls, next) && message == ResultMessage(calls[i], final)
    ensures Results(next) == Results(steps) + [message]
    ensures Between(Watch(next), i + 1) && Watch(next).ran == Watch(steps).ran
    ensures Watch(next).ended == Watch(steps).ended[i := final]
    ensures agent.Kept(old(agent.start), old(agent.active), old(agent.aborted))
  {
    message := ResultMessage(calls[i], final);
    next := agent.Perform(base, calls, steps, Ended(i, final));
    next := agent.Perform(base, calls, next, Reported(i, message));
  }

  /** One update more of a running call. */
  lemma ShowsNext(m: Monitor, i: nat, updates: seq<string>, k: nat)
    requires i in m.open && k < |updates|
    ensures var before := m.(ran := m.ran[i := updates[..k]]);
            && Allows(before, Updated(i, updates[k]))
            && Advance(before, Updated(i, updates[k])) == m.(ran := m.ran[i := updates[..k + 1]])
  {
    assert updates[..k + 1] == updates[..k] + [updates[k]];
    assert m.ran[i := updates[..k]][i := updates[..k + 1]] == m.ran[i := updates[..k + 1]];
  }

  /** Run the `i`-th call, which is prepared: its updates fall between its run and its end. */
  method Execute(agent: Agent, ghost base: seq<Event>, calls: seq<ToolCall>, ghost steps: Trail, i: nat,
                 script: CallScript)
    returns (final: Finalized, ghost next: Trail)
    requires agent.At(base, calls, steps) && i < |calls|
    requires i in Watch(steps).open && i !in Watch(steps).ran
    modifies agent
    ensures agent.At(base, calls, next) && Results(next) == Results(steps)
    ensures var m := Watch(steps); Watch(next) == m.(ran := m.ran[i := script.updates])
    ensures final == Finish(Executed(script.execution), script.after)
    ensures agent.Kept(old(agent.start), old(agent.active), old(agent.aborted))
  {
    next := agent.Perform(base, calls, steps, Ran(i));
    ghost var m := Watch(steps);
    var k := 0;
    while k < |script.updates|
      invariant 0 <= k <= |script.updates|
      invariant agent.At(base, calls, next) && Results(next) == Results(steps)
      invariant Watch(next) == m.(ran := m.ran[i := script.updates[..k]])
      invariant agent.Kept(old(agent.start), old(agent.active), old(agent.aborted))
    {
      ShowsNext(m, i, script.updates, k);
      next := agent.Perform(base, calls, next, Updated(i, script.updates[k]));
      k := k + 1;
    }
    assert script.updates[..k] == script.updates;
    final := Finish(Executed(script.execution), script.after);
  }

  /** The `i`-th call: start, prepare, run, end, report. */
  method ExecuteNext(agent: Agent, ghost base: seq<Event>, calls: seq<ToolCall>, script: CallScript, ghost steps: Trail, i: nat)
    returns (final: Finalized, message: Message, ghost next: Trail)
    requires agent.At(base, calls, steps) && i < |calls| && Between(Watch(steps), i) && i !in Watch(steps).ran
    modifies agent
    ensures agent.At(base, calls, next) && message == ResultMessage(calls[i], final)
    ensures Results(next) == Results(steps) + [message]
    ensures Between(Watch(next), i + 1)
    ensures Watch(next).ended == Watch(steps).ended[i := final]
    ensures Watch(next).ran == Watch(steps).ran
            || (Watch(next).ran == Watch(steps).ran[i := script.updates] && Prepare(calls[i], script, false).Prepared?)
    ensures IsOutcome(calls[i], script, final, i in Watch(next).ran, agent.aborted)
    ensures !agent.aborted && Prepare(calls[i], script, false).Prepared? ==> i in Watch(next).ran
    ensures agent.Kept(old(agent.start), old(agent.active), old(agent.aborted))
  {
    next := agent.Perform(base, calls, steps, Started(i));
    var preparation := Prepare(calls[i], script, agent.aborted);
    if preparation.Immediate? {
      final := preparation.final;
    } else {
      final, next := Execute(agent, base, calls, next, i, script);
    }
    message, next := Conclude(agent, base, calls, next, i, final);
  }

  /** The answers of the calls so far, of which only the last may have been told of an abort. */
  ghost predicate Answered(calls: seq<ToolCall>, scripts: seq<CallScript>, m: Monitor, finals: seq<Finalized>,
                           results: seq<Message>, aborted: bool)
  {
    && |finals| <= |calls| == |scripts|
    && Settles(calls, finals, results)
    && EndsAs(m.ended, finals)
    && RunsBelow(calls, scripts, m.ran, |finals|, aborted)
    && (forall i :: 0 <= i < |finals| ==> IsOutcome(calls[i], scripts[i], finals[i], i in m.ran, aborted && i + 1 == |finals|))
  }

  lemma AnsweredNext(calls: seq<ToolCall>, scripts: seq<CallScript>, m: Monitor, finals: seq<Finalized>,
                     results: seq<Message>, m': Monitor, final: Finalized, aborted: bool)
    requires Answered(calls, scripts, m, finals, results, false) && |finals| < |calls|
    requires var i := |finals|;
             && m'.ended == m.ended[i := final]
             && (m'.ran == m.ran || (m'.ran == m.ran[i := scripts[i].updates] && Prepare(calls[i], scripts[i], false).Prepared?))
             && (!aborted && Prepare(calls[i], scripts[i], false).Prepared? ==> i in m'.ran)
             && IsOutcome(calls[i], scripts[i], final, i in m'.ran, aborted)
    ensures Answered(calls, scripts, m', finals + [final], results + [ResultMessage(calls[|finals|], final)], aborted)
  {
    RunsNext(calls, scripts, m.ran, m'.ran, |finals|, aborted);
    EndsNext(m.ended, finals, final);
    SettlesNext(calls, finals, results, final);
    OutcomesNext(calls, scripts, finals, final, m.ran, m'.ran, aborted);
  }

  lemma EndsNext(ended: map<nat, Finalized>, finals: seq<Finalized>, final: Finalized)
    requires EndsAs(ended, finals)
    ensures EndsAs(ended[|finals| := final], finals + [final])
  {
  }

  lemma SettlesNext(calls: seq<ToolCall>, finals: seq<Finalized>, results: seq<Message>, final: Finalized)
    requires Settles(calls, finals, results) && |finals| < |calls|
    ensures Settles(calls, finals + [final], results + [ResultMessage(calls[|finals|], final)])
  {
  }

  lemma OutcomesNext(calls: seq<ToolCall>, scripts: seq<CallScript>, finals: seq<Finalized>, final: Finalized,
                     ran: map<nat, seq<string>>, ran': map<nat, seq<string>>, aborted: bool)
    requires |finals| < |calls| == |scripts|
    requires IsOutcome(calls[|finals|], scripts[|finals|], final, |finals| in ran', aborted)
    requires forall i :: i != |finals| ==> (i in ran' <==> i in ran)
    requires forall i :: 0 <= i < |finals| ==> IsOutcome(calls[i], scripts[i], finals[i], i in ran, false && i + 1 == |finals|)
    ensures var finals' := finals + [final];
            forall i :: 0 <= i < |finals'| ==> IsOutcome(calls[i], scripts[i], finals'[i], i in ran', aborted && i + 1 == |finals'|)
  {
    var finals' := finals + [final];
    forall i | 0 <= i < |finals'|
      ensures IsOutcome(calls[i], scripts[i], finals'[i], i in ran', aborted && i + 1 == |finals'|)
    {
      assert i < |finals| ==> IsOutcome(calls[i], scripts[i], finals[i], i in ran, false && i + 1 == |finals|);
    }
  }

  lemma RunsNext(calls: seq<ToolCall>, scripts: seq<CallScript>, ran: map<nat, seq<string>>,
                 ran': map<nat, seq<string>>, i: nat, aborted: bool)
    requires i < |calls| == |scripts| && RunsBelow(calls, scripts, ran, i, false)
    requires ran' == ran || (ran' == ran[i := scripts[i].updates] && Prepare(calls[i], scripts[i], false).Prepared?)
    requires !aborted && Prepare(calls[i], scripts[i], false).Prepared? ==> i in ran'
    ensures RunsBelow(calls, scripts, ran', i + 1, aborted)
  {
  }

  lemma AnsweredAll(calls: seq<ToolCall>, scripts: seq<CallScript>, steps: Trail, finals: seq<Finalized>,
                    results: seq<Message>, aborted: bool)
    requires Answered(calls, scripts, Watch(steps), finals, results, aborted)
    requires |finals| == |calls| || (aborted && finals != [])
    requires Within(calls, steps) && Legal(steps) && Between(Watch(steps), |finals|) && Results(steps) == results
    ensures Executes(calls, scripts, steps, finals, results, ShouldTerminate(finals), aborted)
  {
    assert ToolPhase(calls, steps, results);
    assert Batch(calls, scripts, finals, Watch(steps).ran, aborted);
  }

  /** One call at a time; stop after a call when the signal has fired. */
  method ExecuteSequential(agent: Agent, calls: seq<ToolCall>, scripts: seq<CallScript>)
    returns (results: seq<Message>, terminate: bool, ghost steps: Trail, ghost answered: seq<Finalized>)
    requires |calls| == |scripts| && agent.Synced()
    modifies agent
    ensures agent.At(old(agent.trace), calls, steps) && agent.Kept(old(agent.start), old(agent.active), old(agent.aborted))
    ensures Executes(calls, scripts, steps, answered, results, terminate, agent.aborted)
  {
    var finals: seq<Finalized> := [];
    results, steps := [], Nothing;
    ghost var base := agent.trace;
    var i := 0;
    while i < |calls|
      invariant 0 <= i <= |calls| && |finals| == i
      invariant agent.At(base, calls, steps) && agent.Kept(old(agent.start), old(agent.active), old(agent.aborted))
      invariant Between(Watch(steps), i) && Results(steps) == results
      invariant Answered(calls, scripts, Watch(steps), finals, results, false)
    {
      ghost var m := Watch(steps);
      var final, message;
      final, message, steps := ExecuteNext(agent, base, calls, scripts[i], steps, i);
      AnsweredNext(calls, scripts, m, finals, results, Watch(steps), final, agent.aborted);
      finals, results := finals + [final], results + [message];
      i := i + 1;
      if agent.aborted {
        break;
      }
    }
    answered := finals;
    terminate := ShouldTerminate(finals);
    AnsweredAll(calls, scripts, steps, finals, results, i < |calls| || agent.aborted);
  }

  // ---------------------------------------------------------------------------------------------
  // Parallel execution
  // ---------------------------------------------------------------------------------------------

  /** The steps the `j`-th call still has to take: its run, its updates, its end. */
  function Work(script: CallScript): nat { |script.updates| + 2 }

  /** The number of updates shown when `left` steps are to go. */
  function Emitted(script: CallScript, left: nat): (n: nat)
    requires left < Work(script)
    ensures n <= |script.updates|
  {
    if left == 0 then |script.updates| else Work(script) - 1 - left
  }

  function Get<T>(m: map<nat, T>, i: nat): Option<T> { if i in m then Some(m[i]) else None }

  /** One call of a parallel batch: finished with an outcome, or prepared with `left` steps to go. */
  ghost predicate Slot(call: ToolCall, script: CallScript, entry: Option<Finalized>, left: nat, ran: Option<seq<string>>,
                       late: bool) {
    && (left == 0 <==> entry.Some?)
    && (ran.Some? ==>
         Prepare(call, script, false).Prepared? && left < Work(script)
         && ran.value == script.updates[..Emitted(script, left)])
    && (entry.Some? ==> IsOutcome(call, script, entry.value, ran.Some?, late))
    && (entry.None? ==> Prepare(call, script, false).Prepared? && left <= Work(script) && (ran.Some? <==> left < Work(script)))
  }

  ghost predicate Pool(calls: seq<ToolCall>, scripts: seq<CallScript>, m: Monitor, entries: seq<Option<Finalized>>,
                       left: seq<nat>, late: bool)
  {
    && |left| == |entries| <= |calls| == |scripts|
    && m.started == |entries| && m.reported == 0
    && (forall j :: j in m.open <==> 0 <= j < |left| && left[j] > 0)
    && (forall j :: j in m.ran ==> j < |left|)
    && (forall j :: j in m.ended ==> j < |left| && entries[j] == Some(m.ended[j]))
    && (forall j :: 0 <= j < |left| && entries[j].Some? ==> j in m.ended)
    && (forall j :: 0 <= j < |left| ==>
         Slot(calls[j], scripts[j], entries[j], left[j], Get(m.ran, j), late && j + 1 == |left|))
  }

  /** A started call joins the pool, already ended when its preparation was immediate. */
  lemma PoolJoin(calls: seq<ToolCall>, scripts: seq<CallScript>, m: Monitor, entries: seq<Option<Finalized>>,
                 left: seq<nat>, m': Monitor, preparation: Preparation, late: bool)
    requires Pool(calls, scripts, m, entries, left, false) && |left| < |calls|
    requires var i := |left|;
             && (preparation == Prepare(calls[i], scripts[i], false)
                 || (late && preparation == Prepare(calls[i], scripts[i], true)))
             && m' == (match preparation
                       case Prepared => Advance(m, Started(i))
                       case Immediate(final) => Advance(Advance(m, Started(i)), Ended(i, final)))
    ensures var i := |left|;
            match preparation
            case Prepared => Pool(calls, scripts, m', entries + [None], left + [Work(scripts[i])], late)
            case Immediate(final) => Pool(calls, scripts, m', entries + [Some(final)], left + [0], late)
  {
    var i := |left|;
    assert forall j :: 0 <= j < i ==>
      Slot(calls[j], scripts[j], entries[j], left[j], Get(m.ran, j), false && j + 1 == |left|);
    assert i !in m.open && i !in m.ran;
  }

  /** The next step of the `j`-th call. */
  function NextStep(script: CallScript, left: nat, j: nat): ToolStep
    requires 0 < left <= Work(script)
  {
    if left == Work(script) then Ran(j)
    else if left > 1 then Updated(j, script.updates[Work(script) - 1 - left])
    else Ended(j, Finish(Executed(script.execution), script.after))
  }

  lemma PoolStep(calls: seq<ToolCall>, scripts: seq<CallScript>, m: Monitor, entries: seq<Option<Finalized>>,
                 left: seq<nat>, late: bool, j: nat)
    requires Pool(calls, scripts, m, entries, left, late) && j < |left| && left[j] > 0
    ensures left[j] <= Work(scripts[j])
    ensures var step := NextStep(scripts[j], left[j], j);
            && Allows(m, step)
            && Pool(calls, scripts, Advance(m, step), if step.Ended? then entries[j := Some(step.final)] else entries,
                    left[j := left[j] - 1], late)
  {
    var step := NextStep(scripts[j], left[j], j);
    var m', left' := Advance(m, step), left[j := left[j] - 1];
    var entries' := if step.Ended? then entries[j := Some(step.final)] else entries;
    SlotStep(calls[j], scripts[j], entries[j], left[j], m, j, late && j + 1 == |left|);
    forall k | 0 <= k < |left'|
      ensures Slot(calls[k], scripts[k], entries'[k], left'[k], Get(m'.ran, k), late && k + 1 == |left'|)
    {
      assert Slot(calls[k], scripts[k], entries[k], left[k], Get(m.ran, k), late && k + 1 == |left|);
      assert k != j ==> Get(m'.ran, k) == Get(m.ran, k);
    }
  }

  lemma SlotStep(call: ToolCall, script: CallScript, entry: Option<Finalized>, left: nat, m: Monitor, j: nat, late: bool)
    requires Slot(call, script, entry, left, Get(m.ran, j), late) && left > 0
    ensures left <= Work(script)
    ensures var step := NextStep(script, left, j);
            && step.i == j
            && (step.Ran? <==> j !in m.ran)
            && Slot(call, script, if step.Ended? then Some(step.final) else entry, left - 1,
                    Get(Advance(m, step).ran, j), late)
  {
    if 1 < left < Work(script) {
      var k := Emitted(script, left);
      assert script.updates[..k + 1] == script.updates[..k] + [script.updates[k]];
    }
  }

  ghost function Sum(s: seq<nat>): nat { if s == [] then 0 else s[0] + Sum(s[1..]) }

  lemma {:induction false} SumDrops(s: seq<nat>, j: nat)
    requires j < |s| && s[j] > 0
    ensures Sum(s[j := s[j] - 1]) < Sum(s)
  {
    var t := s[j := s[j] - 1];
    if j == 0 {
      assert t[1..] == s[1..];
    } else {
      SumDrops(s[1..], j - 1);
      assert t[1..] == s[1..][j - 1 := s[1..][j - 1] - 1];
    }
  }

  /** Start the calls in source order, and prepare each; stop after one when the signal has fired. */
  method StartAll(agent: Agent, ghost base: seq<Event>, calls: seq<ToolCall>, scripts: seq<CallScript>)
    returns (entries: seq<Option<Finalized>>, left: seq<nat>, ghost steps: Trail, ghost late: bool)
    requires |calls| == |scripts| && agent.trace == base && agent.Synced()
    modifies agent
    ensures agent.At(base, calls, steps) && agent.Kept(old(agent.start), old(agent.active), old(agent.aborted))
    ensures Pool(calls, scripts, Watch(steps), entries, left, late) && Results(steps) == []
    ensures |entries| == |calls| || (late && entries != [])
    ensures late ==> agent.aborted
  {
    entries, left, steps, late := [], [], Nothing, false;
    var i := 0;
    while i < |calls|
      invariant 0 <= i == |entries| <= |calls|
      invariant agent.At(base, calls, steps) && agent.Kept(old(agent.start), old(agent.active), old(agent.aborted))
      invariant Pool(calls, scripts, Watch(steps), entries, left, false) && Results(steps) == [] && !late
    {
      ghost var m := Watch(steps);
      steps := agent.Perform(base, calls, steps, Started(i));
      var preparation := Prepare(calls[i], scripts[i], agent.aborted);
      if preparation.Immediate? {
        steps := agent.Perform(base, calls, steps, Ended(i, preparation.final));
      } else {
        agent.Await();
      }
      late := agent.aborted;
      PoolJoin(calls, scripts, m, entries, left, Watch(steps), preparation, late);
      if preparation.Immediate? {
        entries, left := entries + [Some(preparation.final)], left + [0];
      } else {
        entries, left := entries + [None], left + [Work(scripts[i])];
      }
      i := i + 1;
      if agent.aborted {
        break;
      }
    }
  }

  /** Run the prepared calls concurrently: any unfinished call may take the next step. */
  method RunPool(agent: Agent, ghost base: seq<Event>, calls: seq<ToolCall>, scripts: seq<CallScript>,
                 entries: seq<Option<Finalized>>, left: seq<nat>, ghost steps: Trail, ghost late: bool)
    returns (done: seq<Option<Finalized>>, ghost next: Trail)
    requires agent.At(base, calls, steps) && Pool(calls, scripts, Watch(steps), entries, left, late)
    modifies agent
    ensures agent.At(base, calls, next) && agent.Kept(old(agent.start), old(agent.active), old(agent.aborted))
    ensures |done| == |entries| && Pool(calls, scripts, Watch(next), done, seq(|done|, i => 0), late)
    ensures Results(next) == Results(steps)
  {
    var rest := left;
    done, next := entries, steps;
    while exists j :: 0 <= j < |rest| && rest[j] > 0
      invariant agent.At(base, calls, next) && agent.Kept(old(agent.start), old(agent.active), old(agent.aborted))
      invariant |done| == |entries| && Pool(calls, scripts, Watch(next), done, rest, late)
      invariant Results(next) == Results(steps)
      decreases Sum(rest)
    {
      var j :| 0 <= j < |rest| && rest[j] > 0;
      PoolStep(calls, scripts, Watch(next), done, rest, late, j);
      SumDrops(rest, j);
      var step := NextStep(scripts[j], rest[j], j);
      next := agent.Perform(base, calls, next, step);
      if step.Ended? {
        done := done[j := Some(step.final)];
      }
      rest := rest[j := rest[j] - 1];
    }
    assert rest == seq(|done|, i => 0);
  }

  ghost predicate Drained(calls: seq<ToolCall>, scripts: seq<CallScript>, m: Monitor, finals: seq<Finalized>, late: bool) {
    && |finals| <= |calls| == |scripts|
    && m.started == |finals| && m.open == {}
    && EndsAs(m.ended, finals)
    && RunsBelow(calls, scripts, m.ran, |finals|, late)
    && (forall i :: 0 <= i < |finals| ==> IsOutcome(calls[i], scripts[i], finals[i], i in m.ran, late && i + 1 == |finals|))
  }

  lemma PoolDrained(calls: seq<ToolCall>, scripts: seq<CallScript>, m: Monitor, entries: seq<Option<Finalized>>, late: bool)
    requires Pool(calls, scripts, m, entries, seq(|entries|, i => 0), late)
    ensures forall j :: 0 <= j < |entries| ==> entries[j].Some?
    ensures Drained(calls, scripts, m, seq(|entries|, j requires 0 <= j < |entries| => entries[j].value), late)
  {
    var left := seq(|entries|, i => 0);
    assert forall j :: 0 <= j < |entries| ==>
      Slot(calls[j], scripts[j], entries[j], left[j], Get(m.ran, j), late && j + 1 == |left|);
  }

  lemma LateIsAborted(calls: seq<ToolCall>, scripts: seq<CallScript>, steps: Trail, finals: seq<Finalized>,
                      results: seq<Message>, terminate: bool, late: bool, aborted: bool)
    requires Executes(calls, scripts, steps, finals, results, terminate, late) && (late ==> aborted)
    ensures Executes(calls, scripts, steps, finals, results, terminate, aborted)
  {
  }

  lemma DrainedAnswers(calls: seq<ToolCall>, scripts: seq<CallScript>, m: Monitor, finals: seq<Finalized>,
                       results: seq<Message>, late: bool)
    requires Drained(calls, scripts, m, finals, late) && Settles(calls, finals, results)
    ensures var m' := m.(reported := |finals|);
            Answered(calls, scripts, m', finals, results, late) && Between(m', |finals|)
  {
  }

  /** Report the outcomes in source order. */
  method ReportAll(agent: Agent, ghost base: seq<Event>, calls: seq<ToolCall>, finals: seq<Finalized>, ghost steps: Trail)
    returns (results: seq<Message>, ghost next: Trail)
    requires agent.At(base, calls, steps) && Results(steps) == []
    requires var m := Watch(steps); m.started == |finals| <= |calls| && m.open == {} && m.reported == 0
    modifies agent
    ensures agent.At(base, calls, next) && agent.Kept(old(agent.start), old(agent.active), old(agent.aborted))
    ensures Watch(next) == Watch(steps).(reported := |finals|)
    ensures Results(next) == results && Settles(calls, finals, results)
  {
    results, next := [], steps;
    var k := 0;
    while k < |finals|
      invariant 0 <= k == |results| <= |finals|
      invariant agent.At(base, calls, next) && agent.Kept(old(agent.start), old(agent.active), old(agent.aborted))
      invariant Watch(next) == Watch(steps).(reported := k) && Results(next) == results
      invariant forall i :: 0 <= i < k ==> results[i] == ResultMessage(calls[i], finals[i])
    {
      var message := ResultMessage(calls[k], finals[k]);
      next := agent.Perform(base, calls, next, Reported(k, message));
      results := results + [message];
      k := k + 1;
    }
  }

  /** Start and prepare in source order, run concurrently, report in source order. */
  method ExecuteParallel(agent: Agent, calls: seq<ToolCall>, scripts: seq<CallScript>)
    returns (results: seq<Message>, terminate: bool, ghost steps: Trail, ghost answered: seq<Finalized>)
    requires |calls| == |scripts| && agent.Synced()
    modifies agent
    ensures agent.At(old(agent.trace), calls, steps) && agent.Kept(old(agent.start), old(agent.active), old(agent.aborted))
    ensures Executes(calls, scripts, steps, answered, results, terminate, agent.aborted)
  {
    ghost var base, late := agent.trace, false;
    var entries, left;
    entries, left, steps, late := StartAll(agent, base, calls, scripts);
    entries, steps := RunPool(agent, base, calls, scripts, entries, left, steps, late);
    PoolDrained(calls, scripts, Watch(steps), entries, late);
    var finals := seq(|entries|, j requires 0 <= j < |entries| => entries[j].value);
    ghost var m := Watch(steps);
    results, steps := ReportAll(agent, base, calls, finals, steps);
    answered, terminate := finals, ShouldTerminate(finals);
    DrainedAnswers(calls, scripts, m, finals, results, late);
    AnsweredAll(calls, scripts, steps, finals, results, late);
    LateIsAborted(calls, scripts, steps, finals, results, terminate, late, agent.aborted);
  }

  /** A batch is sequential when the configuration says so or one of its tools asks for it. */
  method ExecuteCalls(agent: Agent, sequential: bool, calls: seq<ToolCall>, scripts: seq<CallScript>)
    returns (results: seq<Message>, terminate: bool, ghost steps: Trail, ghost answered: seq<Finalized>)
    requires |calls| == |scripts| && agent.Synced()
    modifies agent
    ensures agent.At(old(agent.trace), calls, steps) && agent.Kept(old(agent.start), old(agent.active), old(agent.aborted))
    ensures Executes(calls, scripts, steps, answered, results, terminate, agent.aborted)
  {
    if sequential || exists i :: 0 <= i < |scripts| && scripts[i].found && scripts[i].sequential {
      results, terminate, steps, answered := ExecuteSequential(agent, calls, scripts);
    } else {
      results, terminate, steps, answered := ExecuteParallel(agent, calls, scripts);
    }
  }

  /** The two modes side by side: when neither run is aborted they return the same results and terminate flag. */
  method BothModes(a: Agent, b: Agent, calls: seq<ToolCall>, scripts: seq<CallScript>)
    returns (inOrder: seq<Message>, stop: bool, inParallel: seq<Message>, stop': bool)
    requires a != b && a.Synced() && b.Synced() && |calls| == |scripts|
    modifies a, b
    ensures !a.aborted && !b.aborted ==> inOrder == inParallel && stop == stop'
  {
    ghost var steps, finals, steps', finals';
    inOrder, stop, steps, finals := ExecuteSequential(a, calls, scripts);
    inParallel, stop', steps', finals' := ExecuteParallel(b, calls, scripts);
    if !a.aborted && !b.aborted {
      ModesAgree(calls, scripts, steps, finals, inOrder, stop, steps', finals', inParallel, stop');
    }
  }
}
