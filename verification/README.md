# A verified model of the coding-agent core

The repository is a coding agent with a client/server protocol, an agent loop, a model catalog and a terminal UI. This
project models its stateful cores in Dafny and proves what they promise over every input, every chunking and every
interleaving. Code between two `await`s is one atomic step; steps of different operations interleave freely.

| file | models | main results |
|---|---|---|
| `Framing.dfy` | length-prefixed frames and the incremental decoder | `ChunkingIsInvisible`, `DecodeOfEncode`, `CleanEnd`, `FrameDecoder.Push` |
| `MessageDecoder.dfy` | the validating message decoder above it | `MessagesOfAnyChunking` |
| `ValueGraph.dfy` | validation and copying of possibly cyclic object graphs | `SearchDecides`, `CopyIsFaithful`, `SanitizedStands`, `SanitizeThrowsIff` |
| `Catalog.dfy` | concurrent model refreshes and their publications | `PublicationSafety`, `MemorySafety`, `SupersededNeverApplies` |
| `Sessions.dfy` | live session runtimes shared by connections | `RuntimeSafety`, `NoRuntimeIsLost`, `AttachmentSafety`, `AttachAgreesIff` |
| `AgentTrace.dfy` | the grammar of an agent's events and the state reducer | `LegalIsOrdered`, `StoppedRunIsPrefix`, `TranscriptAtBoundary` |
| `AgentTools.dfy` | sequential, parallel and truncated tool execution | `ExecuteSequential`, `ExecuteParallel`, `RunsExactlyWhatMayRun`, `ModesAgree` |
| `AgentLoop.dfy` | queues, the two nested loops, `prompt` and `continue` | `RunLoop`, `RunWithLifecycle`, `Continue`, `OneAtATimeBetweenReplies` |
| `Correlation.dfy` | handshake and request/response correlation | `ServerSafety`, `ResponsesAreResults`, `ExchangeSafety`, `ResolvedMeansSucceeded` |
| `Leases.dfy` | the client's shared and exclusive session leases | `LeaseSafety`, `SafeIffCalm` |
| `Snapshots.dfy` | revisioned server snapshots | `SnapshotConverges`, `RevisionCounts` |
| `ConnectionLifecycle.dfy` | the client's connection with re-entrant listeners | `Drive` |
| `Layout.dfy` | box layout with clipping and scrolling, and the hit test | `LayoutClips`, `ScrolledContent`, `HitTestIsExact` |
| `Latex.dfy` | the LaTeX parser with nested parsers and its layout nodes | `RenderLatex` |

## Properties that do not hold as one would state them

The code is modelled as it is. Where a natural property is false, a concrete input or run shows it, and the exact
condition under which it holds is proved.

- Copying a value into protocol JSON loses a property named `__proto__` (`ValueGraph.ProtoKeyIsLost`); a copy unfolds
  like the value exactly when no reachable object has such a property (`ValueGraph.CopyIsFaithful`).
- Sanitizing tool details, which is meant never to affect execution, throws on an invalid `Date`
  (`ValueGraph.InvalidDateThrows`), and exactly when one can be reached (`ValueGraph.SanitizeThrowsIff`).
- A session that becomes idle between being acquired and being attached is disposed with a connection on it
  (`Sessions.LateAttachDisagrees`); attaching keeps both sides agreed exactly when the session is still registered and
  not being disposed (`Sessions.AttachAgreesIff`).
- With both queues in one-at-a-time mode, a follow-up and a steering message can still be injected ahead of one reply
  (`AgentLoop.FollowUpMeetsSteering`); it happens exactly in the first turn of a run that `continue` opens with a
  follow-up and whose first poll finds steering (`AgentLoop.OneAtATimeBetweenReplies`).
- An acquire in flight while its session is removed yields a live lease nobody counts (`Leases.UncountedLease`), and a
  disconnection between the success of a detach request and the rest of the release loses the count of a new
  reservation (`Leases.LostReservation`). After a step every further course of events keeps the count right, as long as
  it is calm, if and only if the step itself is calm (`Leases.SafeIffCalm`): at an invalidation no acquire is in flight
  and no release whose detach request succeeded is about to go on, and when a session is removed no detach request is on
  its way.
- A listener that disconnects and connects again while a batch of messages is being handled makes the new attempt fail
  (`Correlation.ReconnectInCallbackFails`), exactly when the batch has messages left
  (`Correlation.LeftOverFailsAttempt`); only then does a client meet a first message that is no greeting
  (`Correlation.ExchangeSafety`).

## Model

| member | source | states |
|---|---|---|
| Framing.HeaderArithmetic | packages/protocol/src/framing.ts:88-89 | the decoder's sum of weighted bytes is the big-endian value of the header |
| Framing.HeaderShifts | packages/protocol/src/framing.ts:33-36 | the encoder's shifts, truncated to bytes, are the big-endian digits of the length |
| Framing.LengthRoundTrip | packages/protocol/src/framing.ts:33-45 | every 32-bit length is read back from the bytes written for it |
| Framing.HeaderRoundTrip | packages/protocol/src/framing.ts:33-45 | every four-byte header is the encoding of the length it announces |
| Framing.ParseAppend | packages/protocol/src/framing.ts:73-144 | parsing is compositional: more bytes extend the frames already found and resume at the tail |
| Framing.ParseIsFaithful | packages/protocol/src/framing.ts:73-144 | the stream is the encoding of the parsed frames followed by the tail, and frames respect the limit |
| Framing.ParseOfEncoding | packages/protocol/src/framing.ts:28-39 | parsing the encoding of payloads within the limit returns them, whatever follows |
| Framing.ChunkingIsInvisible | packages/protocol/src/framing.ts:73-164 | for every chunking, pushes return the frames of a one-shot parse and keep its tail; with an oversized header every chunking latches failure and what was handed out is a prefix of those frames, namely the frames of the chunks before the failing one |
| Framing.DecodeOfEncode | packages/protocol/src/framing.ts:28-144 | any chunking of the concatenated encodings returns exactly the payloads |
| Framing.CleanEnd | packages/protocol/src/framing.ts:146-153 | the end is clean exactly when the stream is a whole number of frames within the limit |
| Framing.ResolveMaxFrameLength | packages/protocol/src/framing.ts:19-25 | the configured limit, or 16 MiB when there is none; exactly the limits that are no unsigned 32-bit value are refused |
| Framing.EncodeFrame | packages/protocol/src/framing.ts:28-39 | fills an array with the header and payload, and fails exactly on payloads over 32 bits |
| Framing.AssertCompleteFrame | packages/protocol/src/framing.ts:42-53 | accepts exactly the encodings of one payload within the configured or default limit |
| Framing.FrameDecoder.constructor | packages/protocol/src/framing.ts:69-71 | a fresh decoder is open with nothing pending |
| Framing.FrameDecoder.MemoryBound | packages/protocol/src/framing.ts:107-123 | allocated blocks never exceed the announced length nor the received bytes plus one block |
| Framing.FrameDecoder.PendingParses | packages/protocol/src/framing.ts:80-142 | what is pending is a proper beginning of one frame |
| Framing.FrameDecoder.Fail | packages/protocol/src/framing.ts:155-164 | latches failure and drops everything held |
| Framing.FrameDecoder.TakeHeader | packages/protocol/src/framing.ts:81-103 | consumes header bytes; a complete header fails, yields an empty frame or announces a payload |
| Framing.FrameDecoder.TakePayload | packages/protocol/src/framing.ts:107-123 | appends payload bytes block by block, never past the announced length |
| Framing.FrameDecoder.TakeFrame | packages/protocol/src/framing.ts:124-141 | hands out exactly the payload received and forgets it |
| Framing.FrameDecoder.TakeSome | packages/protocol/src/framing.ts:80-142 | one turn of the push loop agrees with the parse of what was pending and consumed |
| Framing.FrameDecoder.Push | packages/protocol/src/framing.ts:73-144 | refines the specification of a push: result, frames handed out, residual state and failure latch; handed-out buffers are not kept |
| Framing.FrameDecoder.End | packages/protocol/src/framing.ts:146-153 | succeeds exactly on an open decoder with nothing pending |
| Framing.Join | packages/protocol/src/framing.ts:128-134 | the blocks of a payload copied into one buffer give the received bytes |
| MessageDecoder.MessagesOfAnyChunking | packages/protocol/src/codec.ts:102-115 | the decoder lives exactly when every header is within the limit and every frame decodes, and has then handed out exactly the stream's messages; otherwise messages of frames before the first bad one |
| MessageDecoder.ValidatedMessageDecoder.Push | packages/protocol/src/codec.ts:102-115 | refines the specification of a message push, failure latch included |
| MessageDecoder.ValidatedMessageDecoder.End | packages/protocol/src/codec.ts:117-125 | succeeds exactly on a live decoder between frames, and latches failure otherwise |
| ValueGraph.SearchDecides | packages/protocol/src/codec.ts:25-39 | with any set of ancestors, the search accepts exactly the values with no path back and only allowed contents |
| ValueGraph.IsProtocolValue | packages/protocol/src/codec.ts:25-39 | terminates on every graph, restores its ancestor set, and decides acceptance |
| ValueGraph.EveryKid | packages/protocol/src/codec.ts:33-35 | checks every item or property value, skipping holes of a sparse array |
| ValueGraph.IsProtocolMessage | packages/protocol/src/codec.ts:41-53 | accepts exactly the acyclic values with allowed contents |
| ValueGraph.CopyDecides | packages/server/src/protocol.ts:142-163 | the conversion throws exactly on cyclic or disallowed values |
| ValueGraph.CopyIsFaithful | packages/server/src/protocol.ts:142-163 | a returned tree unfolds like the value if and only if no `__proto__` property is reachable |
| ValueGraph.ProtoKeyIsLost | packages/server/src/protocol.ts:157-158 | a value whose copy loses a property |
| ValueGraph.ToProtocolJsonValue | packages/server/src/protocol.ts:142-163 | terminates, restores its set even when it throws, and computes the copy |
| ValueGraph.SanitizeExtendsCopy | packages/server/src/protocol.ts:166-186 | sanitizing agrees with the strict conversion wherever that succeeds |
| ValueGraph.InvalidDateThrows | packages/server/src/protocol.ts:171-171 | a record whose sanitizing throws |
| ValueGraph.SanitizeThrowsIff | packages/server/src/protocol.ts:166-186 | terminates on every graph and throws exactly when a path reaches an invalid date |
| ValueGraph.SanitizedStands | packages/server/src/protocol.ts:166-186 | where no property is named `__proto__` the result stands for the value: big integers and numbers without JSON form as text, dates as ISO text, an ancestor met again as a notice, null in arrays for what has no JSON form, and objects without such properties; there is no result only for what has no JSON form |
| ValueGraph.SanitizeProtocolDetails | packages/server/src/protocol.ts:166-186 | restores its set either way and computes the sanitized value, cycles cut |
| Catalog.NextKeeps | packages/ai/src/models.ts:320-365 | every action keeps publications of a provider serialized, the store in step with the publication that wrote it, and generations consistent |
| Catalog.PublicationSafety | packages/ai/src/models.ts:338-365 | over all interleavings: no overlapping publications of a provider; an update is logged only at the newest generation, on the registered provider, with the store holding what was persisted; applied generations never go back |
| Catalog.SupersededNeverApplies | packages/ai/src/models.ts:347-355 | a superseded refresh never logs an update again; by `MemoryStep` it never changes memory again either |
| Catalog.MemorySafety | packages/ai/src/models.ts:338-365 | over every run the models in memory for a provider object are those of its last logged publication that has some, and none if there is none; each publication is logged at most once |
| Catalog.MemoryStep | packages/ai/src/models.ts:346-357 | memory changes only at the check before an update, only if the refresh is not aborted and its generation is the newest, and then by exactly the publication's update |
| Catalog.StartStep | packages/ai/src/models.ts:346-354 | a store operation starts for exactly the publications that persist something and are not superseded; the others are finished at once |
| Catalog.StageStep | packages/ai/src/models.ts:340-357 | a publication is queued behind the one its provider queued last; after its store operation comes the second check, after a failed one nothing |
| Catalog.StoreStep | packages/ai/src/models.ts:347-354 | the store changes only when a store operation takes effect, at its provider, by what it persists |
| Catalog.GenerationsCount | packages/ai/src/models.ts:320-329 | over every run a provider's generation grows by the number of actions that superseded it |
| Catalog.RefreshesStay | packages/ai/src/models.ts:320-336 | a refresh is aborted by its caller, or when its provider is superseded while it is the controlled one, and never changed otherwise |
| Catalog.BeginStep | packages/ai/src/models.ts:331-336 | a refresh begins with the generation it makes newest, on the registered provider object, under control of its provider |
| Catalog.ControllerStep | packages/ai/src/models.ts:431-434 | a refresh that ends gives up only its own control; superseding takes control away |
| Catalog.RegistrationStep | packages/ai/src/models.ts:269-284 | the registered providers are those set and not deleted or cleared since |
| Catalog.ClearSupersedesAll | packages/ai/src/models.ts:279-284 | clearing supersedes every refresh, also one without a controller |
| Catalog.ModelsImpl.SupersedeProviderRefresh | packages/ai/src/models.ts:320-329 | takes the next generation and aborts the controller in place |
| Catalog.ModelsImpl.SetProvider | packages/ai/src/models.ts:269-272 | refines the action, keeping the invariant |
| Catalog.ModelsImpl.DeleteProvider | packages/ai/src/models.ts:274-277 | refines the action, keeping the invariant |
| Catalog.ModelsImpl.SupersedeAll | packages/ai/src/models.ts:280-282 | superseding one id after the other supersedes the whole set, in any order |
| Catalog.ModelsImpl.ClearProviders | packages/ai/src/models.ts:279-284 | refines the action, keeping the invariant |
| Catalog.ModelsImpl.BeginProviderRefresh | packages/ai/src/models.ts:331-336 | refines the action, keeping the invariant |
| Catalog.ModelsImpl.PublishProviderModels | packages/ai/src/models.ts:338-365 | queues a publication behind the provider's last one |
| Catalog.ModelsImpl.IsCurrent | packages/ai/src/models.ts:347-355 | true exactly when the signal is live and the generation is the newest |
| Catalog.ModelsImpl.ResumeAfterPrevious | packages/ai/src/models.ts:346-357 | the publication's first check and the start of its store operation |
| Catalog.ModelsImpl.ResumeAfterStore | packages/ai/src/models.ts:355-357 | the second check and the in-memory update |
| Catalog.ModelsImpl.ForgetChain | packages/ai/src/models.ts:361-363 | a chain is forgotten only by its own tail |
| Catalog.CurrentModels | packages/ai/src/models.ts:766-774 | a lookup finds the last dynamic model of an id, else the baseline's; the baseline's order stays |
| Sessions.NextKeeps | packages/server/src/sessions.ts:152-345 | every action keeps the invariant tying runtimes to creates, live sessions and close |
| Sessions.RuntimeSafety | packages/server/src/sessions.ts:152-246 | each runtime is disposed at most once, also during close; a session's counter is the operations started on it and not ended; outside close at most one undisposed runtime per id, and the runtime of a session with an operation not ended is held |
| Sessions.CountIsRunning | packages/server/src/sessions.ts:171-184 | over every run a session's counter grows by its starts minus its ends |
| Sessions.NoRuntimeIsLost | packages/server/src/sessions.ts:152-246 | over every run each held runtime awaits its snapshot or is that of a registered session not being disposed |
| Sessions.CloseCollectsAll | packages/server/src/sessions.ts:152-169 | when close has collected, only creates it did not wait for hold a runtime |
| Sessions.LiveStep | packages/server/src/sessions.ts:324-345 | a session keeps its id and runtime, is terminal once its runtime failed, and its disposal begins only outside close, unconnected, with no operation, and idle or failed |
| Sessions.IdleMayGo | packages/server/src/sessions.ts:324-333 | conversely exactly those sessions may be disposed |
| Sessions.DisposalBegins | packages/server/src/sessions.ts:152-345 | a held runtime's disposal begins exactly when its snapshot is refused, its idle session goes or close collects it |
| Sessions.DisposalEnds | packages/server/src/sessions.ts:336-342 | a settled disposal leaves the runtime disposed and exactly its session no longer registered |
| Sessions.CreateEnds | packages/server/src/sessions.ts:209-246 | a create that gives its runtime up settles without a session after its disposal, as a refused one does |
| Sessions.ArrivalStep | packages/server/src/sessions.ts:209-217 | a runtime that arrives is held while its snapshot is taken, or given up at once when the server closes |
| Sessions.RegisterStep | packages/server/src/sessions.ts:217-238 | a session registers, unconnected and idle, under the id of its create with the runtime whose snapshot was taken |
| Sessions.ConnectionStep | packages/server/src/sessions.ts:66-132 | a connection lists exactly what it attached to and has not left, and nothing once it is lost |
| Sessions.OneRuntimePerId | packages/server/src/sessions.ts:186-246 | two runtimes of one id: one of them is disposed |
| Sessions.OperationStartsOnHeldRuntime | packages/server/src/sessions.ts:309-318 | operations start only on held runtimes |
| Sessions.AttachAgreesIff | packages/server/src/sessions.ts:300-307 | attaching keeps both sides agreed if and only if the session is still registered and not being disposed |
| Sessions.AttachmentsKept | packages/server/src/sessions.ts:66-132 | every other action keeps them agreed |
| Sessions.AttachmentSafety | packages/server/src/sessions.ts:300-345 | in every non-closing state reached by prompt attaches, connections and registered sessions list each other and a session being disposed has no connections |
| Sessions.LateAttachDisagrees | packages/server/src/sessions.ts:186-307 | a reachable state with a connection on a session being disposed |
| Sessions.LiveSessionManager.Acquire | packages/server/src/sessions.ts:186-207 | one turn of acquire: locked, waiting for a disposal, existing, joining an opening, or starting one |
| Sessions.LiveSessionManager.ResumeWithRuntime | packages/server/src/sessions.ts:209-217 | the create continues with its runtime or gives it up when closing |
| Sessions.LiveSessionManager.ResumeWithSnapshot | packages/server/src/sessions.ts:217-246 | registers the session or disposes the runtime of a wrong id |
| Sessions.LiveSessionManager.TryDispose | packages/server/src/sessions.ts:324-345 | starts a disposal exactly under the guard |
| Sessions.LiveSessionManager.FinishDisposal | packages/server/src/sessions.ts:336-342 | unregisters the session only if it is still the registered one |
| Sessions.LiveSessionManager.AttachConnection | packages/server/src/sessions.ts:300-307 | refines the action |
| Sessions.LiveSessionManager.DetachConnection | packages/server/src/sessions.ts:75-89 | refines the action |
| Sessions.LiveSessionManager.DropConnection | packages/server/src/sessions.ts:122-132 | leaving the sessions one by one leaves them all |
| Sessions.LiveSessionManager.BeginOperation | packages/server/src/sessions.ts:171-184 | starts an operation, counting it, exactly on an attached live session |
| Sessions.LiveSessionManager.FinishOperation | packages/server/src/sessions.ts:180-183 | refines the action |
| Sessions.LiveSessionManager.Collect | packages/server/src/sessions.ts:157-168 | close disposes every collected runtime that is not being disposed |
| AgentTrace.LegalIsOrdered | packages/agent/src/agent-loop.ts:433-711 | the monitor of tool events accepts exactly the histories in which each call starts, runs, ends and is reported once and in order, with updates strictly between run and end |
| AgentTrace.PhaseIsComplete | packages/agent/src/agent-loop.ts:433-554 | a finished tool phase has started, ended and reported exactly the calls it answers |
| AgentTrace.PartialTurnExtends | packages/agent/src/agent-loop.ts:174-224 | wherever a turn is cut short, its events are a beginning of those of a whole turn: open calls can end and ended ones be reported |
| AgentTrace.StoppedRunIsPrefix | packages/agent/src/agent-loop.ts:95-275 | a run stopped anywhere has emitted a beginning of a complete trace |
| AgentTrace.TurnsAreMarked | packages/agent/src/agent-loop.ts:174-224 | in the events of the turns each starts once and ends once, in order, and ends with its reply and its tool results |
| AgentTrace.ReachesReduction | packages/agent/src/agent.ts:544-591 | processing events one by one computes their reduction |
| AgentTrace.ReduceTools | packages/agent/src/agent.ts:559-571 | pending tool calls are always among the open calls of the batch, even when ids repeat |
| AgentTrace.PendingAreOpen | packages/agent/src/agent.ts:559-571 | when ids do not repeat, the pending tool calls are exactly those started and not ended |
| AgentTrace.StreamingShowsLatest | packages/agent/src/agent.ts:545-557 | while a reply streams its latest version is shown and the transcript waits |
| AgentTrace.ErrorIsLastReported | packages/agent/src/agent.ts:573-577 | the error message is that of the last turn that reported one |
| AgentTrace.EventsTell | packages/agent/src/agent-loop.ts:433-758 | the events of a tool phase hold each call's start, every update of its tool and what it came to |
| AgentTrace.ReduceTurn | packages/agent/src/agent.ts:544-591 | a whole turn adds exactly its messages and leaves nothing pending |
| AgentTrace.TranscriptAtBoundary | packages/agent/src/agent.ts:544-591 | at every turn boundary the rebuilt transcript is the starting one plus the turns' messages |
| AgentTrace.TranscriptAtEnd | packages/agent/src/agent.ts:544-591 | so it is after `agent_end` |
| AgentTools.NotRunIsReported | packages/agent/src/agent-loop.ts:600-668 | in a batch that was not aborted, a call whose tool did not run is answered with an error |
| AgentTools.RunsExactlyWhatMayRun | packages/agent/src/agent-loop.ts:600-668 | a tool runs only for a call that is found, has valid arguments and is not blocked by its hook, showing all its updates; without abort for every such call |
| AgentTools.NotRunSays | packages/agent/src/agent-loop.ts:600-668 | a call that may not run is answered with an error carrying the hook's reason or the standard notice, what was thrown, or that there is no such tool; only a blocking hook can make it ask to terminate |
| AgentTools.AbortedSays | packages/agent/src/agent-loop.ts:628-654 | a call that may run and did not is the last of an aborted batch and answered with that notice |
| AgentTools.RanSays | packages/agent/src/agent-loop.ts:670-711 | without an after hook a call whose tool ran carries the tool's own content and flag, or the error it threw |
| AgentTools.HookedSays | packages/agent/src/agent-loop.ts:713-758 | an after hook overrides exactly the fields it names, or replaces the result by its error |
| AgentTools.TruncatedSays | packages/agent/src/agent-loop.ts:381-406 | the calls of a truncated reply are answered with that notice |
| AgentTools.EventsAgree | packages/agent/src/agent-loop.ts:767-796 | the end event of a call and its result tell the same |
| AgentTools.TerminatesIff | packages/agent/src/agent-loop.ts:582-584 | a batch asks to terminate exactly when it answered some call and every answer asks for it |
| AgentTools.HooksTerminate | packages/agent/src/agent-loop.ts:713-758 | hooks that all ask for it make the batch terminate, whatever the tools returned |
| AgentTools.ModesAgree | packages/agent/src/agent-loop.ts:433-554 | without abort, any two executions of the same calls report the same results and terminate flag and run the same tools, whatever mode and completion order |
| AgentTools.Agent.ProcessEvents | packages/agent/src/agent.ts:544-591 | the fields after an event are the reduction of the fields before |
| AgentTools.Agent.Begin | packages/agent/src/agent.ts:486-501 | a fresh signal, no trace, the transcript kept |
| AgentTools.Agent.FinishRun | packages/agent/src/agent.ts:529-535 | no active run, nothing streaming or pending |
| AgentTools.Agent.Perform | packages/agent/src/agent-loop.ts:767-796 | a tool step extends the legal steps and emits exactly their events |
| AgentTools.FailTruncated | packages/agent/src/agent-loop.ts:381-406 | every call of a truncated reply is answered with an error in source order, and no tool runs |
| AgentTools.Execute | packages/agent/src/agent-loop.ts:670-758 | the tool runs once, shows all its updates between its run and its end, and its outcome is finalized |
| AgentTools.ExecuteSequential | packages/agent/src/agent-loop.ts:433-487 | legal steps; one result per call with matching id and name for a prefix that is everything unless aborted; every outcome is the call's own, only the last may see the abort; by `RunsExactlyWhatMayRun` exactly the calls that may run do |
| AgentTools.StartAll | packages/agent/src/agent-loop.ts:497-537 | starts and prepares in source order, stopping after a call once aborted |
| AgentTools.RunPool | packages/agent/src/agent-loop.ts:539-541 | whatever the interleaving, every prepared call ends with its own outcome |
| AgentTools.ReportAll | packages/agent/src/agent-loop.ts:542-548 | reports one result per call in source order |
| AgentTools.ExecuteParallel | packages/agent/src/agent-loop.ts:489-554 | the same contract as the sequential mode |
| AgentTools.BothModes | packages/agent/src/agent-loop.ts:433-554 | running the same calls in both modes, with neither aborted, returns the same results and terminate flag |
| AgentTools.ExecuteCalls | packages/agent/src/agent-loop.ts:411-426 | the same contract whichever mode is chosen |
| AgentLoop.Taken | packages/agent/src/agent.ts:141-154 | the whole queue, or in one-at-a-time mode its first message; empty only if the queue is |
| AgentLoop.PendingMessageQueue.Enqueue | packages/agent/src/agent.ts:133-135 | keeps what was enqueued equal to what was drained followed by what is queued |
| AgentLoop.PendingMessageQueue.Drain | packages/agent/src/agent.ts:141-154 | takes what the mode says, keeping that conservation, and leaves nothing behind when it takes all |
| AgentLoop.StreamReply | packages/agent/src/agent-loop.ts:281-372 | the context grows by the final reply alone, and the events are one start, the updates of the stream and one end |
| AgentLoop.Inject | packages/agent/src/agent-loop.ts:181-190 | each pending message is shown and added to context and new messages |
| AgentLoop.RunTools | packages/agent/src/agent-loop.ts:200-222 | no calls, truncated calls or executed calls: the tool phase answers the reply, all of it unless the signal fired |
| AgentLoop.RunTurn | packages/agent/src/agent-loop.ts:174-224 | a turn is a word of the grammar, adds the same messages to context and new messages, and is aborted only if the signal fired |
| AgentLoop.CloseTurn | packages/agent/src/agent-loop.ts:194-259 | a failed reply or a requested stop ends the run, otherwise steering is polled, leaving nothing queued when all is taken |
| AgentLoop.UnreplacedContext | packages/agent/src/agent-loop.ts:226-246 | without a replacement the context after the turns is the starting context followed by their messages |
| AgentLoop.ReplacedContext | packages/agent/src/agent-loop.ts:226-246 | the context is the last replacement followed by the messages of the later turns |
| AgentLoop.EveryCallAnswered | packages/agent/src/agent-loop.ts:200-222 | in a run no turn of which saw the signal fire, every call of every reply that did not fail is answered |
| AgentLoop.UnknownToolGoesOn | packages/agent/src/agent-loop.ts:203-218 | a turn with a call to an unknown tool is followed by another |
| AgentLoop.TurnRunsWhatMayRun | packages/agent/src/agent-loop.ts:194-222 | in every turn of a run tools run only for calls their scripts let run, never for a failed, aborted or truncated reply, and without abort for every such call of any other reply; truncated calls are answered with that notice |
| AgentLoop.GoesOnBecause | packages/agent/src/agent-loop.ts:194-260 | a turn is followed by another only if its reply neither failed nor was aborted, nobody asked to stop, and it called tools that did not all ask to terminate or queued messages follow |
| AgentLoop.FailureEndsRun | packages/agent/src/agent-loop.ts:194-198 | a reply that failed or was aborted ends the run, and none of its calls is executed |
| AgentLoop.EndsBecause | packages/agent/src/agent-loop.ts:194-275 | a run ends because its last reply failed, the caller asked to stop, or nothing is left to answer or queued |
| AgentLoop.Pass | packages/agent/src/agent-loop.ts:174-260 | one pass of the inner loop keeps the loop's invariant or completes the run, with the context the turns lead to |
| AgentLoop.RunTurns | packages/agent/src/agent-loop.ts:170-261 | the inner loop ends idle, over, or under way with a reason to go on |
| AgentLoop.OuterPass | packages/agent/src/agent-loop.ts:170-271 | one pass of the outer loop keeps it, ends the run with the reason, or leaves it under way |
| AgentLoop.RunLoop | packages/agent/src/agent-loop.ts:155-275 | a finished run's trace is complete and its context is the one the turns and their replacements lead to; queues are conserved with nothing pending; turns follow their scripts and come only for a reason; a run that is not finished has a reason to go on |
| AgentLoop.RunWithLifecycle | packages/agent/src/agent.ts:486-535 | the agent's transcript grew by exactly the new messages and, unless the context was replaced, is the loop's context; nothing pending; every call answered unless the signal fired; queues conserved |
| AgentLoop.Prompt | packages/agent/src/agent.ts:350-358 | refused exactly while a run is active, with nothing changed |
| AgentLoop.Continue | packages/agent/src/agent.ts:361-388 | opens with steering, else follow-ups, else the transcript, with the errors in their cases |
| AgentLoop.ContinueOrder | packages/agent/src/agent.ts:361-388 | steering comes first and a follow-up only when there is none; a transcript not ending with an assistant message is continued as it is; the errors exactly in their cases |
| AgentLoop.TakeOpening | packages/agent/src/agent.ts:366-385 | drains what continue opens the run with, and nothing on an error |
| AgentLoop.TranscriptUnderway | packages/agent/src/agent.ts:544-591 | the transcript at every boundary of an unfinished run |
| AgentLoop.OneAtATimeBetweenReplies | packages/agent/src/agent.ts:141-154 | in one-at-a-time mode at most one message per queue and turn, at most one in all after the first turn, and in the first too if and only if the run was not opened by a follow-up meeting steering |
| AgentLoop.FollowUpMeetsSteering | packages/agent/src/agent.ts:377-381 | a run that injects a follow-up and a steering message ahead of one reply |
| Correlation.ServerKeeps | packages/server/src/server.ts:185-331 | every step keeps the first frame a greeting, hello first or never, nothing but greetings without hello, and commands only after the handshake |
| Correlation.AnswersOnlyOwed | packages/server/src/server.ts:252-270 | a step answers only a request it owed, and owes only what it received |
| Correlation.RequestsConserved | packages/server/src/server.ts:205-270 | on a connection that lives on, what is received is owed until it is answered |
| Correlation.ServerSafety | packages/server/src/server.ts:185-331 | over every run against any client: orderly frames, commands only after the handshake, each received request answered at most once |
| Correlation.ResponsesAreResults | packages/server/src/server.ts:252-270 | over every run the responses sent are, in order, exactly the results of the commands that settled while frames were taken on a live connection: request and outcome |
| Correlation.FailureStep | packages/server/src/server.ts:170-219 | exactly malformed input, a message out of order, an unsupported version, a handshake that throws or times out, and the server's close end a live connection, and but for the last an error frame goes out |
| Correlation.ReadyStep | packages/server/src/server.ts:230-249 | a connection becomes ready exactly when its hello was sent while it was shaking hands |
| Correlation.TerminalStep | packages/server/src/server.ts:170-219 | a connection that is gone or closing stays so and starts no command |
| Correlation.NextKeeps | packages/client/src/client.ts:189-340 | every step of client, server and channels keeps requests in flight matched with pending ones |
| Correlation.ExchangeSafety | packages/client/src/client.ts:294-340 | over every run, reconnections included: no response without request, no command mismatch, no promise settled twice, and no first message but a greeting unless an attempt was opened in the middle of an earlier connection's data |
| Correlation.ResolvedMeansSucceeded | packages/client/src/client.ts:294-318 | over every run, reconnections included, a promise is resolved only if its own request was issued and its command succeeded on the server |
| Correlation.MessageResolves | packages/client/src/client.ts:300-318 | a message resolves a promise exactly if it is a success of the request pending under that id |
| Correlation.MessageStep | packages/client/src/client.ts:294-340 | which messages a client goes on with, settling the answered request; any other ends the attempt and settles every promise |
| Correlation.LeftOverFailsAttempt | packages/client/src/connection.ts:155-158 | an attempt is failed by a left-over message if and only if the loop its opening interrupted had messages left |
| Correlation.ReconnectInCallbackFails | packages/client/src/connection.ts:155-158 | a reachable failure of this kind |
| Correlation.ServerConnection.SendMessage | packages/server/src/server.ts:293-313 | refines sending: a frame goes out only on a live connection |
| Correlation.ServerConnection.FailProtocol | packages/server/src/server.ts:315-331 | refines the failure, at most one error frame |
| Correlation.ServerConnection.Disconnect | packages/server/src/server.ts:282-291 | refines the disconnection |
| Correlation.ServerConnection.Receive | packages/server/src/server.ts:170-183 | dispatches the messages of a chunk until the connection ends |
| Correlation.ServerConnection.DispatchMessage | packages/server/src/server.ts:185-219 | refines the dispatch in every stage |
| Correlation.ServerConnection.SendHello | packages/server/src/server.ts:230-237 | refines the handshake's first segment |
| Correlation.ServerConnection.BecomeReady | packages/server/src/server.ts:238-249 | refines the handshake's second segment |
| Correlation.ServerConnection.ResumeRequest | packages/server/src/server.ts:216-218 | refines a request held back during the handshake |
| Correlation.ServerConnection.Respond | packages/server/src/server.ts:252-270 | refines the answer |
| Correlation.RequestTable.Request | packages/client/src/client.ts:189-207 | takes a new id, pending exactly if the frame encodes, refused when not connected |
| Correlation.RequestTable.RejectPendingRequests | packages/client/src/client.ts:336-340 | settles each pending promise once, in any order |
| Correlation.RequestTable.HandleMessage | packages/client/src/connection.ts:162-204 | refines the message handling in every state |
| Correlation.RequestTable.HandleResponse | packages/client/src/client.ts:300-318 | refines the matching of a response |
| Leases.NextKeeps | packages/client/src/client.ts:209-412 | every calm action keeps the count equal to the outstanding tokens |
| Leases.SafeIffCalm | packages/client/src/client.ts:321-328 | after an action every calm continuation keeps the count right if and only if the action is calm |
| Leases.LeaseSafety | packages/client/src/client.ts:209-400 | after calm runs: count equals reservations plus live leases; an exclusive token is alone; a shared reservation is granted if and only if no outstanding token is exclusive, an exclusive one if and only if nothing is outstanding; a usable release sends detach if and only if its active lease is the sole outstanding token |
| Leases.ReleaseStep | packages/client/src/client.ts:231-253 | a usable active lease is released at once, or waits for its detach request if it is the only one outstanding; a stale one finds out; others stay |
| Leases.DetachStep | packages/client/src/client.ts:238-266 | after a detach request: released, invalidated, given up with a clean-up to be done, or active again |
| Leases.RequestStep | packages/client/src/client.ts:238-328 | a detach request is on its way until its response or the disconnection, and its release goes on once |
| Leases.TokensStay | packages/client/src/client.ts:381-412 | a step changes no token but its own; a reservation adds one of the kind asked for; an invalidation starts a new generation |
| Leases.ReservationStep | packages/client/src/client.ts:209-211 | a lease begins active and of the generation of its creation |
| Leases.LostReservation | packages/client/src/client.ts:231-267 | a disconnection after a detach request succeeded ends with an exclusive reservation beside another |
| Leases.UncountedLease | packages/client/src/client.ts:209-211 | a run in which an uncounted lease stands beside an exclusive one |
| Leases.LeaseTable.ReserveSessionLease | packages/client/src/client.ts:381-393 | refines reserving, refused exactly on a conflict |
| Leases.LeaseTable.ReleaseSessionLease | packages/client/src/client.ts:395-400 | refines giving back, other sessions untouched |
| Leases.LeaseTable.CreateSessionLease | packages/client/src/client.ts:209-211 | the lease takes the generation of its creation |
| Leases.LeaseTable.Release | packages/client/src/client.ts:231-253 | refines a release up to its first await, detach exactly for a count of at most one |
| Leases.LeaseTable.DetachAnswered | packages/client/src/client.ts:300-318 | the response moves the release to the ones about to go on |
| Leases.LeaseTable.ReleaseResumes | packages/client/src/client.ts:238-252 | refines giving the token back after the detach request succeeded |
| Leases.LeaseTable.ReleaseRecovers | packages/client/src/client.ts:254-266 | refines the three ways a failed detach request ends |
| Leases.LeaseTable.InvalidateSessionLeases | packages/client/src/client.ts:402-407 | refines the invalidation of one session |
| Leases.LeaseTable.InvalidateAllSessionLeases | packages/client/src/client.ts:409-412 | invalidates exactly the counted sessions, in any order |
| Leases.LeaseTable.HandleDisconnected | packages/client/src/client.ts:321-328 | refines the disconnection for every session |
| Snapshots.NextKeeps | packages/server/src/snapshots.ts:34-61 | every step keeps the current revision sent, about to follow the handshake, or being broadcast to each ready connection |
| Snapshots.SnapshotConverges | packages/server/src/snapshots.ts:34-61 | whenever nothing is pending, a ready connection was sent the current revision and a client that received its frames holds exactly it |
| Snapshots.HeldIsMonotone | packages/client/src/state.ts:100-104 | over every run the revision a client holds only grows |
| Snapshots.RevisionCounts | packages/server/src/snapshots.ts:50-55 | over every run the revision is the number of broadcasts begun while the server was open and a connection ready |
| Snapshots.BroadcastReachesReady | packages/server/src/snapshots.ts:50-60 | a broadcast goes to every connection ready when it begins, and to each once |
| Snapshots.ConnectionStep | packages/server/src/server.ts:230-249 | when a connection becomes ready, and which snapshots it is sent |
| Snapshots.ServerSnapshotPublisher.PerformBroadcast | packages/server/src/snapshots.ts:50-55 | refines the start of a broadcast |
| Snapshots.ClientState.ApplyServerSnapshot | packages/client/src/state.ts:100-104 | an older snapshot is ignored |
| Snapshots.ClientState.ApplyAll | packages/client/src/state.ts:100-104 | snapshots in any order leave the highest |
| ConnectionLifecycle.Connection.Listener | packages/client/src/connection.ts:80-80 | a listener may call back to any depth and keeps what the interrupted method relies on |
| ConnectionLifecycle.Connection.Connect | packages/client/src/connection.ts:66-90 | a new attempt, or a refusal that changes nothing |
| ConnectionLifecycle.Connection.Disconnect | packages/client/src/connection.ts:92-95 | ends the attempt under way |
| ConnectionLifecycle.Connection.SendFails | packages/client/src/connection.ts:101-117 | ends the attempt only if the transport is still the current one |
| ConnectionLifecycle.Connection.TransportArrives | packages/client/src/connection.ts:119-140 | a transport becomes current, or is closed when its attempt is over |
| ConnectionLifecycle.Connection.FactoryFails | packages/client/src/connection.ts:119-126 | the attempt is over |
| ConnectionLifecycle.Connection.HandleData | packages/client/src/connection.ts:142-160 | data of another attempt is ignored; malformed or early data ends the attempt; undisturbed, the messages are handled one after the other |
| ConnectionLifecycle.Connection.HandleMessage | packages/client/src/connection.ts:162-204 | the promise resolves once after both callbacks, or the attempt is over; whatever listeners do, only a hello connects |
| ConnectionLifecycle.Connection.HandleHello | packages/client/src/connection.ts:176-199 | the attempt is over, or connected with its promise resolved |
| ConnectionLifecycle.SurvivesIff | packages/client/src/connection.ts:155-204 | undisturbed, a connection survives exactly a hello followed by nothing but other messages |
| ConnectionLifecycle.Connection.HandleClose | packages/client/src/connection.ts:206-216 | the attempt is over and its transport reported |
| ConnectionLifecycle.Connection.FailAndClose | packages/client/src/connection.ts:218-223 | the attempt is over and its transport closed, even if the listener reconnects |
| ConnectionLifecycle.Connection.Fail | packages/client/src/connection.ts:225-231 | the promise is rejected unless it settled before |
| ConnectionLifecycle.Drive | packages/client/src/connection.ts:66-235 | whatever arrives and whatever listeners do: each promise settles at most once, exactly once when its attempt is over, and is resolved only if the server greeted it; every transport is current, closed or reported |
| Layout.IntersectMeets | packages/tui/src/layout.ts:54-60 | the intersection covers exactly the common points |
| Layout.UpdateClipsOk | packages/tui/src/layout.ts:95-98 | re-clipping any tree makes every clip exact |
| Layout.LayoutComponent | packages/tui/src/layout.ts:100-241 | the imperative layout computes the layout function |
| Layout.LayoutEntries | packages/tui/src/layout.ts:179-238 | a stack's loop places every entry after those before it |
| Layout.BoxStarts | packages/tui/src/layout.ts:109-160 | a box starts where it is put, a whole number of columns wide, and scrolls if its component does |
| Layout.GivenHeight | packages/tui/src/layout.ts:113-204 | a given height is taken, cut to whole lines but in a row, and none when negative |
| Layout.NaturalHeights | packages/tui/src/layout.ts:113-204 | left to itself a leaf is as high as its lines, a view as its content, a column ends where its last entry ends, a row is as high as its highest entry |
| Layout.ColumnFollows | packages/tui/src/layout.ts:181-190 | entries of a column follow one another at the distance of size and gap, each as wide as the column |
| Layout.RowFollows | packages/tui/src/layout.ts:213-239 | entries of a row follow one another at the distance of width and gap |
| Layout.RowAligns | packages/tui/src/layout.ts:215-221 | a row's entry lies at its top, middle or bottom, or stretches over it |
| Layout.LayoutClips | packages/tui/src/layout.ts:100-241 | for every tree and any sizes, each clip is exactly the part of its rectangle inside its parent's clip |
| Layout.LayoutMoves | packages/tui/src/layout.ts:90-93 | laying out further down moves all boxes and changes nothing else |
| Layout.ScrolledContent | packages/tui/src/layout.ts:127-162 | content laid out at the old offset, moved and re-clipped is where a layout at the new offset puts it |
| Layout.PruningIsExact | packages/tui/src/layout.ts:400-410 | with exact clips the pruned search finds what the exhaustive one finds |
| Layout.HitTestIsExact | packages/tui/src/layout.ts:353-410 | so it does on every frame |
| Layout.DeepestFirstDescends | packages/tui/src/layout.ts:408-408 | the sort is by descending depth |
| Layout.DeepestFirstPermutes | packages/tui/src/layout.ts:408-408 | and neither loses nor adds a hit |
| Layout.DeepestFirstIsStable | packages/tui/src/layout.ts:408-408 | and keeps the order of hits of the same depth |
| Layout.Collect | packages/tui/src/layout.ts:402-406 | the recursive visit pushes exactly the pruned search |
| Layout.GetScrollViewsAt | packages/tui/src/layout.ts:400-410 | exactly the scroll views whose own clip contains the point, deepest first |
| Latex.LatexParser.Render | packages/tui/src/latex.ts:811-817 | ends; a result means the whole source was read and supported; a source of ordinary characters is itself |
| Latex.LatexParser.ParseSequence | packages/tui/src/latex.ts:819-905 | ends, moves on, and its markers name nodes of the table |
| Latex.LatexParser.TakeCharacter | packages/tui/src/latex.ts:863-899 | one character, a full stop after a matrix going into the matrix |
| Latex.LatexParser.ParseScript | packages/tui/src/latex.ts:852-861 | an ordinary character after the mark is attached as a superscript or a subscript, as the mark says |
| Latex.LatexParser.ParseCommand | packages/tui/src/latex.ts:914-1079 | ends past its backslash, with every branch keeping the table grounded |
| Latex.LatexParser.ParseFraction | packages/tui/src/latex.ts:993-1008 | a stacked fraction's markers name earlier nodes; of two ordinary characters the first is the numerator and the second the denominator |
| Latex.LatexParser.ParseOperator | packages/tui/src/latex.ts:1081-1137 | limits are stacked only in display mode |
| Latex.LatexParser.ReadScripts | packages/tui/src/latex.ts:1099-1126 | a lower limit only after a subscript mark, an upper one only after a superscript mark |
| Latex.LatexParser.ParseRequiredArgument | packages/tui/src/latex.ts:1139-1165 | restores the stacking flag; an ordinary character is itself the argument, and a missing one is not supported |
| Latex.LatexParser.ParseOptionalArgument | packages/tui/src/latex.ts:1167-1182 | a nested parser over a shorter part |
| Latex.LatexParser.ReadRawGroup | packages/tui/src/latex.ts:1184-1212 | ends, also past the end of the source |
| Latex.LatexParser.ParseEnvironment | packages/tui/src/latex.ts:1218-1289 | nested parsers over parts of the body, which is shorter than the source |
| Latex.LatexParser.RenderMatrix | packages/tui/src/latex.ts:1291-1334 | a node for several rows, inline text otherwise |
| Latex.LatexParser.RenderNested | packages/tui/src/latex.ts:1336-1343 | shares the table; an unsupported part makes the whole unsupported |
| Latex.JoinPairs | packages/tui/src/latex.ts:1253-1257 | cells joined in pairs are shorter than the row they come from |
| Latex.SplitRejoins | packages/tui/src/latex.ts:1253-1257 | splitting at a separator loses nothing, and no part holds one |
| Latex.JoinKeepsEveryLine | packages/tui/src/latex.ts:684-707 | every line of every part falls in a row, and baselines coincide |
| Latex.SegmentKeepsVisible | packages/tui/src/latex.ts:723-735 | trimming the text between nodes loses and adds nothing visible |
| Latex.FractionStacks | packages/tui/src/latex.ts:735-748 | a fraction shows the lines of its numerator, its rule on the baseline, then the lines of its denominator |
| Latex.LimitsStack | packages/tui/src/latex.ts:749-767 | an operator shows its upper limit above and its lower limit below it, itself on the baseline |
| Latex.MatrixStacks | packages/tui/src/latex.ts:768-774 | a matrix shows its rows one below the other, the first on the baseline |
| Latex.RenderLayout | packages/tui/src/latex.ts:709-795 | ends because fractions refer to earlier nodes only, with the baseline one of its lines |
| Latex.RenderLatex | packages/tui/src/latex.ts:1355-1374 | for every source the table is grounded, the text's markers name its nodes, and inline math never stacks |

## Left out

- CBOR and the message schemas: an abstract partial decode function stands for both.
- Byte chunks handed to a decoder are values; aliasing of a chunk with the caller's buffer is not modelled.
- Object graphs of `ValueGraph.dfy` are finite maps from references to objects; getters and proxies do not occur.
- The objects of `Sessions.dfy` and `Catalog.dfy` (live sessions, refreshes, publications) are entries of tables the manager owns, not separate heap objects.
- Sessions: the service yields a fresh runtime for each acquisition, and snapshots and events sent to clients carry no content.
- Catalog: abort listeners that call back into the collection while a refresh is superseded, and other writers of the same store, do not occur.
- Catalog: a settled store operation has no later effect; credentials, fetching and the errors of a refresh are not modelled.
- Agent runs: callbacks and listeners do not throw, so the failure message of a thrown error is not modelled; timestamps, usage accounting and streaming deltas have no content; queues are not cleared and their modes do not change during a run.
- Agent runs: liveness. A script of turns is finite, and a run that outlasts it is still under way.
- AgentTools.Prepare: whether a tool exists, its arguments are valid and what its hooks do are given by an arbitrary script for each call.
- AgentLoop.StreamReply: assumes a stream with at most one start event.
- Requests held back during the handshake may be executed after requests that arrive once the connection is ready; no order is claimed.
- Leases.LeaseTable.CreateSessionLease: the attach, reconcile and cleanup requests of an acquire are steps without effect on the counts.
- Snapshots.SnapshotConverges: service calls and sends succeed; the content of a snapshot and the session snapshots of the client are not modelled.
- ConnectionLifecycle.Connection.Listener: a listener calls connect, disconnect and send; a transport that delivers data synchronously from inside such a call is not modelled.
- ConnectionLifecycle.Connection.HandleMessage: only the handshake callback may throw; a state-change callback that throws while a connection fails would keep its transport from being closed, but the client catches what its listeners throw (`packages/client/src/client.ts:414-430`).
- Layout.LayoutBox: boxes are values, so `translateBox` and `updateClips` return new trees instead of updating boxes in place; parent links, caches, painting and scrollbars are left out, and measured sizes are arbitrary; a leaf's lines and the line it scrolls to for a cursor have no content.
- Latex.LatexParser.ParseCommand: the tables of symbols and the formatting of text are arbitrary functions that make up no markers, and a marker is one token; a source that itself contains the private marker characters is excluded by this.
- Latex.LatexParser.ParseSequence: what text a source renders to is stated for ordinary characters, scripts, fractions and arguments that are such; for other commands only what their markers name.
- Latex.RenderLayout: the layout functions are values without loops.
- Model selection and thinking levels, key handling, the kill ring, undo, key bindings and telemetry are not modelled.
- Transports, listeners, timers, the command line, providers and the update scripts are input and output plumbing.
