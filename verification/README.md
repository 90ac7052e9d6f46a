# Verified models of the CLI's protocols

This project models the stateful cores of the kvy CLI and proves what they keep over every run. Code between
two awaits is one atomic step; timers, network replies, crashes and callbacks are events that may come in any
order their enabling conditions allow. Each component has

- a specification: datatypes and functions that give the state after one event, and runs over event sequences;
- a class, where the program updates an object in place: its fields are the program's fields, and every method's
  new state equals the specification's (`ensures St() == Step(old(St()), ...)`), loops included. The table lists
  the methods that loop, recurse or choose between others; the rest carry the same form of contract;
- lemmas about all runs of the specification, which therefore hold of the class.

| area | files |
|---|---|
| envelopes and the trace monitor both mappers are held to | `Wire`, `Scopes` |
| Claude transcript mapper | `ClaudeMapper`, `ClaudeTelling`, `ClaudeContent`, `ClaudeConservation`, `ClaudeTraces`, `ClaudeOrder`, `ClaudeReuse`, `ClaudeMapperObject` |
| ACP mapper and its driver | `AcpMapper`, `AcpTraces`, `AcpTools`, `AcpCalls`, `AcpStream`, `AcpChunks`, `AcpDriver`, `AcpMapperObject` |
| permission pipelines | `Requests`, `PermissionBridge`, `BridgeRuns`, `BridgeAnswers`, `BridgeObject`, `AcpPermissions`, `AcpAnswers` |
| durable outbox | `Outbox`, `OutboxDelivery`, `OutboxOrder`, `OutboxFile`, `OutboxObject` |
| terminal injection gate and busy signal | `Lines`, `FetchSignal`, `Injection`, `InjectionHistory`, `PtySession`, `InjectionObject` |
| shared stores | `MetadataCas`, `MetadataObject`, `Claims`, `TokenRotation`, `Scanner`, `ScannerRuns`, `ScannerRequests`, `ScannerObject` |
| base64 | `Base64`, `Base64Codec` |
| helpers | `Wrappers`, `Subsequences` |

Ids the program draws at random are a fresh-name supply of naturals. Parsed JSON is a datatype; sealing is an
invertible function, so a sealed value stands for its content. History fields (`seen`, `mapped`, `sealed`,
`accepted`, `sent`, `own`, `log`, ...) record what happened and are read only by specifications.

## Where the code falls short of its comments

The model follows the code. Each of these has a lemma with an input that shows it, and one that says exactly
which inputs or steps are at fault:

- A 409 whose current value is null or unreadable moves the metadata writer's version but not its value, so the
  next commit overwrites what it never read: `MetadataCas.MissingIsOverwritten`; exactly these replies,
  `MetadataCas.StepCoherent`.
- Evicting the batch in flight makes its ack drop another batch: `OutboxOrder.AckLosesQueuedBatch`; exactly when
  the acked batch is no longer queued, `OutboxOrder.AckDropsOther`.
- After a restart a late request may be overtaken: `OutboxOrder.LateRequestOvertakes`; exactly at restarts at which
  the batch posted last is neither stored nor at the head of the file, `OutboxOrder.StepOrdered`, and each of those
  can end out of order, `OutboxOrder.OvertakingBreaksOrder`.
- A failed save of a rotated refresh token does not only cost the next process start: the same process adopts the
  stale token from disk at its next refresh: `TokenRotation.FailedSaveMayKill`; exactly when the disk holds no other
  live token, `TokenRotation.StepInStep`.
- A prompt sent between the ACP drain leaving its loop and its flag being cleared stays queued with no drain:
  `AcpDriver.LateSendStrands`; exactly those sends, `AcpDriver.ReactAwake`.
- An unflagged prompt that waits for its call closes the turn under the message that releases it:
  `ClaudeTraces.WaitingPromptBreaksIn`; exactly the lines that leave the mapper able to go wrong,
  `ClaudeTraces.LineKeepsReady`.
- A uuid used under two calls can move a message past a later one: `ClaudeReuse.ReusedUuidReorders`; exactly the
  lines that untie a waiting message from its call, `ClaudeOrder.TakenSteady`.
- An option offered under the id of an earlier option of the opposite sort is recorded with the wrong status:
  `AcpPermissions.SharedIdMisrecords`; exactly then, `AcpPermissions.StatusMatchesAnswer`.
- A hook's announcement is to give a dropped session another chance, but the current session gets none:
  `ScannerRequests.DroppedIsNotRevived`; exactly it and finished sessions no longer watched,
  `ScannerRequests.AnnouncedIsScanned`.

## Model

| member | source | states |
|---|---|---|
| `Scopes.EndTurnTraced` | packages/cli/src/claude/envelopeMapper.ts:489-522 | ending a turn stops every running subagent once, then closes the turn, and keeps the trace well formed |
| `ClaudeConservation.EveryMessageAccountedFor` | packages/cli/src/claude/envelopeMapper.ts:432-451 | on every run the lines read are, as a multiset, the mapped ones plus those a turn close discarded plus those waiting; a waiting message's parent call has not been minted |
| `ClaudeConservation.TurnsAlternate` | packages/cli/src/claude/envelopeMapper.ts:455-522 | on every run turn-start and turn-end strictly alternate and an end carries its start's id |
| `ClaudeTraces.CleanTraceIsWellFormed` | packages/cli/src/claude/envelopeMapper.ts:539-812 | the mapper is ready (trace accepted, nothing harmful waiting) at every point of a run exactly when no line of it breaks in; then each turn-scoped envelope carries the open turn's id, and each subagent starts at most once per turn, before its text and tool starts, and is stopped exactly once before the turn's end |
| `ClaudeTraces.LineKeepsReady` | packages/cli/src/claude/envelopeMapper.ts:539-812 | one line keeps the mapper ready exactly when it does not break in; it breaks in when it is not flagged as a sidechain and either belongs to a call not seen yet and is a prompt or tool results with text, or belongs to a subagent that has not started and is tool results with text |
| `ClaudeTraces.WaitingPromptBreaksIn` | packages/cli/src/claude/envelopeMapper.ts:604-704 | from every ready state, every prompt left waiting for a call it names spoils the trace when the call comes: the turn is closed under the message that releases it, which goes on writing into it |
| `ClaudeOrder.NamedKeepArrivalOrder` | packages/cli/src/claude/envelopeMapper.ts:432-451 | on every run, without any condition, the messages that name a call as their parent are mapped in the order they arrived, those still waiting after them |
| `ClaudeOrder.FoundKeepArrivalOrder` | packages/cli/src/claude/envelopeMapper.ts:396-451 | so are the messages found to belong to a call by any of the four rules, parent uuid included, on runs in which nothing harmful waits and no uuid is taken over from a message waiting for another call |
| `ClaudeOrder.TakenSteady` | packages/cli/src/claude/envelopeMapper.ts:422-442 | that condition on one line is exact: taking the line in leaves every waiting message harmless and with its call if and only if the line meets it |
| `ClaudeReuse.ReusedUuidReorders` | packages/cli/src/claude/envelopeMapper.ts:396-451 | for every five lines of a given shape: a uuid used under two calls makes an heir of the first use come after the second use, under the second call |
| `ClaudeContent.EveryPartTold` | packages/cli/src/claude/envelopeMapper.ts:539-812 | on every run the log is, envelope by envelope, what one telling of the messages renders to: every block, usage report, prompt and note of every mapped message exactly once and in order, with its text, card, outcome or image, in the turn the message joined and under the subagent of its call; subagents start and stop, turns open and end where that telling says; a message is interrupted only after one of its tool calls, by whole messages; in between, the messages that have to wait are taken in, exactly those whose parent's call was not made yet in the turn; calls and subagents have one id each until the turn ends |
| `ClaudeContent.ResolveAgrees` | packages/cli/src/claude/envelopeMapper.ts:374-430 | the parent found for a message is the call it names, else that of the last message with its parent uuid, else for a sidechain the oldest unclaimed task with its text as prompt, else for a root the oldest when one prompt is left; all judged from what was told since the last turn end |
| `ClaudeMapperObject.Mapper.EmitAllSubStops` | packages/cli/src/claude/envelopeMapper.ts:489-499 | the loop stops every running subagent, in the order they started |
| `ClaudeMapperObject.Mapper.TakeOnlyTask` | packages/cli/src/claude/envelopeMapper.ts:374-394 | a sidechain root without a matching prompt takes the only waiting Task, and none when there are several |
| `ClaudeMapperObject.Mapper.Map` | packages/cli/src/claude/envelopeMapper.ts:539-552 | a message whose parent call is unknown is buffered, any other is mapped; equal to the terminating specification recursion |
| `ClaudeMapperObject.Mapper.MapAssistantBlocks` | packages/cli/src/claude/envelopeMapper.ts:570-645 | the block loop of an assistant message, replays included |
| `ClaudeMapperObject.Mapper.MapToolUse` | packages/cli/src/claude/envelopeMapper.ts:593-644 | a tool call gets a subagent identity, is announced, and releases the messages waiting for it |
| `ClaudeMapperObject.Mapper.ReplayAll` | packages/cli/src/claude/envelopeMapper.ts:615-617 | the detached messages go through the mapper again, in arrival order |
| `ClaudeMapperObject.Mapper.PushResults` | packages/cli/src/claude/envelopeMapper.ts:732-806 | the loop over tool results, text and images |
| `AcpTraces.StepTidy` | packages/cli/src/acp/acpToEnvelope.ts:325-387 | every mapper step keeps the trace well formed, with buffered text and starts belonging to the open turn, when turns are not begun inside turns |
| `AcpTraces.CloseTurnTidy` | packages/cli/src/acp/acpToEnvelope.ts:373-387 | closing a turn flushes, stops and ends in a well-formed order and leaves no turn open |
| `AcpTools.CallsConserved` | packages/cli/src/acp/acpToEnvelope.ts:124-152 | if each call is announced once per turn: starts shown plus starts held are exactly the calls announced, each once; once no turn is open all have been shown |
| `AcpTools.CloseTurnLedger` | packages/cli/src/acp/acpToEnvelope.ts:373-387 | at the end of a turn every call announced in it has exactly one tool-start |
| `AcpTools.FinishCallLedger` | packages/cli/src/acp/acpToEnvelope.ts:536-601 | a terminal update writes its tool-end last, after the start of the same call |
| `AcpTools.TextComesFirst` | packages/cli/src/acp/acpToEnvelope.ts:480-601 | whenever a tool notification writes anything, the text received before it is written first and none of it stays behind |
| `AcpCalls.EveryStartTellsItsStory` | packages/cli/src/acp/acpToEnvelope.ts:480-601 | at any point of any run the tool starts, tool ends and plans the next input writes are exactly those the notifications call for: a start carries the last arguments brought since its call was announced, the latest title, the first known risk and the best name, in the scope it was announced in, and goes out with the notification that brings arguments or ends the call, or with the turn; an end carries its own update's outcome and output |
| `AcpCalls.HeldUntilComplete` | packages/cli/src/acp/acpToEnvelope.ts:124-152 | a start is held exactly for the calls announced in the open turn of which nothing said since has brought arguments or an end |
| `AcpCalls.FinishedCallStops` | packages/cli/src/acp/acpToEnvelope.ts:578-583 | when a call is over, the subagent it spawned is not left running |
| `AcpStream.FlushesAreInvisible` | packages/cli/src/acp/acpToEnvelope.ts:175-184 | two input sequences that differ only in calls of flushAcpText give the same stream of characters, tool and bracket envelopes, the same sequence of plans, and the same mapper state |
| `AcpStream.CoalescingRefinesEager` | packages/cli/src/acp/acpToEnvelope.ts:403-444 | the coalescing mapper gives the stream, and the plans, of the mapper that writes one envelope per chunk |
| `AcpStream.EagerChunk` | packages/cli/src/acp/acpToEnvelope.ts:159-173 | that mapper writes exactly one text envelope for a non-empty message or thought chunk, in the scope the chunk resolves to and after its start |
| `AcpStream.StepLater` | packages/cli/src/acp/acpToEnvelope.ts:626-650 | what a step writes does not depend on what was written before |
| `AcpChunks.EveryCharacterOnce` | packages/cli/src/acp/acpToEnvelope.ts:159-184 | text written plus the open run is, character by character with turn, subagent and thinking flag, exactly what was delivered inside turns, turn brackets included |
| `AcpChunks.SplittingIsInvisible` | packages/cli/src/acp/acpToEnvelope.ts:403-444 | cutting a chunk into pieces with the same key changes no envelope on any continuation |
| `AcpDriver.DriverTraceIsWellFormed` | packages/cli/src/acp/acpRemote.ts:266-318 | on every run of sends, updates, prompt results, adapter errors and stop: the trace is well formed, turn brackets alternate under equal ids, each prompt opens one turn, prompts go out in order, a turn is open only under a prompt |
| `AcpDriver.TurnEndsTell` | packages/cli/src/acp/acpRemote.ts:282-306 | at any point of any run the next event ends the open turn, or leaves it open, with the status its prompt's end calls for: completed, cancelled or failed by the stop reason, failed for a rejected prompt or a failing adapter, cancelled after a stop |
| `AcpDriver.StopLeavesNothingOpen` | packages/cli/src/acp/acpRemote.ts:333-361 | after a stop has completed no turn is open and every started subagent was stopped exactly once |
| `AcpDriver.ReactAwake` | packages/cli/src/acp/acpRemote.ts:266-272 | one event loses the drain's wakeup exactly when it is a send after the drain left its loop and before the flag is cleared |
| `AcpDriver.NeverStrandedWithoutLateSend` | packages/cli/src/acp/acpRemote.ts:274-306 | without such a send no prompt is ever left waiting in a live session with no drain |
| `AcpDriver.GapIsReached` | packages/cli/src/acp/acpRemote.ts:274-306 | concrete run from launch, for any first prompt and stop reason, into that gap |
| `AcpDriver.LateSendStrands` | packages/cli/src/acp/acpRemote.ts:266-272 | such a send leaves its prompt stranded |
| `AcpMapperObject.Mapper.EmitActiveSubStops` | packages/cli/src/acp/acpToEnvelope.ts:351-361 | the loop stops every running subagent |
| `AcpMapperObject.Mapper.FlushPendingStarts` | packages/cli/src/acp/acpToEnvelope.ts:148-152 | the loop writes every held start in arrival order |
| `AcpMapperObject.Mapper.CloseWithStatus` | packages/cli/src/acp/acpToEnvelope.ts:373-387 | text, held starts, stops, end, then the state is cleared; nothing without a turn |
| `AcpMapperObject.Mapper.HandleTextChunk` | packages/cli/src/acp/acpToEnvelope.ts:403-444 | append to the run with the same key, else flush it and open a new one |
| `AcpMapperObject.Mapper.HandleCallUpdate` | packages/cli/src/acp/acpToEnvelope.ts:536-601 | refinements update a held start, a terminal update ends the call |
| `AcpMapperObject.Mapper.Map` | packages/cli/src/acp/acpToEnvelope.ts:626-645 | dispatch on the update kind |
| `AcpMapperObject.JoinParts` | packages/cli/src/acp/acpToEnvelope.ts:159-164 | the loop concatenates the parts of a run |
| `AcpMapperObject.Session.AdvanceDrain` | packages/cli/src/acp/acpRemote.ts:282-287 | the next prompt opens a turn, or the drain leaves its loop |
| `AcpMapperObject.Session.OnError` | packages/cli/src/acp/acpRemote.ts:185-197 | an adapter error closes the open turn and is shown, unless stopped |
| `AcpPermissions.EveryRequestAnsweredOnce` | packages/cli/src/acp/acpPermissionHandler.ts:128-241 | however answers, aborts and resets race: pending requests are the open ones with their abort listeners armed, each id is answered to the agent once, shown once and resolved on the wire once |
| `AcpPermissions.ResetAnswersAll` | packages/cli/src/acp/acpPermissionHandler.ts:235-241 | a reset leaves nothing pending and every request answered |
| `AcpAnswers.EveryAnswerFits` | packages/cli/src/acp/acpPermissionHandler.ts:207-241 | at any point of any run, what the next event sends the agent and the web and what it records follow from that event and the agent's own offers: a decision is answered by an offered option, allowing exactly when it does not deny, and by a cancellation exactly when none of that sort was offered; aborts and resets cancel; the status is denied exactly when what was sent refuses |
| `AcpAnswers.DecisionSettles` | packages/cli/src/acp/acpPermissionHandler.ts:207-227 | a decision on a pending request always settles it, and a mode it switches to is passed on |
| `AcpPermissions.AnswerMeansDecision` | packages/cli/src/acp/acpPermissionHandler.ts:270-324 | the option picked for a decision: only an offered option is selected, allowing for allow and mode, rejecting for deny; cancelled exactly when none of that sort was offered |
| `AcpPermissions.StatusMatchesAnswer` | packages/cli/src/acp/acpPermissionHandler.ts:220-223 | the recorded status is approved exactly when an allowing option was selected, if and only if no option of the opposite sort was offered first under the selected id |
| `AcpPermissions.SharedIdMisrecords` | packages/cli/src/acp/acpPermissionHandler.ts:220-223 | concrete option list: the agent is sent an allowing option and the request is recorded as denied |
| `AcpPermissions.LateAnswer` | packages/cli/src/acp/acpPermissionHandler.ts:207-217 | a late answer changes nothing and reports the decision that won |
| `AcpPermissions.PermissionHandler.Resolve` | packages/cli/src/acp/acpPermissionHandler.ts:207-227 | first answer wins |
| `AcpPermissions.PermissionHandler.Reset` | packages/cli/src/acp/acpPermissionHandler.ts:235-241 | the loop cancels every pending request |
| `OutboxDelivery.ExactlyOnceInOrder` | packages/cli/src/api/outbox.ts:93-200 | if the cap evicts nothing, over every interleaving of flushes, lost or late requests, lost acks, crashes and restarts: the server log is a prefix of the sealed batches, sealed is acked plus the file, and the server is at most one batch ahead of the acks |
| `OutboxDelivery.StepFaithful` | packages/cli/src/api/outbox.ts:109-170 | one step keeps that invariant exactly when it evicts nothing |
| `OutboxDelivery.CanAlwaysDrain` | packages/cli/src/api/outbox.ts:155-200 | after every run that evicts nothing, an outbox that is up and not disposed has a continuation that delivers everything that was sealed |
| `OutboxDelivery.NothingLostBeforeSealing` | packages/cli/src/api/outbox.ts:98-152 | on every run, accepted envelopes not lost in a crash are the sealed batches' contents in order plus the buffer; a non-empty buffer has its timer, the queue mirrors the file, a live outbox with queued batches is draining |
| `OutboxDelivery.TrimKeepsLongestSuffix` | packages/cli/src/api/queue.ts:98-124 | the queue kept is the longest suffix ending in the new batch that fits the cap, or that batch alone |
| `OutboxDelivery.DisposedForGood` | packages/cli/src/api/outbox.ts:145-183 | a disposed outbox posts no further batch, whatever happens short of a restart |
| `OutboxOrder.NeverOutOfOrder` | packages/cli/src/api/outbox.ts:80-200 | on every run, evictions, crashes and restarts included, in which no restart overtakes, the server log is a duplicate-free, order-preserving subsequence of the sealed batches |
| `OutboxOrder.StepOrdered` | packages/cli/src/api/outbox.ts:80-200 | one step keeps that order exactly when it is no restart at which the batch posted last is neither stored nor at the head of the queue file |
| `OutboxOrder.OvertakingBreaksOrder` | packages/cli/src/api/outbox.ts:91-95 | after every restart that overtakes, some continuation within that lifetime leaves the server log out of order |
| `OutboxOrder.ResumedLifetimeInOrder` | packages/cli/src/api/outbox.ts:91-95 | a process that resumes whatever an eviction-free past left behind keeps the order, whatever it evicts itself |
| `OutboxOrder.AckDropsOther` | packages/cli/src/api/outbox.ts:159-166 | an ack removes the acked batch exactly when it is still queued; otherwise it drops a batch that was never sent |
| `OutboxOrder.EvictedInFlight` | packages/cli/src/api/queue.ts:108-113 | concrete run: a second batch evicts the first while it is in flight |
| `OutboxOrder.AckLosesQueuedBatch` | packages/cli/src/api/outbox.ts:159-166 | concrete run: after the batch in flight was evicted, its ack drops a batch that fits the cap and is never posted |
| `OutboxOrder.LateRequestOvertakes` | packages/cli/src/api/outbox.ts:91-95 | concrete run: after such an eviction and a restart, a late request lets the server store batches out of order |
| `OutboxFile.LoadReadsWhatWasPersisted` | packages/cli/src/api/queue.ts:51-90 | loading the persisted queue gives the queue back, for any newline-free encoding |
| `OutboxFile.CorruptLinesAreSkipped` | packages/cli/src/api/queue.ts:51-74 | every readable line of the file survives, in order, whatever the others hold |
| `OutboxFile.LoadQueue` | packages/cli/src/api/queue.ts:51-74 | the loop collects the readable lines of the split text |
| `OutboxObject.AppendWithCap` | packages/cli/src/api/queue.ts:98-124 | the eviction loop with its running total computes the trimmed queue and keeps the new batch last |
| `OutboxObject.Outbox.Flush` | packages/cli/src/api/outbox.ts:109-127 | the buffer becomes one batch, queued and persisted before the drain is kicked |
| `OutboxObject.Outbox.OnAck` | packages/cli/src/api/outbox.ts:159-166 | the queue loses its first entry and the loop goes on |
| `FetchSignal.ChunksDoNotMatter` | packages/cli/src/claude/ptyFetchSignal.ts:65-90 | however the bytes are split, the events are those of splitting the whole stream at newlines, and the carried buffer is what follows the last one |
| `FetchSignal.HandleConnectionData` | packages/cli/src/claude/ptyFetchSignal.ts:65-90 | the framing loop yields the events of the completed lines and the unfinished rest |
| `Injection.NoMissedWakeup` | packages/cli/src/claude/injectionController.ts:99-164 | after every event no message waits before an open gate; text and submit keys strictly alternate; what was typed and submitted are the first accepted messages |
| `InjectionHistory.TypesOnlyWhenOpen` | packages/cli/src/claude/injectionController.ts:202-225 | when an event makes the controller type, the events up to it say that it may: it was reported ready and not disposed, the last busy, draft and prompt reports are off or, for the prompt, the failsafe fired since, and no cooldown is running; the message before has been submitted, and what is typed is the next accepted one |
| `InjectionHistory.TypesAsSoonAsOpen` | packages/cli/src/claude/injectionController.ts:99-164 | when the events say so and nothing typed is still to be submitted, every accepted message has been typed |
| `InjectionHistory.RunRemembers` | packages/cli/src/claude/injectionController.ts:99-164 | on every run the gate's flags and the accepted messages are what the list of events says |
| `Injection.StepGated` | packages/cli/src/claude/injectionController.ts:99-191 | injecting, cooldown and an open prompt each keep an armed timer until dispose |
| `Injection.AcceptedInOrder` | packages/cli/src/claude/injectionController.ts:99-107 | until dispose: accepted messages are the injected ones, the one in flight and the queued ones, in that order |
| `Injection.EveryMessageReported` | packages/cli/src/claude/injectionController.ts:181-191 | after dispose and the last submit timer each accepted message was reported exactly once, as injected or as dropped |
| `Injection.TimersDrain` | packages/cli/src/claude/injectionController.ts:218-259 | once ready, idle and draft-free the timers alone empty the queue, within a bound computed from the state |
| `PtySession.BusyNeverSticks` | packages/cli/src/claude/ptyClaudeSession.ts:773-796 | on every run of a session a running fetch means busy, and busy means a running fetch or an armed idle timer, until dispose |
| `PtySession.QuietSessionDrains` | packages/cli/src/claude/ptyClaudeSession.ts:773-796 | after every run, once no fetch is running, the TUI is ready and nobody is typing, timer firings alone release the gate and empty the queue, within a bound computed from the state |
| `InjectionObject.InjectionController.Flush` | packages/cli/src/claude/injectionController.ts:218-248 | types the oldest message when the gate is open |
| `InjectionObject.BusySignal.OnFetchEvent` | packages/cli/src/claude/ptyClaudeSession.ts:782-795 | a start raises busy at once, the last end arms the idle timer |
| `BridgeRuns.RequestsConserved` | packages/cli/src/claude/pretoolPermissionBridge.ts:499-525 | on every run open requests are the disjoint union of the three stores and disjoint from the completed ones; timers are armed for exactly the blocked hooks; each request is shown once and resolved once, each blocked hook settles once, a local request is driven at most once and the wire was told the recorded decision |
| `BridgeAnswers.EverySettlementFits` | packages/cli/src/claude/pretoolPermissionBridge.ts:857-998 | at any point of any run, what the next event tells hooks, web and terminal and what it records follow from that event and the hooks' own calls: timeouts and resets deny, a web answer records its own decision and allows a permission hook exactly when it does not deny, a question's hook is always denied with the answer as reason, what was left to the terminal completes as the terminal says |
| `BridgeAnswers.AllowedOnlyByAnswer` | packages/cli/src/claude/pretoolPermissionBridge.ts:943-961 | a hook is told to go ahead only if the web answered that very request with something other than a deny |
| `BridgeAnswers.TimerSettles` | packages/cli/src/claude/pretoolPermissionBridge.ts:857-868 | a timeout always settles the hook it was armed for |
| `BridgeAnswers.OutcomeSettlesOldest` | packages/cli/src/claude/pretoolPermissionBridge.ts:986-998 | an outcome at the terminal completes the oldest prompt left to it for that tool |
| `BridgeRuns.ResetLeavesNothingOpen` | packages/cli/src/claude/pretoolPermissionBridge.ts:1007-1029 | a reset leaves no request open, no hook blocked, no timer armed |
| `BridgeRuns.FirstPermissionAnswerWins` | packages/cli/src/claude/pretoolPermissionBridge.ts:943-961 | the first answer to a blocked permission hook is recorded, told and settles the hook, allowing unless it denies |
| `BridgeRuns.FirstQuestionAnswerWins` | packages/cli/src/claude/pretoolPermissionBridge.ts:928-941 | the first answer to a blocked question does the same, and the hook is always denied, with the answer to that entry's own questions as reason |
| `BridgeRuns.LosingAnswerLearnsWinner` | packages/cli/src/claude/pretoolPermissionBridge.ts:963-969 | a later answer changes nothing and learns the winning decision |
| `BridgeRuns.LocalAnswers` | packages/cli/src/claude/pretoolPermissionBridge.ts:901-926 | a web answer to a terminal prompt never completes it and is typed in at most once |
| `BridgeRuns.OldestStore` | packages/cli/src/claude/pretoolPermissionBridge.ts:986-990 | a terminal outcome goes to the oldest open local entry of its tool |
| `BridgeObject.Bridge.Resolve` | packages/cli/src/claude/pretoolPermissionBridge.ts:901-970 | local entries first, then questions, permissions, completed ones |
| `BridgeObject.Bridge.ResolveLocalOutcome` | packages/cli/src/claude/pretoolPermissionBridge.ts:986-998 | the terminal's outcome completes the oldest entry of that tool |
| `BridgeObject.Bridge.Reset` | packages/cli/src/claude/pretoolPermissionBridge.ts:1007-1029 | the three loops cancel everything open |
| `MetadataCas.NoForeignUpdateLost` | packages/cli/src/api/sessionMetadata.ts:76-85 | on every run without a 409 whose value is null or unreadable, every commit is the patch applied to the normalized value it replaced: the new title or model is in place and was not before, the other one, unknown keys, path and provider session survive, a manual title is never overwritten |
| `MetadataCas.ConflictsAreCharged` | packages/cli/src/api/sessionMetadata.ts:128-166 | on every such run the cached version and value were stored together by the server, and the 409s of an update after its first are no more than the commits since then, none of which is its own |
| `MetadataCas.StepCoherent` | packages/cli/src/api/sessionMetadata.ts:148-162 | a step keeps the cached pair in the server's history exactly when it is not a 409 whose value is null or unreadable |
| `MetadataCas.ContendedIsReached` | packages/cli/src/api/sessionMetadata.ts:128-146 | concrete run from the start: an update waits for its answer when another writer stores a value |
| `MetadataCas.MissingIsOverwritten` | packages/cli/src/api/sessionMetadata.ts:155-162 | continuing it: after a 409 with a null value the writer commits a patch of metadata it no longer knows to be current |
| `MetadataCas.UnreadableIsOverwritten` | packages/cli/src/api/sessionMetadata.ts:155-162 | continuing it: an unreadable value makes one update throw and the next one overwrite it |
| `MetadataObject.Updater.Attempt` | packages/cli/src/api/sessionMetadata.ts:128-146 | the patch is recomputed on the cached value, or there is nothing to write |
| `MetadataObject.Updater.OnConflict` | packages/cli/src/api/sessionMetadata.ts:155-162 | the version is taken over first, the value only when readable |
| `Claims.AtMostOnce` | packages/cli/src/claims/claimStore.ts:250-310 | over any interleaving two successful claims of one envelope are separated by the first one's completion and a write more than seven days later |
| `Claims.PendingNeverExpires` | packages/cli/src/claims/claimStore.ts:141-154 | a pending claim survives every operation except a completion under its own claim id |
| `Claims.OutcomesFollowHistory` | packages/cli/src/claims/claimStore.ts:250-310 | over any interleaving every outcome is what the operations before it call for: a duplicate gets the result the last win was completed with, within 604800000 ms of it; in-progress means the last win was never completed; a completion is recorded exactly when it carries the id of such a win; a new win comes only after the old one was completed and expired |
| `Claims.RejectedIsInvisible` | packages/cli/src/claims/claimStore.ts:281-310 | a completion is refused exactly when its claim is not pending, and no later operation can tell that it was tried |
| `Claims.PruneExpired` | packages/cli/src/claims/claimStore.ts:145-154 | the loop drops exactly the completed entries past retention |
| `Claims.Store.ClaimMessageSend` | packages/cli/src/claims/claimStore.ts:250-272 | insert-or-report under the lock |
| `Claims.Store.CompleteMessageSend` | packages/cli/src/claims/claimStore.ts:281-310 | only the matching pending claim is completed |
| `Base64.RoundTrip` | packages/crypto/src/base64.ts:17-76 | decoding an encoding gives the bytes back, for every byte sequence and both variants |
| `Base64.NonAlphabetIgnored` | packages/crypto/src/base64.ts:67-68 | characters outside the alphabet may be inserted anywhere without changing the result |
| `Base64.WrongVariant` | packages/crypto/src/base64.ts:47-54 | url-safe text read as standard gives the bytes back exactly when it holds no '-' and no '_' |
| `Base64Codec.EncodeBase64` | packages/crypto/src/base64.ts:17-40 | the shift-and-mask loop computes the bit-stream encoding of sections 4 and 5 of RFC 4648 |
| `Base64Codec.DecodeBase64` | packages/crypto/src/base64.ts:55-76 | the loop with its unmasked 32-bit accumulator computes the octets of the bit stream |
| `Base64Codec.Pushed` | packages/crypto/src/base64.ts:68-69 | a wrap at 32 bits changes only what lies above the pending bits |
| `TokenRotation.NobodyGoesDead` | packages/cli/src/auth/tokenProvider.ts:63-169 | for any number of processes under the lock and logins at any time, if no rotation is lost and the token file not cleared: no superseded token is presented, nobody goes dead, and the disk holds a live token whenever the lock is free |
| `TokenRotation.StepInStep` | packages/cli/src/auth/tokenProvider.ts:127-146 | a step keeps disk and server in step exactly when it does not lose a rotation while the disk holds no other live token, and does not clear the file unless a rotation is under way |
| `TokenRotation.OnlyRefusalKills` | packages/cli/src/auth/tokenProvider.ts:87-131 | a process goes dead exactly when its second request is refused, or its first with no other token on disk; an echo leaves it alive with the token it presented |
| `TokenRotation.LoginRecovers` | packages/cli/src/auth/tokenProvider.ts:70-78 | whatever was lost on the run so far, after a login while the lock is free every process still alive stays alive and presents live tokens only, for as long as nothing more is lost |
| `TokenRotation.RetryRecovers` | packages/cli/src/auth/tokenProvider.ts:87-101 | so it is after a first request is refused while a live token it did not present is on disk: the retry presents that token, and the process survives |
| `TokenRotation.AtMostTwoRequests` | packages/cli/src/auth/tokenProvider.ts:87-101 | on every run no attempt makes more than two requests, whatever is lost |
| `TokenRotation.FailedSaveMayKill` | packages/cli/src/auth/tokenProvider.ts:133-146 | concrete run: after a failed save the process discards its own newer token for the stale one on disk and may be refused for good |
| `TokenRotation.LateLoginRescues` | packages/cli/src/auth/tokenProvider.ts:87-101 | concrete run: the same with a login before the refusal, and the second request is rotated |
| `TokenRotation.TokenProvider.DoRefresh` | packages/cli/src/auth/tokenProvider.ts:63-85 | adopts the disk's token before presenting one |
| `TokenRotation.TokenProvider.OnResponse` | packages/cli/src/auth/tokenProvider.ts:87-147 | one retry with a different disk token, dead otherwise; a rotation is saved, an echo is not |
| `ScannerRuns.StepSingle` | packages/cli/src/claude/scanner.ts:403-451 | no event makes sync passes overlap, the initial and the final pass included |
| `ScannerRuns.EmitsOnceInOrder` | packages/cli/src/claude/scanner.ts:355-362 | no key is emitted twice or after being marked as known, every processed key was emitted or marked, and each file's entries go out in file order |
| `ScannerRuns.FlushLeavesNothingUnread` | packages/cli/src/claude/scanner.ts:437-451 | when a flush returns on a live scanner, every entry then on disk of every session then tracked and not dropped since was emitted or marked |
| `ScannerRequests.RequestsAreServed` | packages/cli/src/claude/scanner.ts:420-451 | once a pass is asked for, by a poll, a watcher, a flush or an adopted session, every session then tracked stays tracked as long as its watcher does not give up and nobody cleans up, and whenever the scanner is idle all it had on disk then has been processed |
| `ScannerRequests.AnnouncedIsCurrent` | packages/cli/src/claude/scanner.ts:464-497 | an announced session that is neither current, pending nor finished becomes the current one, at once or after its entries were marked; the session it supersedes is still scanned; any other announcement at most revives it |
| `ScannerRequests.KnownIsCurrent` | packages/cli/src/claude/scanner.ts:491-497 | when the entries of such a session have been read they count as processed, none is emitted, and the session becomes the current one |
| `ScannerRequests.AnnouncedIsScanned` | packages/cli/src/claude/scanner.ts:464-497 | exactly when an announced session is scanned afterwards |
| `ScannerRequests.DroppedIsNotRevived` | packages/cli/src/claude/scanner.ts:469-478 | concrete run: a hook announces once more the current session, whose file never appeared, and it stays dropped |
| `ScannerObject.SessionScanner.EmitEntries` | packages/cli/src/claude/scanner.ts:357-361 | the loop emits the entries not processed before |
| `ScannerObject.SessionScanner.CollectSessions` | packages/cli/src/claude/scanner.ts:340-353 | pending, current and watched sessions, minus dead ones |
| `ScannerObject.SessionScanner.FinishPending` | packages/cli/src/claude/scanner.ts:364-369 | scanned pending sessions are finished |
| `ScannerObject.SessionScanner.StartWatchers` | packages/cli/src/claude/scanner.ts:371-400 | every scanned, living session gets one watcher |
| `ScannerObject.SessionScanner.OnSyncEnds` | packages/cli/src/claude/scanner.ts:364-400 | bookkeeping after the reads; the initial and the final pass end here |
| `ScannerObject.SessionScanner.AnnounceNewSession` | packages/cli/src/claude/scanner.ts:464-497 | only a hook revives a dropped session; finished and pending ones are skipped |

## Left out

- ClaudeTraces.CleanTraceIsWellFormed: ready asks more than an accepted trace, namely that nothing waits that can spoil it later; a line that breaks in may be discarded before it does.
- ClaudeOrder.FoundKeepArrivalOrder: the condition is exact for keeping waiting messages with their calls, not for the order itself; a uuid that changes hands need not reorder anything.
- AcpTools.CallsConserved: assumes that a call id is announced once per turn, which the protocol promises and the mapper does not check.
- AcpStream.FlushesAreInvisible: where a plan stands among the other envelopes is not compared, because the mapper writes a plan without flushing the text received before it.
- OutboxDelivery.CanAlwaysDrain: a possibility, not a liveness statement; backoff times and fairness of the network are not modelled.
- TokenRotation.NobodyGoesDead: a request that fails before the server handled it is taken never to arrive later, and the server never refuses a live token; revoking a device and refreshing without the lock after its timeout are not modelled.
- Claims.AtMostOnce: the lock is one atomic step; its stale-mtime reclaim, corrupt claim files and `clearClaims` are not modelled.
- ScannerRuns.FlushLeavesNothingUnread: reads are taken to succeed; a pass that throws is not modelled.
- JSON text, zod schemas and field picking: messages and updates arrive as parsed datatypes, strings already trimmed where the program trims them.
- Envelope ids and timestamps, and the reordering queue between the ACP mapper and the session (`remote/outgoingQueue.ts`).
- UTF-16: a character is a code unit of Dafny's `char`, and a surrogate pair may be cut where the program would cut it.
- The permission-mode cache, mode watchers and Shift+Tab press counts of the permission bridge, its attention notifications, and tool arguments of a request.
- Attention reports, permission envelopes and `onTurnSettled` of the ACP driver; interrupt, mode switches and session loading.
- Access-token caching and expiry in the token provider; only refresh attempts are modelled.
- Two outboxes on one queue file at the same time, and failing file writes.
- The scanner's directory-wide rotation fallback and its time window; it announces sessions through the same entry point. Two flushes racing a cleanup may wait forever in the program, which no safety statement here covers.
- Teardown of a terminal session between clearing the idle timer and disposing the controller.
- Ciphers, keyring, pairing, process spawning, terminal rendering, hook plumbing, HTTP and the server beyond what its clients rely on.
- Argument parsing, settings, lineage map and adapter verification.
