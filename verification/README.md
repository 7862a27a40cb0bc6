# Durable agent sessions: a verified model

A session is an append-only log of durable events. Everything else a session keeps is derived from that log: the
canonical reduced state and its scheduler queues, the prompt sent to a model, the permission to start a run, the plan
for recovering an interrupted session, and the numbered transcript versions stored beside the log. This project models
those parts in Dafny and proves that they agree with the log through appends, rebases, checkpoints, crashes, release
changes and retries.

One module per file, in four groups:

- **The log and its fold.** `Events`, `Records`, `ReducedState` (one event, component by component), `ReplayFold` (the
  same fold as it runs, over maps updated in place), `ReplayInvariants`, `Provenance` (every recorded fact names its
  event), `LogQueries` (last and first events of a log), `FoldRecords`, `FoldControls`, `FoldContext` and
  `FoldedMessages` (what the state of a log records, read off the log), `Checkpoint`, `CommandQueues`,
  `QueueProperties`, `QueueContents` (what each queue holds), `PromptProjection`, `PromptProperties`, `PromptContents`
  (who says what in a prompt), `PromptRebase`, `Compaction`, `SessionStore` (the in-memory store), `SqlStore` and
  `SqlTables` (the durable store as a function of the log and as tables), `StoreRefinement`, `EventReplay`.
- **Decisions over the folded state.** `Dispatch`, `RunScheduling`, `DispatchOrder` (in which order work is taken),
  `IdleDispatch` (the same of an idle session, over the records), `Grants` (when a run may start, over the records),
  `Recovery`, `RecoveryPlans` (the plan over the records), `Inference` (the fold of one provider stream),
  `LiveEmissions`, `InferenceRunner` (the parts it records and the batch it commits), `ResponseContext` and
  `ResponseDecisions` (that batch, event by event).
- **Transcript versions.** `TranscriptPlan` (one batch through an overlay), `TranscriptSlots` (every step as a function
  on the slot table), `TranscriptInvariants`, `TranscriptSlices`, `TranscriptRuns`, `TranscriptFreezes` (when a version
  freezes), `TranscriptProgress`, `TranscriptTermination`, `TranscriptReads`, `TranscriptRows` (rows in tables apart
  from the slots' own), `TranscriptStorage` (the steps as they run: statements, transactions, rollback).
- **Shared resources.** `Alarms`, `KeepAlive`, `SinkInbox`. `Collections` holds insertion-ordered maps and sequence
  lemmas.

Most functions of the model follow the code step by step. What they compute is stated a second time without them: the
state of a log by its last events, queues, decisions and plans by the records, a prompt by its messages, a batch by
the parts of its stream. The lemmas named `...Recorded` and `...Exactly` say that the two agree on all inputs.

How the program is represented:

- A JavaScript `Map` is an insertion-ordered map (`OMap`), because the active command, the queues and the checkpoint
  entry lists depend on that order.
- Code that updates state in place is a class whose methods are proved against a function of the old state
  (`ReplayMaps`, `InMemorySessionStore`, `SqlSessionStore`, `CommittedEventStream`, `TranscriptTables`, `TranscriptStore`,
  `AlarmScheduler`, `DurableObjectKeepAlive`, `Inbox`, `SinkLane`). A JavaScript closure or promise chain is split at its
  awaits, so that other steps can come in between.
- What an alarm handler awaits is a list of calls, each made through one owner's view of the alarm, and of platform
  answers; the work may succeed, fail or never come back.
- A storage transaction saves the tables and puts them back when its body fails. `TranscriptStore.nested` says whether
  the platform allows a transaction inside a transaction; both modes are proved.
- Time, minted ids, validation results, decoding failures, refused statements, rows picked by a bounded deletion and
  size estimates are parameters.

Where a promised property does not hold of the code as it is, a lemma gives the input and another gives the exact
condition:

- A rebase changes the prompt when a user message was submitted before the cursor and consumed at or after it
  (`PromptRebase.StraddlingMessageIsLost`), and when a retained assistant's tool call ended before the cursor
  (`PromptRebase.EarlyAnswerIsLost`); `PromptRebase.RebasePreservesPromptExactly` is the exact condition.
- An answered tool call still fails the prompt's pairing check when a later assistant message of its inference is
  retained (`PromptProperties.EarlierMessageOfInferenceUnpaired`); `PromptProperties.ProjectionPairedExactly` is the
  exact condition.
- The log scan calls a request waiting after a second request replaced it in the folded state
  (`RunScheduling.OverlappingRequestsDisagree`); `RunScheduling.FoldedRequestExactly` is the exact condition.
- A tool call that arrives before its parameters are announced is decided under one id and announced under another
  (`Inference.CallBeforeAnnouncementDisagrees`); `Inference.DecisionsAtFinish` is the exact condition.
- An alarm handler that dies leaves the retry to every owner it fired for, its comment says
  (`packages/effect-durable-agent-cloudflare/src/durable-object-alarm-handler.ts:34-36`); an idle heartbeat deletes its
  wakeup before its sync is over, and the retry then runs the builder alone (`Alarms.IdleHeartbeatLosesItsRetry`).
  `Alarms.NeverRetriedExactly` is the exact condition, and `Alarms.WakeupGoesExactly` says which wakeups go at all.
- A heartbeat with work left loses its wakeup when the alarm comes before the wakeup's time;
  `Alarms.ActiveHeartbeatStaysExactly` is the exact condition.
- A rebase takes user messages that still wait out of the queues (`QueueProperties.QueuedMessageIsLost`);
  `QueueProperties.RebaseKeepsQueuesExactly` is the exact condition. A run granted afterwards is left without its message
  (`DispatchOrder.GrantedWithoutItsMessage`, and `DispatchOrder.GrantWithoutInput` for every log).
- An interrupt that comes after a stream's finish was committed fails the completed inference in a second batch
  (`InferenceRunner.CompletedThenFailed`); `InferenceRunner.SecondBatchExactly` is the exact condition.
- A slice changes the tables although no work is pending in one case: no slot and an empty log
  (`TranscriptProgress.NoPendingWorkChangesNothingExactly`).
- A stored event reads back only while no later event reuses its message, command or summary id
  (`SqlStore.ReadBackExactly`), and the durable store refuses some batches the in-memory store takes
  (`StoreRefinement.SqlRefinesMemory`).
- A session can read as updating its history for good: the active version is no longer carried and the build of the
  current one froze. The comment on that readiness says history is being rebuilt
  (`packages/effect-durable-agent/src/transcript/window.ts:88-94`); `TranscriptReads.SettledReads` says when it is not.

## Model

| member | source | states |
|---|---|---|
| `ReplayFold.FoldReducedState` | packages/effect-durable-agent/src/domain/reduced-state.ts:785-1414 | The imperative fold (maps copied, updated event by event, pruned at a rebase, queues derived once at the end) yields exactly the component-wise fold of the batch, map order included |
| `ReplayFold.DeleteUnless` | packages/effect-durable-agent/src/domain/reduced-state.ts:1441-1492 | Deleting entries while iterating an insertion-ordered map leaves exactly the kept entries in their order |
| `ReplayFold.ReplayMaps.PruneForContextRebase` | packages/effect-durable-agent/src/domain/reduced-state.ts:1433-1492 | After a rebase each map holds exactly the records still visible to the model or still open; a recovery stays only if its replacement run was kept |
| `ReplayFold.ReplayMaps.ApplyEvent` | packages/effect-durable-agent/src/domain/reduced-state.ts:800-1384 | The switch over event kinds, updating maps in place (inputs consumed and messages paused one by one, usage counted around the update it depends on, a rebase pruning after its own record), gives the state the component functions give |
| `ReducedState.FoldAppend` | packages/effect-durable-agent/src/domain/reduced-state.ts:785-800 | Folding a log in two batches is folding it in one, from any state |
| `ReplayInvariants.MessagesEvolve` | packages/effect-durable-agent/src/domain/reduced-state.ts:1086-1247 | After any event each message record is the one the event wrote or a later stage of the one it had: body, author and position never change, and only a turn start consumes |
| `ReplayInvariants.FoldKeepsKeys` | packages/effect-durable-agent/src/domain/reduced-state.ts:785-1414 | In the state of every log each record sits under its own id |
| `ReplayInvariants.FoldKeepsBounds` | packages/effect-durable-agent/src/domain/reduced-state.ts:785-1414 | No message is recorded or consumed past the head of the log |
| `Provenance.FoldKeepsOrigins` | packages/effect-durable-agent/src/domain/reduced-state.ts:785-1414 | In the state of every log each recorded start, close, consumption, promotion, pause, cancellation, stop, compaction stage, recovery and request names the event of the log that established it, for that very id, with its data |
| `Provenance.MessageOriginKept` | packages/effect-durable-agent/src/domain/reduced-state.ts:1086-1247 | A message's consumption, promotion, pause and cancellation each name an event that listed that message, with the turn, the pausing command and the reason it gave |
| `Provenance.RunOriginKept` | packages/effect-durable-agent/src/domain/reduced-state.ts:874-915 | A run's record carries the commands, model and trace of its start, the outcome of its close, their times, and a duration that is their difference and never negative |
| `Provenance.InferenceOriginKept` | packages/effect-durable-agent/src/domain/reduced-state.ts:965-1004 | An inference's record carries the run and turn of its start, and the usage or error of the event that ended it |
| `LogQueries.LatestExactly` | packages/effect-durable-agent/src/domain/reduced-state.ts:1606-1617 | The last event that fits is found exactly when an event fits and nothing behind it does, the reading of a log on which the statements about recorded state rest |
| `FoldRecords.CommandsRecorded` | packages/effect-durable-agent/src/domain/reduced-state.ts:834-873 | In the state of every log a command's record is there exactly when one of its events still counts, and names the last admission with its body and trace, the last start, and the last close with its outcome; a rebase past that close drops it |
| `FoldRecords.CommandsBeforeRebase` | packages/effect-durable-agent/src/domain/reduced-state.ts:834-873 | In a log without a rebase every event counts: a started command is recorded with the position of its last start, and unstarted exactly when it never started |
| `FoldRecords.RunsRecorded` | packages/effect-durable-agent/src/domain/reduced-state.ts:874-915 | A run's record carries the commands, trace and model of its last start, its times since then, and the last close behind its first start |
| `FoldRecords.TurnsRecorded` | packages/effect-durable-agent/src/domain/reduced-state.ts:916-964 | The same of a turn |
| `FoldRecords.InferencesRecorded` | packages/effect-durable-agent/src/domain/reduced-state.ts:965-1004 | The same of an inference, whose end carries the usage or the error of the last event that ended it |
| `FoldControls.ToolCallsRecorded` | packages/effect-durable-agent/src/domain/reduced-state.ts:1005-1085 | A tool call's record carries its last decision, the start that counts (the last without an attempt number, else the first), its last attempt, its last end with result and error, and the time between them |
| `FoldControls.StopsRecorded` | packages/effect-durable-agent/src/domain/reduced-state.ts:1248-1277 | A stop's record names the run and turn of its last request, or where it was first applied without one, and the run, turn and inference of its last application |
| `FoldContext.CompactionsRecorded` | packages/effect-durable-agent/src/domain/reduced-state.ts:1283-1377 | A compaction's record names the last event of each stage, its covered range, summary, version and end; a rebase to another summary drops it once it ended, and its failure drops it unless its summary is the current one |
| `FoldContext.RecoveriesRecorded` | packages/effect-durable-agent/src/domain/reduced-state.ts:1378-1384 | The last continuation into a run is recorded until a rebase after which no start of that run counts |
| `FoldContext.RequestRecorded` | packages/effect-durable-agent/src/domain/reduced-state.ts:815-833 | The open request is the last one made, unless granted or invalidated since, with its last delivery |
| `FoldContext.SummaryRecorded` | packages/effect-durable-agent/src/domain/reduced-state.ts:1312-1340 | The current summary is that of the last rebase |
| `FoldContext.VersionRecorded` | packages/effect-durable-agent/src/domain/reduced-state.ts:1278-1282 | The context version is that of the last projection or rebase, zero before any |
| `FoldContext.ModelRecorded` | packages/effect-durable-agent/src/domain/reduced-state.ts:874-888 | The session's model is the first one configured or run with |
| `FoldContext.TokensRecorded` | packages/effect-durable-agent/src/domain/model-usage.ts:37-78 | A model's usage is the sum, over the log, of the usages reported by the first completion of each recorded inference and compaction and by every failed compaction, attributed to the run's or the compaction's model |
| `FoldedMessages.WrittenExactly` | packages/effect-durable-agent/src/domain/reduced-state.ts:1086-1247 | What a message event writes: ids, position, time, disposition and words of the event, and for an assistant its parts, their joined text and their joined reasoning |
| `FoldedMessages.MessagesRecorded` | packages/effect-durable-agent/src/domain/reduced-state.ts:916-933 | In the state of every log a message's record is what its last creation wrote, with the last turn that consumed it, its last cancellation and reason, the pause that holds it, the promotion that found it queued, and the disposition these leave; a rebase drops it once left behind |
| `Checkpoint.FoldKeepsPointers` | packages/effect-durable-agent/src/domain/reduced-state.ts:484-510 | In the state of every log each position a checkpoint will point at names an event of the log of the right kind that carries exactly that body |
| `Checkpoint.DecodeOfEncode` | packages/effect-durable-agent/src/domain/reduced-state.ts:453-546 | For every log, decoding the encoded state with only the events its pointers name gives the state back, queues and map order included |
| `Checkpoint.ResumeEqualsReplay` | packages/effect-durable-agent/src/domain/reduced-state.ts:512-546 | For every log and split point, decoding the prefix's checkpoint with only the events it points at and folding the rest equals folding the whole log |
| `Checkpoint.DecodeEncodedMessage` | packages/effect-durable-agent/src/domain/reduced-state.ts:656-672 | A message record without its body, replayed from the one event it points at and overlaid with its lifecycle, is the record it came from |
| `Checkpoint.DecodeEncodedToolCall` | packages/effect-durable-agent/src/domain/reduced-state.ts:674-728 | A tool call is rebuilt from its decision event and its terminal event, each replayed alone |
| `CommandQueues.DerivePendingSteeringByRun` | packages/effect-durable-agent/src/domain/command-queues.ts:217-248 | The two loops (group, then sort each group in place) yield the grouped waiting steering messages, each group in queued order, groups in order of first appearance |
| `QueueProperties.QueuesPartitionWaiting` | packages/effect-durable-agent/src/domain/command-queues.ts:97-169 | Pending queue, pending steers and paused queue together hold each waiting message exactly once, each list in effective order |
| `QueueProperties.WaitingAreTheOpenMessages` | packages/effect-durable-agent/src/domain/command-queues.ts:137-169 | The waiting messages are exactly the authored messages neither consumed nor cancelled, one entry each |
| `QueueContents.MessageQueuesExactly` | packages/effect-durable-agent/src/domain/command-queues.ts:124-169 | Entry by entry and in order of effect, the pending steers show the waiting messages that steer, the pending queue those that queue, and the paused queue those a pause holds, each with its ids, body, positions, target run and pauser |
| `QueueContents.SteeringGroupExactly` | packages/effect-durable-agent/src/domain/command-queues.ts:217-248 | A run's group lists exactly the messages waiting to steer that run, entry by entry in the order they were written; there is none exactly when there are no such messages |
| `QueueContents.ControlsExactly` | packages/effect-durable-agent/src/domain/command-queues.ts:171-201 | A command is in the control queue exactly when it waits and is a stop, a cancellation, a promotion, an interrupt, or a submission whose last waiting message steers (its own disposition when it has none) |
| `QueueContents.QueuedExactly` | packages/effect-durable-agent/src/domain/command-queues.ts:112-120 | A command is among the queued ones exactly when it is a waiting submission whose last waiting message does not steer, or that queues itself when it has none |
| `QueueContents.ActiveExactly` | packages/effect-durable-agent/src/domain/command-queues.ts:203-215 | There is an active command exactly when one is started and not closed, and its run is an open one that lists it, none exactly when there is no such run |
| `QueueProperties.RebaseKeepsOwnership` | packages/effect-durable-agent/src/domain/command-queues.ts:97-135 | For any records and cursor, pruning leaves the active command, the pending commands and the steering groups unchanged |
| `QueueProperties.RebaseKeepsQueuesExactly` | packages/effect-durable-agent/src/domain/reduced-state.ts:1433-1499 | Pruning leaves every queue as it was exactly when no user message that still waits was submitted before the cursor |
| `QueueProperties.RebaseEventKeepsQueuesExactly` | packages/effect-durable-agent/src/domain/reduced-state.ts:1433-1499 | The same of the rebase event in the fold |
| `QueueProperties.QueuedMessageIsLost` | packages/effect-durable-agent/src/domain/reduced-state.ts:1494-1499 | The log that submits a message to the queue and then rebases past it has an empty queue |
| `Dispatch.ViolationExactly` | packages/effect-durable-agent/src/domain/dispatch-policy.ts:54-112 | Dispatch reports an invariant violation exactly when nothing is active, no cancel, promote or stop control takes precedence, and no waiting steer has an owner |
| `Dispatch.OrphansExactly` | packages/effect-durable-agent/src/domain/dispatch-policy.ts:131-168 | The idle search finds only orphans exactly when steers wait and none is owned by its own command or by one resuming it |
| `Dispatch.FirstControlIsLeast` | packages/effect-durable-agent/src/domain/dispatch-policy.ts:170-190 | The control taken first is an ordinary one only when all waiting controls are ordinary |
| `QueueContents.ActiveDispatchExactly` | packages/effect-durable-agent/src/domain/dispatch-policy.ts:54-93 | Over the records: with an active command dispatch does what the foremost waiting control asks (stop, cancel, promote, then interrupt or steer, each by admission) and is blocked exactly when there is none or when it would steer and no run is open |
| `QueueContents.StopGoesFirst` | packages/effect-durable-agent/src/domain/dispatch-policy.ts:54-112 | Whenever a stop waits, the one admitted first is dispatched against the active command, or started when nothing is active |
| `QueueContents.IdleDispatchExactly` | packages/effect-durable-agent/src/domain/dispatch-policy.ts:95-112 | Over the records: with nothing active a waiting stop is started, or else a cancellation or promotion handled, the foremost one first; without any the idle search decides |
| `IdleDispatch.IdleSearchExactly` | packages/effect-durable-agent/src/domain/dispatch-policy.ts:131-168 | Over the records: while steers wait, a command that runs the first of them with one to run it, through its own command or the first that resumes it, or the report that none has; else the first interrupt; else the command of the first queued message whose command waits; else the first resume command or submission with no held message |
| `IdleDispatch.NeedsResumeExactly` | packages/effect-durable-agent/src/domain/dispatch-policy.ts:114-129 | Over the records: a promotion admits a resume command exactly when no run is open, no recovery reserves the message, and neither its own command nor one resuming it waits |
| `DispatchOrder.ActiveDispatchOrder` | packages/effect-durable-agent/src/domain/dispatch-policy.ts:54-93 | While a command is active dispatch acts on the most urgent, earliest admitted control, each decision naming that control's kind, and waits only without one or when it is a submission to join and no run is open |
| `DispatchOrder.DispatchWhenIdle` | packages/effect-durable-agent/src/domain/dispatch-policy.ts:95-112 | Without an active command an urgent control goes first; else what starts, or that nothing does, is decided by the idle order |
| `DispatchOrder.IdleDispatchOrder` | packages/effect-durable-agent/src/domain/dispatch-policy.ts:131-168 | Idle order: an owner of the earliest owned steer, through its own command when that still waits; else the first interrupt; else the command of the earliest queued message; else the first resume command or submission without paused messages |
| `DispatchOrder.InputsAreQueuedMessages` | packages/effect-durable-agent/src/domain/run-scheduling.ts:89-115 | The inputs of a reservation are exactly the queued and steering messages its work names |
| `DispatchOrder.GrantLeavesNothingUrgent` | packages/effect-durable-agent/src/domain/run-scheduling.ts:117-158 | A run is granted only when no run is open and the first control that may change waiting work is a promotion or cancels a message the run does not take |
| `Grants.GrantedExactly` | packages/effect-durable-agent/src/domain/run-scheduling.ts:117-158 | A run is granted exactly when the request is the open one, its command is admitted and open, no run is open, no other command's stop, interrupt or cancellation of a message it takes waits, and it is ready: not started with a message to take or a submission none of whose messages is recorded; or started, continuing a closed run of its own with an input left unless none was named |
| `Grants.SubmissionIsGranted` | packages/effect-durable-agent/src/domain/run-scheduling.ts:117-158 | After a submission, its message and a request for it, the run is granted and takes exactly that message |
| `Grants.InputsExactly` | packages/effect-durable-agent/src/domain/run-scheduling.ts:89-115 | The inputs of a reservation are exactly the messages its work names that wait and are not held by a pause |
| `DispatchOrder.GrantedCommandHasInput` | packages/effect-durable-agent/src/domain/run-scheduling.ts:117-158 | A granted command still has a queued or steering message to run, or is a submission of which the folded state holds no message |
| `DispatchOrder.GrantWithoutInput` | packages/effect-durable-agent/src/domain/run-scheduling.ts:130-142 | Over any log: when a granted command has no message to run, every message the log recorded for it was taken away later by a rebase or a reused id; without either, none was recorded |
| `DispatchOrder.GrantedWithoutItsMessage` | packages/effect-durable-agent/src/domain/run-scheduling.ts:117-158 | A submission to the queue, a run requested for it and a rebase past its message: the run is granted with no message left for it |
| `Dispatch.PromotionKeepsSteersOwned` | packages/effect-durable-agent/src/domain/dispatch-policy.ts:114-129 | With no run and no recovery reservation open, the promotion batch (with a resume command where promotionNeedsResumeCommand asks for one) keeps every waiting steer owned, so dispatch reports no violation |
| `RunScheduling.RunRequestOutcome` | packages/effect-durable-agent/src/services/session-query.ts:76-117 | The scan up to the head computes the recursive answer for the request on the log cut at the head |
| `RunScheduling.OutcomeIsLastSchedule` | packages/effect-durable-agent/src/services/session-query.ts:76-117 | The answer is decided by the last scheduling event of the request and, once granted, by the last close of its run after that |
| `RunScheduling.OutcomeUnknownExactly` | packages/effect-durable-agent/src/services/session-query.ts:76-117 | The scan answers unknown exactly when the log never schedules the request |
| `Grants.OutcomeExactly` | packages/effect-durable-agent/src/services/session-query.ts:76-117 | The answer for a request is read off its last scheduling event, and once granted off the outcome of the last close of its run since |
| `RunScheduling.FoldedRequestExactly` | packages/effect-durable-agent/src/domain/reduced-state.ts:815-833 | For any log the folded state holds a request exactly when the scan says waiting and no other request was made later |
| `RunScheduling.WaitingExactlyWhenFolded` | packages/effect-durable-agent/src/domain/reduced-state.ts:815-833 | When requests open only while none is open, the scan says waiting exactly when the folded state holds that request |
| `RunScheduling.OverlappingRequestsDisagree` | packages/effect-durable-agent/src/domain/reduced-state.ts:815-833 | Two overlapping requests: the scan still calls the first one waiting, the folded state holds only the second |
| `RunScheduling.PermissionAtMostOnce` | packages/effect-durable-agent/src/domain/run-scheduling.ts:117-158 | Once granted or invalidated, a request never authorizes a run again in any extension of the log that does not request it again, rebases included, also when the state was resumed from any checkpoint |
| `RunScheduling.AuthorizedGrantsNeedRequests` | packages/effect-durable-agent/src/domain/run-scheduling.ts:117-158 | Authorizing a request after it was closed needs a new request of that id in between |
| `RunScheduling.WaitingRunControlIsFirst` | packages/effect-durable-agent/src/domain/run-scheduling.ts:161-189 | The control that may change a waiting run is the first in priority and admission order, and there is none exactly when no eligible control waits |
| `Grants.WaitingControlExactly` | packages/effect-durable-agent/src/domain/run-scheduling.ts:161-189 | Over the records: the control of a waiting run is the first, by stop, cancel, promote, interrupt and then admission, of the waiting commands other than its own that may change it |
| `Grants.CancellationExactly` | packages/effect-durable-agent/src/domain/run-scheduling.ts:191-208 | A cancellation is planned exactly for a message the requested run takes: it closes that request, and a recovery keeps its command and interrupted run with exactly the other inputs, or has its command cancelled when none is left |
| `Grants.InterruptionExactly` | packages/effect-durable-agent/src/domain/run-scheduling.ts:210-220 | An interruption pauses exactly the messages that wait, are not held and are not of the interrupting command |
| `RunScheduling.CancellationKeepsOtherInputs` | packages/effect-durable-agent/src/domain/run-scheduling.ts:191-208 | A cancellation plan exists exactly when the message is an input of the open request; after the cancellation the replacement reserves exactly the other inputs, in order, and without one a recovery had no other input |
| `RunScheduling.CancelRemovesOnlyItself` | packages/effect-durable-agent/src/domain/run-scheduling.ts:89-115 | Cancelling a message removes it and nothing else from the inputs of any work |
| `RunScheduling.InterruptionPausesTheRest` | packages/effect-durable-agent/src/domain/run-scheduling.ts:210-220 | After the planned pause every message still queued or steering belongs to the interrupting command |
| `Recovery.FoundExactly` | packages/effect-durable-agent/src/domain/reduced-state.ts:1547-1587 | Recovery finds a lifecycle exactly when its record is open (and not reserved, provider-executed or already closed through its command) |
| `Recovery.RunningExactly` | packages/effect-durable-agent/src/domain/reduced-state.ts:1571-1573 | Of the tool calls found, the running ones are exactly those that started |
| `Recovery.ClosingEveryFindingRecoversAll` | packages/effect-durable-agent/src/domain/reduced-state.ts:1547-1587 | Folding closing events, in any order and at least one for each record found, leaves nothing to recover |
| `Recovery.PlanListsAreDisjoint` | packages/effect-durable-agent/src/domain/recovery-policy.ts:34-146 | Pause, resume and continuation inputs list no message twice, in one list or across lists |
| `Recovery.EverySteerIsAccountedFor` | packages/effect-durable-agent/src/domain/recovery-policy.ts:34-146 | Every waiting steer is paused, continued, resumed, reserved, owned by a resume command or has a pending origin |
| `Recovery.PauseOrResumeExactly` | packages/effect-durable-agent/src/domain/recovery-policy.ts:48-126 | A message is paused exactly when it waits and a stop can be applied; it is resumed exactly when no stop can, it is a waiting steer without a pending origin, and it is neither continued, reserved nor owned by a resume command |
| `Recovery.ContinuesExactly` | packages/effect-durable-agent/src/domain/recovery-policy.ts:62-80 | A continuation is planned exactly when no stop can be applied and some active command that runs messages has an open run nobody asked to stop; the planned pair is such a pair |
| `Recovery.ContinuedInputsExactly` | packages/effect-durable-agent/src/domain/recovery-policy.ts:79-110 | The continued inputs are exactly the waiting messages of the command and the waiting steers meant for its run or for one sharing a command with it |
| `RecoveryPlans.PlanExactly` | packages/effect-durable-agent/src/domain/recovery-policy.ts:34-146 | From the records: with a waiting stop that names its run and turn everything in line is paused; otherwise the first started command that runs messages and has an open run nobody asked to stop goes on in the first such run, with exactly its own waiting messages and the steers meant for that run, and exactly the steers no reservation, open resume command or waiting command owns are resumed |
| `Recovery.RecoveryOfAnyLog` | packages/effect-durable-agent/src/domain/recovery-policy.ts:34-146 | Both facts for the state of every log: closing what was found leaves nothing to recover, and the plan lists no message twice |
| `PromptProjection.ValidateToolCallPairing` | packages/effect-durable-agent/src/domain/message-transcript.ts:227-252 | The loop over the pending set accepts a prompt exactly when every call is answered before the next message of another role |
| `PromptProperties.FoldKeepsConsumption` | packages/effect-durable-agent/src/domain/message-transcript.ts:274-300 | In the state of every log a consumed message was consumed by a turn that started at that position |
| `PromptProperties.ResultFollowsAssistant` | packages/effect-durable-agent/src/domain/message-transcript.ts:222-226 | With call indices below the limit, each synthetic result sorts strictly between its assistant and the next position |
| `PromptProperties.CallAtLimitReachesNext` | packages/effect-durable-agent/src/domain/message-transcript.ts:222-226 | A call at index 900 sorts exactly at the next position, so the limit is sharp |
| `PromptProperties.OnlyResultsBetween` | packages/effect-durable-agent/src/domain/message-transcript.ts:135-168 | Between an assistant message and anything sorting below the next position there are only tool results |
| `PromptProperties.ProjectionPairedExactly` | packages/effect-durable-agent/src/domain/message-transcript.ts:84-102 | For every log with call indices below the limit, the projected prompt passes its pairing check exactly when every retained framework call is answered and stands in the last retained message of its inference |
| `PromptContents.PromptOfLog` | packages/effect-durable-agent/src/domain/message-transcript.ts:84-102 | For every log the projected prompt has the first system message as its only system prompt, first of all; its user and assistant prompts are the summary's message and then each message of the retained conversation in the order it entered, in its author's role and own words; its tool prompts are exactly the answers to the calls of retained assistants, in call order |
| `PromptContents.ConversationPrompts` | packages/effect-durable-agent/src/domain/message-transcript.ts:259-312 | User and steering messages speak as the user with their content, assistant messages as the assistant with their parts or else their reasoning and text, in transcript order after the summary |
| `PromptContents.ToolPrompts` | packages/effect-durable-agent/src/domain/message-transcript.ts:170-206 | One tool prompt for each answered call whose inference has a retained assistant message, carrying exactly the rejection's feedback or the terminal's result, in the order of assistant and call |
| `PromptContents.TranscriptExactly` | packages/effect-durable-agent/src/domain/message-transcript.ts:17-47 | The durable transcript is exactly the user messages not cancelled, the steering that was consumed and the assistant messages, in the order they enter it |
| `PromptContents.CallIndexExactly` | packages/effect-durable-agent/src/domain/message-transcript.ts:208-226 | A call's place is that of the last tool-call part with its id, the first place when there is none |
| `PromptProperties.EarlierMessageOfInferenceUnpaired` | packages/effect-durable-agent/src/domain/message-transcript.ts:139-145 | On a log of three events, an answered call of an earlier assistant message of an inference fails the pairing check |
| `PromptRebase.PruningPreservesPromptExactly` | packages/effect-durable-agent/src/domain/reduced-state.ts:1433-1499 | The prompt under the new summary is the same with and without the pruned records exactly when no uncancelled user message straddles the cursor and no retained assistant's call ended before it |
| `PromptRebase.RebasePreservesPromptExactly` | packages/effect-durable-agent/src/domain/message-transcript.ts:135-168 | The same exact condition for the rebase event of the fold |
| `PromptRebase.RetainedUnlessStraddling` | packages/effect-durable-agent/src/domain/reduced-state.ts:1494-1499 | Pruning by submission keeps a message retained by consumption exactly when it does not straddle the cursor |
| `PromptRebase.StraddlingMessageIsLost` | packages/effect-durable-agent/src/domain/reduced-state.ts:1433-1499 | The log that submits at 1, consumes at 2 and rebases at 2 changes its prompt |
| `PromptRebase.EarlyAnswerIsLost` | packages/effect-durable-agent/src/domain/reduced-state.ts:1433-1499 | On a log where a call ends before the cursor and its assistant message comes at it, the rebase loses the result |
| `Compaction.PlanIsAccepted` | packages/effect-durable-agent/src/services/compaction.ts:571-622 | For every log the planner gives nothing or a plan the check accepts: the retained cursor strictly advances up to one past the head, and what is summarized starts at the old cursor and ends right before the new one |
| `Compaction.PlannedExactly` | packages/effect-durable-agent/src/services/compaction.ts:571-622 | A plan is given exactly when the prompt is over the threshold and the mode's cut lies past the cursor with enough tokens before it: it summarizes from the cursor, or from the first message when nothing was summarized yet, up to right before the cut |
| `Compaction.EstimatedExactly` | packages/effect-durable-agent/src/services/compaction.ts:680-685 | What is estimated is each message of the durable transcript in order, steering at its consumption and any other at its own position |
| `Compaction.ValidExactly` | packages/effect-durable-agent/src/services/compaction.ts:508-532 | A plan passes the check exactly when its cursor advances to at most one past the head and its source is not empty and ends before the cursor |
| `Compaction.SelectRetainedFromSeq` | packages/effect-durable-agent/src/services/compaction.ts:639-661 | The loop from the end computes the selected cursor |
| `Compaction.TailModeSelectsShortestSuffix` | packages/effect-durable-agent/src/services/compaction.ts:639-661 | With a positive budget the cursor starts the shortest suffix that reaches it, or all messages when none does |
| `Compaction.LastResponseSeq` | packages/effect-durable-agent/src/services/compaction.ts:624-637 | The backward scan finds the last response past the cursor |
| `Compaction.LastResponseIsLatest` | packages/effect-durable-agent/src/services/compaction.ts:624-637 | That response is the latest one past the cursor, and there is none exactly when the scan finds none |
| `SessionStore.InMemorySessionStore.Append` | packages/effect-durable-agent/src/services/session-store.ts:314-379 | A batch is appended whole or not at all; each answer is the entry of the new log with that event id |
| `SessionStore.AppendGrows` | packages/effect-durable-agent/src/services/session-store.ts:314-379 | A successful batch extends the log, keeps positions dense and ids unique, contains every event of the batch and adds nothing else |
| `SessionStore.AppendIsIdempotent` | packages/effect-durable-agent/src/services/session-store.ts:314-379 | Retrying any part of a committed batch in any order changes nothing |
| `SessionStore.TakenExactly` | packages/effect-durable-agent/src/services/session-store.ts:314-379 | A new event is appended at the next position unless it is a summary under another id or a rebase to a summary the log does not store |
| `SessionStore.RebasesStaySupported` | packages/effect-durable-agent/src/services/session-store.ts:314-379 | Over any batches no rebase is committed before a summary of its id |
| `SqlStore.ReadBackExactly` | packages/effect-durable-agent-cloudflare/src/durable-object-store.ts:750-800 | A stored entry reads back from its fact and sidecar rows exactly as committed if and only if no later event took its sidecar row |
| `SqlStore.ReadBackOtherwise` | packages/effect-durable-agent-cloudflare/src/durable-object-store.ts:750-800 | An entry that lost its sidecar row reads back as the admission that took it, or not at all for messages and summaries |
| `SqlStore.CommandRowExactly` | packages/effect-durable-agent-cloudflare/src/durable-object-store.ts:920-1002 | A command's row names where it was last admitted, or first heard of, the key of its last admission, and the status its last event gives it |
| `SqlStore.KeyTakenExactly` | packages/effect-durable-agent-cloudflare/src/durable-object-store.ts:920-1002 | An admission is refused for its key exactly while that is the key of the last admission of another command |
| `SqlStore.KeysStayUnique` | packages/effect-durable-agent-cloudflare/src/durable-object-store.ts:920-1002 | Over any batches, retried or not, no two commands ever hold the same idempotency key |
| `SqlStore.EverythingReadsBack` | packages/effect-durable-agent-cloudflare/src/durable-object-store.ts:750-800 | Without id reuse every entry of the log reads back exactly |
| `SqlTables.SqlSessionStore.Append` | packages/effect-durable-agent-cloudflare/src/durable-object-store.ts:369-392 | One transaction over the tables commits exactly the specified batch, or restores every table |
| `SqlTables.SqlSessionStore.InsertOrRead` | packages/effect-durable-agent-cloudflare/src/durable-object-store.ts:323-367 | One event is inserted at the next position with all its projections, or answered with the row already holding its id |
| `SqlTables.SqlSessionStore.ReadRowIsExact` | packages/effect-durable-agent-cloudflare/src/durable-object-store.ts:750-769 | Reading a row through the tables is the read-back of the committed log, and is the committed entry exactly when it kept its sidecar row |
| `SqlTables.SqlSessionStore.WriteCommandProjection` | packages/effect-durable-agent-cloudflare/src/durable-object-store.ts:920-1002 | The command table holds each command's admission and status under unique command and idempotency keys; the write fails exactly when another command holds the key |
| `SqlTables.SqlSessionStore.WriteCommandInputProjection` | packages/effect-durable-agent-cloudflare/src/durable-object-store.ts:1004-1035 | The input table holds the last admitted body of each command |
| `SqlTables.SqlSessionStore.WriteMessageProjection` | packages/effect-durable-agent-cloudflare/src/durable-object-store.ts:1047-1085 | The message table holds the last body stored under each message id |
| `SqlTables.SqlSessionStore.WriteSummaryProjection` | packages/effect-durable-agent-cloudflare/src/durable-object-store.ts:1087-1129 | The summary table holds the last summary of each id; the write fails exactly when the event disagrees with its artifact |
| `SqlTables.SqlSessionStore.CheckContextRebase` | packages/effect-durable-agent-cloudflare/src/durable-object-store.ts:1131-1160 | A rebase is refused exactly when the stored summary of that id is missing or disagrees |
| `SqlTables.ReadRowIsReadBack` | packages/effect-durable-agent-cloudflare/src/durable-object-store.ts:750-769 | For tables that hold the log's projections, reading a row is reading back the log |
| `StoreRefinement.SqlRefinesMemory` | packages/effect-durable-agent-cloudflare/src/durable-object-store.ts:369-392 | What the durable store commits the in-memory store commits with the same positions; without id reuse it answers with the committed events and fails exactly when the in-memory store does or an entry breaks one of its own checks |
| `StoreRefinement.CommittedEventsStayReadable` | packages/effect-durable-agent-cloudflare/src/durable-object-store.ts:750-800 | Without id reuse every earlier entry still reads back exactly after any further batch |
| `EventReplay.CommittedEventStream.Pull` | packages/effect-durable-agent-cloudflare/src/durable-object-store.ts:471-545 | A page is a non-empty prefix of what is left through the head the first page saw, unless nothing is left |
| `EventReplay.Replay` | packages/effect-durable-agent-cloudflare/src/durable-object-store.ts:471-500 | With the log growing arbitrarily between pages, the replay ends and delivers in order, once each, the events after the position through the head at the first page |
| `Inference.AtMostOneTerminal` | packages/effect-durable-agent/src/domain/inference-state.ts:166-201 | Over any inputs nothing is emitted after a terminal emission, and there is one exactly when the inference is sealed |
| `Inference.UpsertKeepsDistinct` | packages/effect-durable-agent/src/domain/inference-state.ts:401-407 | Staged decisions never name a provider part twice |
| `Inference.Folded` | packages/effect-durable-agent/src/domain/inference-state.ts:334-354 | Each called part has one staged decision, under the drafted id if it was announced before its last call |
| `Inference.DecisionsAtFinish` | packages/effect-durable-agent/src/domain/inference-state.ts:409-436 | A finished inference emits one batch last; a part is announced live exactly when it was started and committed exactly when it was called, each under one id, and the two ids are the same exactly when the announcement came before the last call or both gave the same id |
| `Inference.AnnouncedExactly` | packages/effect-durable-agent/src/domain/inference-state.ts:241-278 | An announcement with an id is among the emissions exactly when the inputs start the part under that id |
| `Inference.CallBeforeAnnouncementDisagrees` | packages/effect-durable-agent/src/domain/inference-state.ts:241-278 | A call before its announcement is emitted live under one id and committed by the batch under another |
| `Inference.AnnouncedAsStarted` | packages/effect-durable-agent/src/domain/inference-state.ts:241-278 | A live announcement carries the id of the part's first start |
| `Inference.AnnouncedOnce` | packages/effect-durable-agent/src/domain/inference-state.ts:241-278 | A part is announced live at most once |
| `LiveEmissions.LiveExactly` | packages/effect-durable-agent/src/domain/inference-state.ts:166-332 | Until it ends, a stream emits exactly every text and reasoning delta, the first announcement of each part, and its parameters and their end under the announced id from that announcement to its end or call |
| `InferenceRunner.OneTerminalBatch` | packages/effect-durable-agent/src/services/inference-runner.ts:166-209 | Over any provider stream one durable batch is committed, closing the inference in its last event only, completed exactly when the first ending part is a finish; the calls in its assistant message name exactly the provider ids it decides, in the same order exactly when no call id repeats; a failed stream records no call and no decision |
| `ResponseDecisions.StreamExactly` | packages/effect-durable-agent/src/services/inference-runner.ts:166-209 | The one batch of any provider stream, event by event from its parts: the assistant message, the decisions and the completion of a finish; or what was said but for calls, and the failure |
| `ResponseDecisions.DecisionsExactly` | packages/effect-durable-agent/src/domain/inference-state.ts:334-436 | One decision for the last call of each part, in the order of these calls, with that call's name and decoded parameters or the reason it was rejected, under the id announced before it or else its own |
| `ResponseContext.ContextExactly` | packages/effect-durable-agent/src/services/inference-runner.ts:615-682 | The response context has one entry for each first mention of a text or reasoning part and for each call, in the order they came, each with all the text under its id in order, and metadata exactly when some part brought any |
| `ResponseContext.InterruptExactly` | packages/effect-durable-agent/src/services/inference-runner.ts:540-577 | Wherever an interrupt stops a run, its last batch is what the parts that arrived said but for their calls, and a failure |
| `InferenceRunner.SecondBatchExactly` | packages/effect-durable-agent/src/services/inference-runner.ts:540-577 | Wherever an interrupt stops a run, its release commits one batch that fails the inference; it is a second terminal batch exactly when the stream's own was committed before, which may have completed it |
| `InferenceRunner.CompletedThenFailed` | packages/effect-durable-agent/src/services/inference-runner.ts:540-577 | A stream still open after its finish part, then an interrupt: the completed inference is failed by a second batch |
| `InferenceRunner.FinishedMessageIsTheContext` | packages/effect-durable-agent/src/services/inference-runner.ts:396-415 | At finish the assistant message is exactly the recorded context, the fallback text never being needed |
| `InferenceRunner.RecordOpen` | packages/effect-durable-agent/src/services/inference-runner.ts:615-682 | Every part that does not end the stream keeps recorded calls and staged decisions in agreement, and never loses recorded content |
| `InferenceRunner.TextIsSaid` | packages/effect-durable-agent/src/services/inference-runner.ts:653-698 | Once a context says something (text, or reasoning that carries metadata) it goes on doing so, and any non-empty delta makes it do so |
| `TranscriptPlan.PlanIsProjection` | packages/effect-durable-agent/src/transcript/interpreter.ts:263-277 | Writing a batch's plan leaves the one-pass projection of its events over the stored rows, and the cursor at its end |
| `TranscriptPlan.BatchesCompose` | packages/effect-durable-agent/src/transcript/interpreter.ts:263-277 | How the log is cut into batches does not matter: two succeed exactly when one does, with the same rows and cursor |
| `TranscriptPlan.ReplayPlansNothing` | packages/effect-durable-agent/src/transcript/interpreter.ts:263-277 | Replaying events at or below the cursor plans nothing |
| `TranscriptInvariants.ReconcileKeeps` | packages/effect-durable-agent-cloudflare/src/durable-object-transcript-maintenance.ts:199-227 | Reconciliation keeps the invariant, writes no rows, retires exactly the stale builds, and adds at most one empty slot, active only when nothing was live and the log is empty |
| `TranscriptFreezes.ReconciledExactly` | packages/effect-durable-agent-cloudflare/src/durable-object-transcript-maintenance.ts:199-227 | What reconciliation makes of each slot: a build of another version is retired, the current version gets a slot when it has none, active only on an empty table over an empty log, and every other slot stays |
| `TranscriptInvariants.AdvancedProjects` | packages/effect-durable-agent-cloudflare/src/durable-object-transcript-maintenance.ts:295-329 | A slot advanced past events still holds the projection of the log through its cursor, or froze right before the event it could not pass |
| `TranscriptFreezes.AdvancedExactly` | packages/effect-durable-agent-cloudflare/src/durable-object-transcript-maintenance.ts:295-329 | A live healthy slot given the events after its cursor freezes exactly when projecting fails of its own or the events have no projection over its rows; otherwise its cursor is at their end and its rows are that projection |
| `TranscriptInvariants.MaintainKeeps` | packages/effect-durable-agent-cloudflare/src/durable-object-transcript-maintenance.ts:331-346 | The append hook moves exactly the caught-up slots past the batch, one row each, keeping the invariant on the longer log |
| `TranscriptFreezes.HookExactly` | packages/effect-durable-agent-cloudflare/src/durable-object-transcript-maintenance.ts:331-346 | After an append each carried caught-up slot is at the new head unless its own projection of the batch fails, and any other slot is as reconciliation left it |
| `TranscriptSlices.BuildAndActivateKeeps` | packages/effect-durable-agent-cloudflare/src/durable-object-transcript-maintenance.ts:411-462 | Building moves only the target; a healthy build at the head becomes active and the active version is retired in the same step |
| `TranscriptFreezes.TargetExactly` | packages/effect-durable-agent-cloudflare/src/durable-object-transcript-maintenance.ts:367-379 | Slices build a healthy carried build, or else a healthy carried active version behind the head, and there is one such target at most |
| `TranscriptFreezes.BuiltRowExactly` | packages/effect-durable-agent-cloudflare/src/durable-object-transcript-maintenance.ts:411-462 | The target is built page by page to the end of the log or of the slice's events, and freezes exactly when one of these pages does not decode, has no projection, fails or is refused |
| `TranscriptSlices.CleanUpKeeps` | packages/effect-durable-agent-cloudflare/src/durable-object-transcript-tables.ts:218-248 | Budgeted deletion keeps the invariant and touches retired slots only |
| `TranscriptSlices.CleanUpCleans` | packages/effect-durable-agent-cloudflare/src/durable-object-transcript-maintenance.ts:463-478 | Cleanup leaves every live slot alone, and a retired slot is gone exactly when its rows and those of the retired slots before it are fewer than the budget; one that stays keeps just the rows the budget did not reach |
| `TranscriptSlices.CleanUpExactly` | packages/effect-durable-agent-cloudflare/src/durable-object-transcript-maintenance.ts:463-478 | The deletion loop, slot after slot in creation order, removes exactly the retired slots whose rows fit the budget left |
| `TranscriptRows.TranscriptTables.DeleteRetiredTranscriptRows` | packages/effect-durable-agent-cloudflare/src/durable-object-transcript-tables.ts:218-248 | With rows in tables apart from the meta rows: the budgeted deletion is the one on the slot table, and no row ever remains without its meta row |
| `TranscriptRows.TranscriptTables.CleanUpRetired` | packages/effect-durable-agent-cloudflare/src/durable-object-transcript-maintenance.ts:463-478 | The whole cleanup over the separate tables is the one on the slot table, leaves no orphan row, and removes exactly the slots the budget reaches |
| `TranscriptRuns.SliceKeeps` | packages/effect-durable-agent-cloudflare/src/durable-object-transcript-maintenance.ts:411-478 | A slice keeps the invariant; a slot newly active is a healthy build of the current version at the head; a slot goes exactly when its rows fit the budget that the slots before it left, so a slot that goes had fewer rows than the budget |
| `TranscriptRuns.RecordFailureKeeps` | packages/effect-durable-agent-cloudflare/src/durable-object-transcript-maintenance.ts:496-517 | Counting a failed slice keeps the invariant, activates nothing, and freezes the target only where it stood |
| `TranscriptFreezes.FailureExactly` | packages/effect-durable-agent-cloudflare/src/durable-object-transcript-maintenance.ts:496-517 | A counted failure raises its target's count by one and freezes it right behind its cursor exactly when the count reaches the limit; every other slot is as reconciliation left it |
| `TranscriptRuns.AppendKeeps` | packages/effect-durable-agent-cloudflare/src/durable-object-transcript-maintenance.ts:331-346 | An append keeps the invariant on the longer log, removes no slot and makes none active but a first version on an empty log |
| `TranscriptRuns.SlotsFailIndependently` | packages/effect-durable-agent-cloudflare/src/durable-object-transcript-maintenance.ts:295-346 | What one slot becomes in an append depends on its own version's definition and its own writes only, whatever the other slots and versions do |
| `TranscriptRuns.RunKeeps` | packages/effect-durable-agent-cloudflare/src/durable-object-transcript-maintenance.ts:199-478 | In every interleaving of appends, reads, slices, failed slices, rollbacks and release changes, each live slot holds the one-pass projection of the log through its cursor, which is never past the head; at most one slot is active and one building; a frozen slot keeps its rows and cursor until it is retired; a slot that is gone was removed by a slice whose row budget was larger than the rows it had |
| `TranscriptFreezes.StepFreezesExactly` | packages/effect-durable-agent-cloudflare/src/durable-object-transcript-maintenance.ts:295-478 | A step freezes a slot exactly when it appends a batch the caught-up slot cannot pass, builds the target into a page that does not decode, has no projection, fails or is refused, or counts the target's last allowed failure |
| `TranscriptFreezes.RunFreezes` | packages/effect-durable-agent-cloudflare/src/durable-object-transcript-maintenance.ts:199-478 | Over any run, a slot found frozen was frozen by one of its steps, for one of these reasons |
| `TranscriptRuns.StartOk` | packages/effect-durable-agent-cloudflare/src/durable-object-transcript-tables.ts:156-163 | A store without slots satisfies the invariant over any log |
| `TranscriptProgress.PendingExactly` | packages/effect-durable-agent-cloudflare/src/durable-object-transcript-maintenance.ts:381-409 | With something live, work is pending exactly when a retired slot is left, the versions are not reconciled or a build target exists |
| `TranscriptProgress.NoPendingWorkChangesNothingExactly` | packages/effect-durable-agent-cloudflare/src/durable-object-transcript-maintenance.ts:381-409 | Without pending work a slice changes nothing if and only if something is live; otherwise the store was empty over an empty log and gets its first version |
| `TranscriptProgress.ReconcileNothing` | packages/effect-durable-agent-cloudflare/src/durable-object-transcript-maintenance.ts:199-227 | Reconciling a reconciled table changes nothing |
| `TranscriptProgress.ConvergedHoldsWholeLog` | packages/effect-durable-agent-cloudflare/src/durable-object-transcript.ts:170-186 | Converged means exactly one slot, active, of the current version, holding the projection of the whole log |
| `TranscriptTermination.SliceLowersMeasure` | packages/effect-durable-agent-cloudflare/src/durable-object-transcript-maintenance.ts:411-478 | A slice that leaves work to do strictly lowers (unreconciled, build outstanding, events unprojected, retired rows and slots) |
| `TranscriptTermination.SlicesStop` | packages/effect-durable-agent-cloudflare/src/durable-object-transcript-maintenance.ts:381-478 | Without appends and release changes finitely many slices leave nothing to do, whatever projections fail |
| `TranscriptReads.ServedCutIsProjection` | packages/effect-durable-agent-cloudflare/src/durable-object-transcript.ts:113-162 | Every cut served is the projection of the log through the position it names; a degraded one ends right before the failed event; only the projection of the whole log under a carried version reads as current |
| `TranscriptReads.CurrentExactly` | packages/effect-durable-agent/src/transcript/window-read.ts:70-85 | A read is current exactly when the active version is carried, healthy, decodable and at the head |
| `TranscriptReads.ActiveReadExactly` | packages/effect-durable-agent-cloudflare/src/durable-object-transcript.ts:113-162 | How an active version reads: its rows through its cursor, unreadable when they do not decode, updating when its version is no longer carried or it is behind the head, degraded when frozen, and current otherwise |
| `TranscriptReads.InactiveReadExactly` | packages/effect-durable-agent-cloudflare/src/durable-object-transcript.ts:113-162 | Without an active version a read is empty: unreadable when the build of the current version froze, still building otherwise |
| `TranscriptReads.SettledReads` | packages/effect-durable-agent/src/transcript/window-read.ts:108-126 | With no work left a read never says building, and says updating exactly when a version no longer carried stays active, which happens only when the build of the current one froze |
| `TranscriptReads.ReadsSettle` | packages/effect-durable-agent-cloudflare/src/durable-object-transcript.ts:113-162 | Finitely many slices bring every session to reads that are current or degraded, unless the build of the current version froze |
| `TranscriptStorage.TranscriptStore.WriteTranscriptPlan` | packages/effect-durable-agent-cloudflare/src/durable-object-transcript-tables.ts:314-349 | Statement by statement (records, aliases not there yet, cursor) the plan is written whole, or stops at the refused statement |
| `TranscriptStorage.TranscriptStore.ReconcileTranscriptSlots` | packages/effect-durable-agent-cloudflare/src/durable-object-transcript-maintenance.ts:199-227 | The stored reconciliation is the function on slot tables unless one of its writes is refused, and keeps the unique role index |
| `TranscriptStorage.TranscriptStore.AdvanceStoredSlot` | packages/effect-durable-agent-cloudflare/src/durable-object-transcript-maintenance.ts:295-329 | Where transactions nest a refused plan write rolls back and freezes that slot alone; where they do not, or when the freeze itself is refused, the caller's transaction fails |
| `TranscriptStorage.TranscriptStore.MaintainTranscriptsOnAppend` | packages/effect-durable-agent-cloudflare/src/durable-object-transcript-maintenance.ts:331-346 | The append hook over stored slots leaves what the function on slot tables says and raises one alert per version that froze; it fails only on a refused meta row, or on a refused plan write where transactions do not nest |
| `TranscriptStorage.AppendAlertsExactly` | packages/effect-durable-agent-cloudflare/src/durable-object-transcript-maintenance.ts:254-346 | An append raises an alert exactly for each caught-up healthy version it freezes, with its version, role and position |
| `TranscriptStorage.BuildAlertsExactly` | packages/effect-durable-agent-cloudflare/src/durable-object-transcript-maintenance.ts:254-294 | A slice raises an alert exactly when its target freezes, and at most one |
| `TranscriptStorage.TranscriptStore.Append` | packages/effect-durable-agent-cloudflare/src/durable-object-store.ts:369-392 | The durable append over the SQL tables and the transcript hook in one transaction: it answers as the plain durable store does, also refusing the same batches; besides, only a refused meta row, or plan write where transactions do not nest, fails it, and a failed one restores every table and publishes nothing |
| `TranscriptStorage.TranscriptStore.SetTranscriptSlotRole` | packages/effect-durable-agent-cloudflare/src/durable-object-transcript-tables.ts:182-189 | A role write keeps the unique index over live roles, and no step ever attempts one the index would refuse |
| `TranscriptStorage.TranscriptStore.RunTranscriptSlice` | packages/effect-durable-agent-cloudflare/src/durable-object-transcript-maintenance.ts:411-478 | One slice inside its transaction is the function on slot tables, with its alerts and whether work remains |
| `TranscriptStorage.TranscriptStore.RunStoredSlice` | packages/effect-durable-agent-cloudflare/src/durable-object-transcript.ts:228-267 | A slice commits as specified, or is undone whole; only a failure while building, a refused freeze included, is counted against the target, in a transaction of its own, and swallowed exactly when that froze the target; a refused reconciliation, activation or cleanup is not counted; the log is never touched |
| `TranscriptStorage.TranscriptStore.RunSlices` | packages/effect-durable-agent-cloudflare/src/durable-object-transcript.ts:360-366 | At most so many slices; false only when no work remains, and while every refused statement is contained the slots are those after that many slices |
| `TranscriptStorage.TranscriptStore.ReadWindow` | packages/effect-durable-agent-cloudflare/src/durable-object-transcript.ts:113-162 | A read reconciles first and serves a cut that is the projection of the log through its position; a refused reconciliation fails it and changes nothing |
| `Alarms.AlarmScheduler.Due` | packages/effect-durable-agent-cloudflare/src/durable-object-alarms.ts:108-121 | The owners due, each with the wakeup it holds |
| `Alarms.AlarmScheduler.ClearThrough` | packages/effect-durable-agent-cloudflare/src/durable-object-alarms.ts:123-130 | A wakeup goes only if it is at or before the one its work was for |
| `Alarms.AlarmScheduler.Request` | packages/effect-durable-agent-cloudflare/src/durable-object-alarms.ts:93-106 | The owner wakes no later than asked, an earlier wakeup is kept, no other owner's row changes, and a sync is queued |
| `Alarms.AlarmScheduler.Drain` | packages/effect-durable-agent-cloudflare/src/durable-object-alarms.ts:132-150 | Once queued syncs drained, whichever the platform refused, the platform alarm is the earliest wakeup, or absent without one, provided the last sync went through |
| `Alarms.AlarmScheduler.AdoptUnrecordedAlarm` | packages/effect-durable-agent-cloudflare/src/durable-object-alarms.ts:60-69 | An alarm no owner recorded becomes the runtime's wakeup |
| `Alarms.RunSessionAlarm` | packages/effect-durable-agent-cloudflare/src/durable-object-alarm-handler.ts:43-83 | Wherever the handler dies and whatever other calls come in while it waits, a wakeup it found is gone exactly when its owner's work succeeded without a later re-arm, the builder is disabled or reached its failure limit, or the owner's own last call gave it up; a failed runtime rethrows without syncing |
| `Alarms.WakeupGoesExactly` | packages/effect-durable-agent-cloudflare/src/durable-object-alarm-handler.ts:43-83 | The same condition over every schedule of calls and outcomes, for each owner and both ways |
| `Alarms.RuntimeRowExactly` | packages/effect-durable-agent-cloudflare/src/durable-object-alarm-handler.ts:48-55 | The runtime's wakeup after its part is what its own calls left, but none when its work succeeded and that wakeup is not later than the one it ran for |
| `Alarms.TranscriptRowExactly` | packages/effect-durable-agent-cloudflare/src/durable-object-alarm-handler.ts:56-80 | The builder's wakeup after the handler: none when it is disabled, done with nothing later or at its failure limit; at once with no failures when it has more to do; one failure more and after the delay when it failed; otherwise what its own calls left |
| `Alarms.DelayExactly` | packages/effect-durable-agent-cloudflare/src/durable-object-alarm-handler.ts:66-76 | The delay is the first one, doubled for each consecutive failure after the first, an hour at most |
| `Alarms.IdleHeartbeatLosesItsRetry` | packages/effect-durable-agent-cloudflare/src/durable-object-keepalive.ts:201-212 | An idle heartbeat deletes its own wakeup before its sync is over: if the object dies there or the sync is refused, every retry is the builder's alone |
| `Alarms.RetryIsAttributed` | packages/effect-durable-agent-cloudflare/src/durable-object-alarm-handler.ts:34-36 | An owner the alarm fired for whose work did not finish is due again at the retry, provided it made no call meanwhile but requests |
| `Alarms.NeverRetriedExactly` | packages/effect-durable-agent-cloudflare/src/durable-object-alarm-handler.ts:34-36 | An owner the alarm fired for whose work did not finish is due at no later alarm exactly when its own last call deleted its wakeup |
| `Alarms.LaterRearmSurvives` | packages/effect-durable-agent-cloudflare/src/durable-object-alarm-handler.ts:47-83 | A wakeup the runtime re-armed for later during its work is there, at that time, however the rest of the handler goes or dies |
| `Alarms.PartsLeaveOthers` | packages/effect-durable-agent-cloudflare/src/durable-object-alarms.ts:41-55 | After either part of the handler every other owner's wakeup is what that owner's own calls made of it, whatever else was called |
| `Alarms.ActiveHeartbeatStaysExactly` | packages/effect-durable-agent-cloudflare/src/durable-object-keepalive.ts:201-212 | A heartbeat with work left is armed within its interval after its successful alarm exactly when the alarm did not come before its wakeup's time |
| `Alarms.BackoffDoubles` | packages/effect-durable-agent-cloudflare/src/durable-object-alarm-handler.ts:26-42 | The builder's retry delay doubles with each failure up to one hour and never decreases |
| `KeepAlive.DurableObjectKeepAlive.Acquire` | packages/effect-durable-agent-cloudflare/src/durable-object-keepalive.ts:85-117 | A lease of the current generation is counted, none after shutdown; the count is always the number of unreleased leases of the current generation |
| `KeepAlive.DurableObjectKeepAlive.Release` | packages/effect-durable-agent-cloudflare/src/durable-object-keepalive.ts:85-117 | Releasing counts once, and only in the lease's own generation |
| `KeepAlive.DurableObjectKeepAlive.Shutdown` | packages/effect-durable-agent-cloudflare/src/durable-object-keepalive.ts:172-179 | No lease handed out before counts any more |
| `KeepAlive.DurableObjectKeepAlive.StartSync` | packages/effect-durable-agent-cloudflare/src/durable-object-keepalive.ts:186-212 | An armed alarm is removed only on shutdown, or when idle by the alarm handler's own update; a refused call changes nothing |
| `KeepAlive.DurableObjectKeepAlive.FinishSync` | packages/effect-durable-agent-cloudflare/src/durable-object-keepalive.ts:186-212 | Setting the alarm never postpones an armed one |
| `KeepAlive.DurableObjectKeepAlive.Drain` | packages/effect-durable-agent-cloudflare/src/durable-object-keepalive.ts:186-212 | Whichever calls the platform refuses, queued updates never postpone or remove the alarm while there is work, and one update that goes through leaves it armed within the interval |
| `KeepAlive.OpenAfterRelease` | packages/effect-durable-agent-cloudflare/src/durable-object-keepalive.ts:85-117 | Releasing an open lease lowers the number of open leases by one, releasing any other changes nothing |
| `SinkInbox.Inbox.OfferEphemeral` | packages/effect-durable-agent/src/services/sink-inbox.ts:39-52 | An update is accepted exactly within the count and byte limits, and then queued last |
| `SinkInbox.Inbox.Poll` | packages/effect-durable-agent/src/services/sink-inbox.ts:54-70 | Updates behind the cursor are dropped; then durables up to the first barrier, the barrier itself, or the head |
| `SinkInbox.SinkLane.StartNext` | packages/effect-durable-agent/src/services/sink-registry.ts:484-499 | With commits and updates arriving at any moment, also during a page: what was accepted is what was delivered, what is being processed and what is queued, in this order, and every started step makes progress |
| `SinkInbox.SinkLane.Finish` | packages/effect-durable-agent/src/services/sink-registry.ts:447-464 | A finished page is delivered position by position and moves the cursor, an update leaves it, and each delivery fits those before it |
| `SinkInbox.SinkLane.CatchUp` | packages/effect-durable-agent/src/services/sink-inbox.ts:27-70 | With nothing else arriving the lane delivers everything accepted, once and in order, and reaches the head |
| `SinkInbox.InOrderAt` | packages/effect-durable-agent/src/services/sink-inbox.ts:54-70 | In an ordered delivery each item fits what came before it |

## Left out

- Dispatch.PromotionKeepsSteersOwned: claims nothing while a run or a recovery reservation is open, because waiting steers then belong to that run or reservation and not to a pending command; the batch it speaks of is the one the session state appends (packages/effect-durable-agent/src/services/session-state.ts:2200-2240), and nothing else of the session state is modelled.
- QueueProperties.RebaseKeepsOwnership: does not cover stop requests, because whether one is open is read through a command record that pruning may have removed; the code's behaviour is modelled (`Recovery.FoundExactly`) and no stability is claimed for it.
- StoreRefinement.CommittedEventsStayReadable: assumes no later event reuses a message, command or summary id, because the code then overwrites the sidecar row; the exact condition is `SqlStore.ReadBackExactly`.
- PromptProperties.ProjectionPairedExactly: says nothing of prompts with a call at part index 900 or above, where a result can tie with or pass the next message; `PromptProperties.CallAtLimitReachesNext` shows the limit is sharp.
- Alarms.RunSessionAlarm: makes no global claim that no retry comes sooner than the backoff, because a request may pull the builder's wakeup earlier.
- TranscriptStorage.TranscriptStore.RunSlices: takes the same refused statements in each slice, and lets nothing else run between slices; interleavings are covered by `TranscriptRuns.RunKeeps`.
- Transcript interpretation: a definition is an arbitrary partial step per event, with ordinals allocated inside it; record schemas, fingerprints, record kinds and mappings are not modelled.
- Transcript rows are grouped under their slot, except for their deletion (`TranscriptRows`), so the row index columns are not modelled; a window's selection, dependencies, body references and byte budget are some function of the cut that `TranscriptReads` gives.
- Transcript effects other than projection alerts (pending work, activation and served-changed notices), the missed-session alert, log incarnations and host observers.
- `TranscriptRuns.SliceFailed` does not ask why a slice failed; thrown errors are counted whatever their cause.
- Message, command and event bodies are opaque strings: schema encoding, JSON size limits, validation and event decoding failures during replay are parameters or absent.
- Event kinds that the fold treats alike are one kind with an outcome (the closing events of commands, runs and turns, and the pausing events); base-state events and other namespaces only move the position.
- Legacy attempt events are taken as already interpreted.
- Token usage is one counter per model instead of one per token class.
- A command admitted without a command id cannot be represented.
- Positions of synthetic tool results are real numbers, so floating-point rounding is not modelled.
- Pointer positions of a checkpoint are a set, so the order in which they are fetched is not modelled.
- Reducer checkpoint rows, reading committed events by position, and finding a command's admission.
- `activeTurnIdentityForCommand` and the other single-field readers of the folded state.
- Compaction sizes, the summary text, the executor and its retries: estimates are parameters.
- Reasoning and text options in prompt parts, other response part kinds, and provider prompt preparation in the inference runner; the conversion of response parts to assistant prompt parts is taken to map them one to one.
- KeepAlive fibers and the Effect scopes that hold leases; a lease is acquired and released by explicit calls.
- Sinks themselves: interests, projections, checkpoints, a runner that fails for good, encoding of updates and the byte count of an encoded update, which is a parameter.
- Turn and tool runners, websocket delivery, HTTP and RPC layers, tracing and provider adapters: only the events they append appear.
