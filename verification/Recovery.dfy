/** What startup recovery finds unfinished, and what it does with waiting messages. */
module Recovery {
  import opened Collections
  import opened Events
  import opened Records
  import opened CommandQueues
  import opened ReducedState
  import opened ReplayInvariants
  import opened QueueProperties

  // ---------------------------------------------------------------------------
  // Unfinished work
  // ---------------------------------------------------------------------------

  datatype RecoverableWork = RecoverableWork(
    activeCommands: seq<CommandRecord>,
    activeRuns: seq<RunRecord>,
    activeTurns: seq<TurnRecord>,
    activeInferences: seq<InferenceRecord>,
    openToolCalls: seq<ToolCallRecord>,
    runningToolCalls: seq<ToolCallRecord>,
    pendingStopRequests: seq<StopRequestRecord>,
    openCompactions: seq<CompactionRecord>)

  const NOTHING := RecoverableWork([], [], [], [], [], [], [], [])

  predicate ReservedCommand(request: Option<RequestRecord>, id: CommandId) {
    request.Some? && request.value.work.commandId == id
  }

  function ActiveCommands(request: Option<RequestRecord>): CommandRecord -> bool {
    (c: CommandRecord) => c.startedSeq.Some? && c.terminal.None? && !ReservedCommand(request, c.commandId)
  }

  predicate OpenRun(run: RunRecord) {
    run.terminal.None?
  }

  predicate OpenTurn(turn: TurnRecord) {
    turn.terminal.None?
  }

  predicate OpenInference(inference: InferenceRecord) {
    inference.terminal.None?
  }

  /** A created call the framework runs itself and that has not ended. */
  predicate OpenToolCall(t: ToolCallRecord) {
    && t.decision.Some? && t.decision.value.meta.Created? && !t.decision.value.meta.providerExecuted
    && t.terminal.None?
  }

  predicate RunningToolCall(t: ToolCallRecord) {
    t.startedSeq.Some?
  }

  predicate OpenStop(commands: Commands, stop: StopRequestRecord) {
    && stop.appliedSeq.None?
    && (commands.Has(stop.commandId) ==> commands.Get(stop.commandId).value.terminal.None?)
  }

  function OpenStops(commands: Commands): StopRequestRecord -> bool {
    (stop: StopRequestRecord) => OpenStop(commands, stop)
  }

  predicate OpenCompaction(c: CompactionRecord) {
    c.terminal.None?
  }

  function ClassifyRecoverableWork(r: Replay): RecoverableWork {
    var openToolCalls := Filter(r.toolCalls.Values(), OpenToolCall);
    RecoverableWork(
      Filter(r.commands.Values(), ActiveCommands(r.request)),
      Filter(r.runs.Values(), OpenRun),
      Filter(r.turns.Values(), OpenTurn),
      Filter(r.inferences.Values(), OpenInference),
      openToolCalls,
      Filter(openToolCalls, RunningToolCall),
      Filter(r.stopRequests.Values(), OpenStops(r.commands)),
      Filter(r.compactions.Values(), OpenCompaction))
  }

  /** One unfinished lifecycle, by kind and id. */
  datatype Unfinished =
    | UCommand(commandId: CommandId)
    | URun(runId: RunId)
    | UTurn(turnId: TurnId)
    | UInference(inferenceId: InferenceId)
    | UToolCall(toolCallId: ToolCallId)
    | UStop(stopId: CommandId)
    | UCompaction(compactionId: CompactionId)

  ghost predicate HasKey<K(!new), V(!new)>(xs: seq<V>, key: V -> K, k: K) {
    exists x :: x in xs && key(x) == k
  }

  function CommandKey(): CommandRecord -> string {
    (x: CommandRecord) => x.commandId
  }

  function RunKey(): RunRecord -> string {
    (x: RunRecord) => x.runId
  }

  function TurnKey(): TurnRecord -> string {
    (x: TurnRecord) => x.turnId
  }

  function InferenceKey(): InferenceRecord -> string {
    (x: InferenceRecord) => x.inferenceId
  }

  function ToolCallKey(): ToolCallRecord -> string {
    (x: ToolCallRecord) => x.toolCallId
  }

  function StopKey(): StopRequestRecord -> string {
    (x: StopRequestRecord) => x.commandId
  }

  function CompactionKey(): CompactionRecord -> string {
    (x: CompactionRecord) => x.compactionId
  }

  ghost predicate Found(w: RecoverableWork, u: Unfinished) {
    match u
    case UCommand(id) => HasKey(w.activeCommands, CommandKey(), id)
    case URun(id) => HasKey(w.activeRuns, RunKey(), id)
    case UTurn(id) => HasKey(w.activeTurns, TurnKey(), id)
    case UInference(id) => HasKey(w.activeInferences, InferenceKey(), id)
    case UToolCall(id) => HasKey(w.openToolCalls, ToolCallKey(), id)
    case UStop(id) => HasKey(w.pendingStopRequests, StopKey(), id)
    case UCompaction(id) => HasKey(w.openCompactions, CompactionKey(), id)
  }

  /** The lifecycle is unfinished in the records. */
  ghost predicate Open(r: Replay, u: Unfinished) {
    match u
    case UCommand(id) =>
      && r.commands.Has(id) && r.commands.Get(id).value.startedSeq.Some? && r.commands.Get(id).value.terminal.None?
      && (r.request.None? || r.request.value.work.commandId != id)
    case URun(id) => r.runs.Has(id) && r.runs.Get(id).value.terminal.None?
    case UTurn(id) => r.turns.Has(id) && r.turns.Get(id).value.terminal.None?
    case UInference(id) => r.inferences.Has(id) && r.inferences.Get(id).value.terminal.None?
    case UToolCall(id) => r.toolCalls.Has(id) && CallsOut(r.toolCalls.Get(id).value)
    case UStop(id) =>
      && r.stopRequests.Has(id) && r.stopRequests.Get(id).value.appliedSeq.None?
      && (r.commands.Has(id) ==> r.commands.Get(id).value.terminal.None?)
    case UCompaction(id) => r.compactions.Has(id) && r.compactions.Get(id).value.terminal.None?
  }

  /** The framework created the call to run it itself, and it has not ended. */
  predicate CallsOut(t: ToolCallRecord) {
    match t.decision
    case Some(ToolDecision(Created(_, _, _, _, _, _, providerExecuted), _, _)) => !providerExecuted && t.terminal.None?
    case _ => false
  }

  /** A record of a map keyed by its own id is found by a filter over the values exactly when the map holds it. */
  lemma {:induction false} FoundByKey<K(!new), V(!new)>(m: OMap<K, V>, key: V -> K, keep: V -> bool, k: K)
    requires m.Unique() && forall j :: m.Has(j) ==> key(m.Get(j).value) == j
    ensures HasKey(Filter(m.Values(), keep), key, k) <==> m.Has(k) && keep(m.Get(k).value)
  {
    if x :| x in Filter(m.Values(), keep) && key(x) == k {
      var j := ValueHasKey(m, x);
    }
    if m.Has(k) && keep(m.Get(k).value) {
      assert m.Get(k).value in Filter(m.Values(), keep);
    }
  }

  lemma {:induction false} FoundExactly(r: Replay, u: Unfinished)
    requires Keyed(r)
    ensures Found(ClassifyRecoverableWork(r), u) <==> Open(r, u)
  {
    match u
    case UCommand(id) => FoundByKey(r.commands, CommandKey(), ActiveCommands(r.request), id);
    case URun(id) => FoundByKey(r.runs, RunKey(), OpenRun, id);
    case UTurn(id) => FoundByKey(r.turns, TurnKey(), OpenTurn, id);
    case UInference(id) => FoundByKey(r.inferences, InferenceKey(), OpenInference, id);
    case UToolCall(id) => FoundByKey(r.toolCalls, ToolCallKey(), OpenToolCall, id);
    case UStop(id) => FoundByKey(r.stopRequests, StopKey(), OpenStops(r.commands), id);
    case UCompaction(id) => FoundByKey(r.compactions, CompactionKey(), OpenCompaction, id);
  }

  /** Of the calls found, those that started are running. */
  lemma {:induction false} RunningExactly(r: Replay, id: ToolCallId)
    requires Keyed(r)
    ensures HasKey(ClassifyRecoverableWork(r).runningToolCalls, ToolCallKey(), id)
            <==> Open(r, UToolCall(id)) && r.toolCalls.Get(id).value.startedSeq.Some?
  {
    var both := (t: ToolCallRecord) => OpenToolCall(t) && RunningToolCall(t);
    FilterTwice(r.toolCalls.Values(), OpenToolCall, RunningToolCall, both);
    FoundByKey(r.toolCalls, ToolCallKey(), both, id);
  }

  // ---------------------------------------------------------------------------
  // Closing what was found
  // ---------------------------------------------------------------------------

  /** Events that end a lifecycle. */
  predicate Closing(p: Payload) {
    || p.CommandClosed? || p.RunClosed? || p.TurnClosed? || p.InferenceCompleted? || p.InferenceFailed?
    || p.ToolCallCompleted? || p.ToolCallFailed? || p.StopTurnApplied? || p.CompactionCompleted? || p.CompactionFailed?
  }

  /** The event ends that lifecycle; a stop request ends when applied or when its command does. */
  predicate Ends(p: Payload, u: Unfinished) {
    match u
    case UCommand(id) => p.CommandClosed? && p.commandId == id
    case URun(id) => p.RunClosed? && p.runId == id
    case UTurn(id) => p.TurnClosed? && p.turnId == id
    case UInference(id) => (p.InferenceCompleted? || p.InferenceFailed?) && p.inferenceId == id
    case UToolCall(id) => (p.ToolCallCompleted? || p.ToolCallFailed?) && p.toolCallId == id
    case UStop(id) => (p.StopTurnApplied? || p.CommandClosed?) && p.commandId == id
    case UCompaction(id) => (p.CompactionCompleted? || p.CompactionFailed?) && p.compactionId == id
  }

  lemma {:induction false} ClosingCommands(m: Commands, e: Committed, id: CommandId)
    requires Closing(e.event.payload)
    requires ApplyCommands(m, e).Has(id) && ApplyCommands(m, e).Get(id).value.terminal.None?
    ensures m.Has(id) && m.Get(id) == ApplyCommands(m, e).Get(id)
    ensures !(e.event.payload.CommandClosed? && e.event.payload.commandId == id)
  {
  }

  lemma {:induction false} ClosedCommandStaysClosed(m: Commands, e: Committed, id: CommandId)
    requires Closing(e.event.payload)
    requires ApplyCommands(m, e).Has(id) ==> ApplyCommands(m, e).Get(id).value.terminal.None?
    ensures m.Has(id) ==> m.Get(id).value.terminal.None?
    ensures !(e.event.payload.CommandClosed? && e.event.payload.commandId == id)
  {
  }

  lemma {:induction false} ClosingRuns(runs: Runs, turns: Turns, e: Committed, runId: RunId, turnId: TurnId)
    requires Closing(e.event.payload)
    ensures ApplyRuns(runs, e).Has(runId) && OpenRun(ApplyRuns(runs, e).Get(runId).value) ==>
              runs.Has(runId) && OpenRun(runs.Get(runId).value) && !Ends(e.event.payload, URun(runId))
    ensures ApplyTurns(turns, e).Has(turnId) && OpenTurn(ApplyTurns(turns, e).Get(turnId).value) ==>
              turns.Has(turnId) && OpenTurn(turns.Get(turnId).value) && !Ends(e.event.payload, UTurn(turnId))
  {
  }

  lemma {:induction false} ClosingInferences(m: Inferences, e: Committed, id: InferenceId)
    requires Closing(e.event.payload)
    requires ApplyInferences(m, e).Has(id) && OpenInference(ApplyInferences(m, e).Get(id).value)
    ensures m.Has(id) && OpenInference(m.Get(id).value) && !Ends(e.event.payload, UInference(id))
  {
  }

  lemma {:induction false} ClosingToolCalls(m: ToolCalls, e: Committed, id: ToolCallId)
    requires Closing(e.event.payload)
    requires ApplyToolCalls(m, e).Has(id) && OpenToolCall(ApplyToolCalls(m, e).Get(id).value)
    ensures m.Has(id) && OpenToolCall(m.Get(id).value) && !Ends(e.event.payload, UToolCall(id))
  {
  }

  lemma {:induction false} ClosingStops(m: StopRequests, e: Committed, id: CommandId)
    requires Closing(e.event.payload)
    requires ApplyStopRequests(m, e).Has(id) && ApplyStopRequests(m, e).Get(id).value.appliedSeq.None?
    ensures m.Get(id) == ApplyStopRequests(m, e).Get(id)
    ensures !(e.event.payload.StopTurnApplied? && e.event.payload.commandId == id)
  {
  }

  lemma {:induction false} ClosingCompactions(m: Compactions, context: ContextRecord, e: Committed, id: CompactionId)
    requires Closing(e.event.payload)
    requires ApplyCompactions(m, context, e).Has(id) && OpenCompaction(ApplyCompactions(m, context, e).Get(id).value)
    ensures m.Has(id) && OpenCompaction(m.Get(id).value) && !Ends(e.event.payload, UCompaction(id))
  {
  }

  /** A closing event opens nothing, and ends what it names. */
  lemma {:induction false} ClosingStep(r: Replay, e: Committed, u: Unfinished)
    requires Keyed(r) && Closing(e.event.payload)
    requires Open(Apply(r, e), u)
    ensures Open(r, u) && !Ends(e.event.payload, u)
  {
    ApplyKeepsKeys(r, e);
    match u
    case UCommand(id) => ClosingCommands(r.commands, e, id);
    case URun(id) => ClosingRuns(r.runs, r.turns, e, id, "");
    case UTurn(id) => ClosingRuns(r.runs, r.turns, e, "", id);
    case UInference(id) => ClosingInferences(r.inferences, e, id);
    case UToolCall(id) => ClosingToolCalls(r.toolCalls, e, id);
    case UStop(id) =>
      ClosingStops(r.stopRequests, e, id);
      ClosedCommandStaysClosed(r.commands, e, id);
    case UCompaction(id) => ClosingCompactions(r.compactions, r.context, e, id);
  }

  lemma {:induction false} ClosingFold(r: Replay, batch: seq<Committed>, u: Unfinished)
    requires Keyed(r)
    requires forall e :: e in batch ==> Closing(e.event.payload)
    ensures Keyed(FoldReplay(r, batch))
    ensures Open(FoldReplay(r, batch), u) ==> Open(r, u) && forall e :: e in batch ==> !Ends(e.event.payload, u)
  {
    if batch != [] {
      var front, last := batch[..|batch| - 1], batch[|batch| - 1];
      assert batch == front + [last];
      ClosingFold(r, front, u);
      ApplyKeepsKeys(FoldReplay(r, front), last);
      if Open(FoldReplay(r, batch), u) {
        ClosingStep(FoldReplay(r, front), last, u);
      }
    }
  }

  lemma {:induction false} FirstHasKey<K(!new), V(!new)>(xs: seq<V>, key: V -> K)
    requires xs != []
    ensures HasKey(xs, key, key(xs[0]))
  {
    assert xs[0] in xs;
  }

  lemma {:induction false} SomethingFound(w: RecoverableWork) returns (u: Unfinished)
    requires w != NOTHING
    requires |w.runningToolCalls| <= |w.openToolCalls|
    ensures Found(w, u)
  {
    if w.activeCommands != [] {
      u := UCommand(w.activeCommands[0].commandId);
      FirstHasKey(w.activeCommands, CommandKey());
    } else if w.activeRuns != [] {
      u := URun(w.activeRuns[0].runId);
      FirstHasKey(w.activeRuns, RunKey());
    } else if w.activeTurns != [] {
      u := UTurn(w.activeTurns[0].turnId);
      FirstHasKey(w.activeTurns, TurnKey());
    } else if w.activeInferences != [] {
      u := UInference(w.activeInferences[0].inferenceId);
      FirstHasKey(w.activeInferences, InferenceKey());
    } else if w.openToolCalls != [] {
      u := UToolCall(w.openToolCalls[0].toolCallId);
      FirstHasKey(w.openToolCalls, ToolCallKey());
    } else if w.pendingStopRequests != [] {
      u := UStop(w.pendingStopRequests[0].commandId);
      FirstHasKey(w.pendingStopRequests, StopKey());
    } else {
      u := UCompaction(w.openCompactions[0].compactionId);
      FirstHasKey(w.openCompactions, CompactionKey());
    }
  }

  /** Folding closing events, at least one for each record found, leaves nothing to recover. */
  lemma {:induction false} ClosingEveryFindingRecoversAll(r: Replay, batch: seq<Committed>)
    requires Keyed(r)
    requires forall e :: e in batch ==> Closing(e.event.payload)
    requires forall u :: Found(ClassifyRecoverableWork(r), u) ==> exists e :: e in batch && Ends(e.event.payload, u)
    ensures ClassifyRecoverableWork(FoldReplay(r, batch)) == NOTHING
  {
    var n := FoldReplay(r, batch);
    if ClassifyRecoverableWork(n) != NOTHING {
      var u := SomethingFound(ClassifyRecoverableWork(n));
      ClosingFold(r, batch, u);
      FoundExactly(n, u);
      FoundExactly(r, u);
    }
  }

  // ---------------------------------------------------------------------------
  // The recovery plan
  // ---------------------------------------------------------------------------

  datatype Continuing = Continuing(command: CommandRecord, run: RunRecord, inputMessageIds: seq<MessageId>)

  datatype RecoveryPlan = RecoveryPlan(
    work: RecoverableWork,
    messageIdsToPause: seq<MessageId>,
    messageIdsToResume: seq<MessageId>,
    continuation: Option<Continuing>)

  /** The messages waiting to be picked up: queued ones, then steers. */
  function PendingMessages(q: Queues): seq<PendingUserMessage> {
    q.pendingQueue + q.pendingSteers
  }

  predicate Applicable(stop: StopRequestRecord) {
    stop.requestedRunId.Some? && stop.requestedTurnId.Some?
  }

  predicate HasApplicableStop(w: RecoverableWork) {
    exists stop :: stop in w.pendingStopRequests && Applicable(stop)
  }

  predicate Stopped(w: RecoverableWork, runId: RunId) {
    exists stop :: stop in w.pendingStopRequests && stop.requestedRunId == Some(runId)
  }

  function UnstoppedRunOf(w: RecoverableWork, commandId: CommandId): RunRecord -> bool {
    (run: RunRecord) => !Stopped(w, run.runId) && commandId in run.commandIds
  }

  predicate RunsMessages(c: Option<Command>) {
    c.Some? && (c.value.SubmitMessage? || c.value.ResumePendingMessages?)
  }

  function Continuable(w: RecoverableWork): CommandRecord -> bool {
    (c: CommandRecord) =>
      RunsMessages(c.command) && exists run :: run in w.activeRuns && UnstoppedRunOf(w, c.commandId)(run)
  }

  function ContinuationCommand(w: RecoverableWork): Option<CommandRecord> {
    if HasApplicableStop(w) then None else Find(w.activeCommands, Continuable(w))
  }

  function ContinuationRun(w: RecoverableWork): Option<RunRecord> {
    var command := ContinuationCommand(w);
    if command.None? then None else Find(w.activeRuns, UnstoppedRunOf(w, command.value.commandId))
  }

  function FromCommand(commandId: CommandId): PendingUserMessage -> bool {
    (m: PendingUserMessage) => m.commandId == commandId
  }

  function AmongIds(ms: seq<PendingUserMessage>): MessageId -> bool {
    (id: MessageId) => id in MapSeq(ms, IdOf)
  }

  function SourceMessageIds(q: Queues, command: Option<CommandRecord>): seq<MessageId> {
    if command.None? then []
    else if command.value.command.Some? && command.value.command.value.ResumePendingMessages? then
      Filter(command.value.command.value.messageIds, AmongIds(PendingMessages(q)))
    else MapSeq(Filter(PendingMessages(q), FromCommand(command.value.commandId)), IdOf)
  }

  predicate SharesCommand(runs: Runs, target: RunId, run: RunRecord) {
    runs.Has(target) && exists id :: id in run.commandIds && id in runs.Get(target).value.commandIds
  }

  function AimedAt(runs: Runs, run: RunRecord): PendingUserMessage -> bool {
    (m: PendingUserMessage) =>
      m.targetRunId.None? || m.targetRunId.value == run.runId || SharesCommand(runs, m.targetRunId.value, run)
  }

  function EligibleSteerIds(q: Queues, runs: Runs, run: Option<RunRecord>): seq<MessageId> {
    if run.None? then [] else MapSeq(Filter(q.pendingSteers, AimedAt(runs, run.value)), IdOf)
  }

  predicate PendingOrigin(q: Queues, m: PendingUserMessage) {
    exists c :: c in q.pendingCommands && c.commandId == m.commandId
  }

  predicate ResumeOwned(s: State, id: MessageId) {
    || (exists c :: c in s.replay.commands.Values() && c.terminal.None? && c.command.Some?
                    && c.command.value.ResumePendingMessages? && id in c.command.value.messageIds)
    || (exists c :: c in s.queues.pendingCommands && c.command.ResumePendingMessages? && id in c.command.messageIds)
  }

  predicate Reserved(request: Option<RequestRecord>, id: MessageId) {
    request.Some? && request.value.work.RecoveryWork? && id in request.value.work.inputMessageIds
  }

  function LeftToResume(s: State, paused: seq<MessageId>, continued: seq<MessageId>): PendingUserMessage -> bool {
    (m: PendingUserMessage) =>
      && m.messageId !in paused
      && m.messageId !in continued
      && !Reserved(s.replay.request, m.messageId)
      && !PendingOrigin(s.queues, m)
      && !ResumeOwned(s, m.messageId)
  }

  function PlanSessionRecovery(s: State): RecoveryPlan {
    var w, q := ClassifyRecoverableWork(s.replay), s.queues;
    var paused := if HasApplicableStop(w) then MapSeq(PendingMessages(q), IdOf) else [];
    var command, run := ContinuationCommand(w), ContinuationRun(w);
    var inputs := Distinct(SourceMessageIds(q, command) + EligibleSteerIds(q, s.replay.runs, run));
    RecoveryPlan(
      w, paused, MapSeq(Filter(q.pendingSteers, LeftToResume(s, paused, inputs)), IdOf),
      if command.Some? && run.Some? then Some(Continuing(command.value, run.value, inputs)) else None)
  }

  function ContinuedInputs(p: RecoveryPlan): seq<MessageId> {
    if p.continuation.Some? then p.continuation.value.inputMessageIds else []
  }

  /** A command chosen to continue always has its run. */
  lemma {:induction false} ContinuationHasRun(w: RecoverableWork)
    ensures ContinuationCommand(w).Some? <==> ContinuationRun(w).Some?
  {
    var command := ContinuationCommand(w);
    if command.Some? {
      var run :| run in w.activeRuns && UnstoppedRunOf(w, command.value.commandId)(run);
    }
  }

  lemma {:induction false} IdsInMap(ms: seq<PendingUserMessage>, id: MessageId)
    ensures id in MapSeq(ms, IdOf) <==> exists m :: m in ms && m.messageId == id
  {
    var ids := MapSeq(ms, IdOf);
    if id in ids {
      var i :| 0 <= i < |ids| && ids[i] == id;
      assert ms[i] in ms;
    }
    if m :| m in ms && m.messageId == id {
      var i :| 0 <= i < |ms| && ms[i] == m;
      assert ids[i] == id;
    }
  }

  lemma {:induction false} DistinctIds(ms: seq<PendingUserMessage>)
    requires DistinctBy(ms, IdOf)
    ensures NoDuplicates(MapSeq(ms, IdOf))
  {
  }

  /** The queues of a keyed state list no message twice. */
  lemma {:induction false} PendingDistinct(s: State)
    requires MessagesKeyed(s.replay.messages) && s == WithQueues(s.replay)
    ensures DistinctBy(PendingMessages(s.queues), IdOf)
    ensures DistinctBy(s.queues.pendingSteers, IdOf)
  {
    WaitingDistinct(s.replay.messages);
    var sorted := PendingUserMessages(s.replay.messages.Values());
    SortKeepsDistinct(WaitingMessages(s.replay.messages), EarlierEffect, IdOf);
    FilterKeepsDistinct(sorted, IsPendingQueue, IdOf);
    FilterKeepsDistinct(sorted, IsPendingSteer, IdOf);
    forall a, b | a in s.queues.pendingQueue && b in s.queues.pendingSteers ensures a.messageId != b.messageId {
      WaitingMembership(s.replay.messages, a);
      WaitingMembership(s.replay.messages, b);
    }
    var all, n := PendingMessages(s.queues), |s.queues.pendingQueue|;
    forall i, j | 0 <= i < j < |all| ensures IdOf(all[i]) != IdOf(all[j]) {
      if i < n <= j {
        assert all[i] in s.queues.pendingQueue && all[j] in s.queues.pendingSteers;
      }
    }
  }

  /** Pause, resume and continuation inputs: no message is listed twice, in one list or in two. */
  lemma {:induction false} PlanListsAreDisjoint(s: State)
    requires MessagesKeyed(s.replay.messages) && s == WithQueues(s.replay)
    ensures var p := PlanSessionRecovery(s);
            NoDuplicates(p.messageIdsToPause + p.messageIdsToResume + ContinuedInputs(p))
  {
    var p := PlanSessionRecovery(s);
    var w, q := p.work, s.queues;
    PendingDistinct(s);
    DistinctIds(PendingMessages(q));
    ContinuationHasRun(w);
    var command, run := ContinuationCommand(w), ContinuationRun(w);
    var inputs := Distinct(SourceMessageIds(q, command) + EligibleSteerIds(q, s.replay.runs, run));
    assert HasApplicableStop(w) ==> p.continuation.None?;
    var left := Filter(q.pendingSteers, LeftToResume(s, p.messageIdsToPause, inputs));
    FilterKeepsDistinct(q.pendingSteers, LeftToResume(s, p.messageIdsToPause, inputs), IdOf);
    DistinctIds(left);
    forall id | id in p.messageIdsToResume ensures id !in p.messageIdsToPause && id !in inputs {
      IdsInMap(left, id);
    }
    DisjointJoin(p.messageIdsToPause, p.messageIdsToResume, ContinuedInputs(p));
  }

  lemma {:induction false} DisjointJoin(a: seq<MessageId>, b: seq<MessageId>, c: seq<MessageId>)
    requires NoDuplicates(a) && NoDuplicates(b) && NoDuplicates(c)
    requires forall id :: id in b ==> id !in a && id !in c
    requires a == [] || c == []
    ensures NoDuplicates(a + b + c)
  {
    var all := a + b + c;
    forall i, j | 0 <= i < j < |all| ensures all[i] != all[j] {
      if i < |a| {
        assert all[i] == a[i];
        assert j >= |a| ==> all[j] in b;
      } else if i < |a| + |b| {
        assert all[i] == b[i - |a|] && all[i] in b;
        assert j >= |a| + |b| ==> all[j] in c;
      }
    }
  }

  /** No waiting steer is forgotten: recovery pauses, continues or resumes it, or something pending already owns it. */
  lemma {:induction false} EverySteerIsAccountedFor(s: State, m: PendingUserMessage)
    requires m in s.queues.pendingSteers
    ensures var p := PlanSessionRecovery(s);
            || m.messageId in p.messageIdsToPause
            || m.messageId in ContinuedInputs(p)
            || m.messageId in p.messageIdsToResume
            || Reserved(s.replay.request, m.messageId)
            || ResumeOwned(s, m.messageId)
            || PendingOrigin(s.queues, m)
  {
    var p := PlanSessionRecovery(s);
    var w, q := p.work, s.queues;
    ContinuationHasRun(w);
    var command, run := ContinuationCommand(w), ContinuationRun(w);
    var inputs := Distinct(SourceMessageIds(q, command) + EligibleSteerIds(q, s.replay.runs, run));
    var left := Filter(q.pendingSteers, LeftToResume(s, p.messageIdsToPause, inputs));
    if m in left {
      IdsInMap(left, m.messageId);
    }
  }

  /** Everything waiting is paused exactly when a stop can be applied; otherwise the steers nothing runs are resumed. */
  lemma {:induction false} PauseOrResumeExactly(s: State, id: MessageId)
    ensures var p := PlanSessionRecovery(s);
            && (id in p.messageIdsToPause <==> HasApplicableStop(p.work) && exists m ::
              m in PendingMessages(s.queues)
              && m.messageId == id)
            && (id in p.messageIdsToResume <==>
                  && !HasApplicableStop(p.work) && id !in ContinuedInputs(p)
                  && !Reserved(s.replay.request, id) && !ResumeOwned(s, id)
                  && exists m :: m in s.queues.pendingSteers && m.messageId == id && !PendingOrigin(s.queues, m))
  {
    var p := PlanSessionRecovery(s);
    var w, q := p.work, s.queues;
    ContinuationHasRun(w);
    var inputs := Distinct(SourceMessageIds(q, ContinuationCommand(w))
      + EligibleSteerIds(q, s.replay.runs, ContinuationRun(w)));
    var left := Filter(q.pendingSteers, LeftToResume(s, p.messageIdsToPause, inputs));
    IdsInMap(PendingMessages(q), id);
    IdsInMap(left, id);
    if m :| m in q.pendingSteers && m.messageId == id {
      assert m in PendingMessages(q);
    }
  }

  /** The command runs messages and one of its runs is open with no stop asked of it. */
  ghost predicate CanContinue(w: RecoverableWork, c: CommandRecord, run: RunRecord) {
    && c in w.activeCommands && RunsMessages(c.command)
    && run in w.activeRuns && c.commandId in run.commandIds
    && !exists stop :: stop in w.pendingStopRequests && stop.requestedRunId == Some(run.runId)
  }

  /** A continuation is planned exactly when no stop can be applied and some active command can go on. */
  lemma {:induction false} ContinuesExactly(s: State)
    ensures var p := PlanSessionRecovery(s);
            && (p.continuation.Some? <==> !HasApplicableStop(p.work) && exists c, run :: CanContinue(p.work, c, run))
            && (p.continuation.Some? ==> CanContinue(p.work, p.continuation.value.command, p.continuation.value.run))
  {
    var w := ClassifyRecoverableWork(s.replay);
    ContinuationHasRun(w);
    if c, run :| CanContinue(w, c, run) {
      assert UnstoppedRunOf(w, c.commandId)(run) && Continuable(w)(c);
    }
    var command, run := ContinuationCommand(w), ContinuationRun(w);
    if command.Some? {
      assert CanContinue(w, command.value, run.value);
    }
  }

  /** The message is the command's to run: named by it when it resumes messages, else submitted by it. */
  predicate SourceOf(command: CommandRecord, m: PendingUserMessage) {
    if command.command.Some? && command.command.value.ResumePendingMessages?
      then m.messageId in command.command.value.messageIds
    else m.commandId == command.commandId
  }

  /** The continued inputs are exactly the waiting messages of the command and the waiting steers meant for its run. */
  lemma {:induction false} ContinuedInputsExactly(s: State, id: MessageId)
    requires PlanSessionRecovery(s).continuation.Some?
    ensures var p := PlanSessionRecovery(s);
            var c := p.continuation.value;
            id in c.inputMessageIds <==>
            || (exists m :: m in PendingMessages(s.queues) && m.messageId == id && SourceOf(c.command, m))
            || (exists m :: m in s.queues.pendingSteers && m.messageId == id && AimedAt(s.replay.runs, c.run)(m))
  {
    var p := PlanSessionRecovery(s);
    var q, c := s.queues, p.continuation.value;
    var source, steers := SourceMessageIds(q, Some(c.command)), EligibleSteerIds(q, s.replay.runs, Some(c.run));
    assert id in c.inputMessageIds <==> id in source || id in steers;
    IdsInMap(Filter(PendingMessages(q), FromCommand(c.command.commandId)), id);
    IdsInMap(PendingMessages(q), id);
    IdsInMap(Filter(q.pendingSteers, AimedAt(s.replay.runs, c.run)), id);
  }

  /** Both, for the state of any log: closing events recover everything, and the plan lists no message twice. */
  lemma {:induction false} RecoveryOfAnyLog(log: seq<Committed>, batch: seq<Committed>)
    requires forall e :: e in batch ==> Closing(e.event.payload)
    requires forall u :: Found(ClassifyRecoverableWork(Reduce(log).replay), u) ==>
             exists e :: e in batch && Ends(e.event.payload, u)
    ensures ClassifyRecoverableWork(Reduce(log + batch).replay) == NOTHING
    ensures var p := PlanSessionRecovery(Reduce(log)); NoDuplicates(p.messageIdsToPause + p.messageIdsToResume
            + ContinuedInputs(p))
  {
    FoldKeepsKeys(log);
    FoldAppend(GENESIS, log, batch);
    ClosingEveryFindingRecoversAll(Reduce(log).replay, batch);
    PlanListsAreDisjoint(Reduce(log));
  }
}
