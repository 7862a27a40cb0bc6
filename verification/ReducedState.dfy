/** The canonical replay state and the fold of durable events into it. */
module ReducedState {
  import opened Collections
  import opened Events
  import opened Records
  import opened CommandQueues

  type Recoveries = OrderedMap<RunId, ContinuationRecord>
  type Turns = OrderedMap<TurnId, TurnRecord>
  type Inferences = OrderedMap<InferenceId, InferenceRecord>
  type ToolCalls = OrderedMap<ToolCallId, ToolCallRecord>
  type StopRequests = OrderedMap<CommandId, StopRequestRecord>
  type Compactions = OrderedMap<CompactionId, CompactionRecord>
  type TokenConsumption = OrderedMap<Json, nat>

  /** Everything the fold keeps; the queues are derived from it. */
  datatype Replay = Replay(
    lastSeq: Seq,
    request: Option<RequestRecord>,
    model: Option<Json>,
    commands: Commands,
    runs: Runs,
    recoveries: Recoveries,
    turns: Turns,
    inferences: Inferences,
    toolCalls: ToolCalls,
    messages: Messages,
    stopRequests: StopRequests,
    compactions: Compactions,
    context: ContextRecord,
    tokens: TokenConsumption)

  datatype State = State(replay: Replay, queues: Queues)

  const GENESIS := Replay(0, None, None, Empty, Empty, Empty, Empty, Empty, Empty, Empty, Empty, Empty,
                          ContextRecord(0, None), Empty)

  function WithQueues(r: Replay): State {
    State(r, DeriveCommandQueues(r.commands, r.runs, r.messages))
  }

  // ---------------------------------------------------------------------------
  // Record updates
  // ---------------------------------------------------------------------------

  function CommandOf(m: Commands, id: CommandId): CommandRecord {
    if m.Has(id) then m.Get(id).value else CommandRecord(id, None, None, None, None, None)
  }

  function ToolCallOf(m: ToolCalls, id: ToolCallId): ToolCallRecord {
    if m.Has(id) then m.Get(id).value else ToolCallRecord(id, None, None, None, Timing(None, None, None), None)
  }

  function CompactionOf(m: Compactions, id: CompactionId): CompactionRecord {
    if m.Has(id) then m.Get(id).value
    else CompactionRecord(id, None, None, None, None, None, None, None, None, None)
  }

  function Max(a: int, b: int): int {
    if a < b then b else a
  }

  /** Duration is known once the start is. */
  function Closed(t: Timing, nowMs: int): Timing {
    t.(terminalAtMs := Some(nowMs),
       durationMs := if t.startedAtMs.Some? then Some(Max(0, nowMs - t.startedAtMs.value)) else t.durationMs)
  }

  function Started(nowMs: int): Timing {
    Timing(Some(nowMs), None, None)
  }

  function AddModelUsage(tokens: TokenConsumption, model: Option<Json>, usage: Option<nat>): TokenConsumption {
    if model.None? || usage.None? then tokens
    else
      var before := if tokens.Has(model.value) then tokens.Get(model.value).value else 0;
      tokens.Set(model.value, before + usage.value)
  }

  function PartText(parts: seq<PromptPart>, reasoning: bool): Json {
    if parts == [] then ""
    else
      var head :=
        match parts[0]
        case TextPart(text) => if reasoning then "" else text
        case ReasoningPart(text) => if reasoning then text else ""
        case _ => "";
      head + PartText(parts[1..], reasoning)
  }

  function AssistantBody(parts: seq<PromptPart>): MessageBody {
    var reasoning := PartText(parts, true);
    AssistantContent(PartText(parts, false), if reasoning == "" then None else Some(reasoning), Some(parts))
  }

  /** The record a message-creating event writes, whatever was there before. */
  function NewMessage(e: Committed): Option<MessageRecord> {
    var at, now := e.at, e.event.createdAtMs;
    match e.event.payload
    case SystemMessageCommitted(id, content) => Some(MessageRecord(System(id, now, at), Content(content)))
    case UserMessageCommitted(commandId, id, content) =>
      Some(MessageRecord(User(id, commandId, now, at, None, None, FRESH), Content(content)))
    case UserMessageSubmitted(commandId, id, disposition, content) =>
      Some(MessageRecord(User(id, commandId, now, at, Some(disposition), Some(disposition), FRESH), Content(content)))
    case SteeringMessageQueued(commandId, id, runId, content) =>
      Some(MessageRecord(Steering(id, commandId, runId, now, at, FRESH), Content(content)))
    case AssistantMessageCommitted(id, runId, turnId, inferenceId, parts) =>
      Some(MessageRecord(Assistant(id, runId, turnId, inferenceId, false, now, at), AssistantBody(parts)))
    case AssistantMessageImported(id, runId, turnId, inferenceId, parts) =>
      Some(MessageRecord(Assistant(id, runId, turnId, inferenceId, true, now, at), AssistantBody(parts)))
    case AssistantPartialCommitted(id, runId, turnId, inferenceId, parts, reason) =>
      Some(MessageRecord(AssistantPartial(id, runId, turnId, inferenceId, reason, now, at), AssistantBody(parts)))
    case _ => None
  }

  function Reaged(m: MessageRecord, life: Lifecycle): MessageRecord
    requires m.meta.Authored()
  {
    m.(meta :=
         match m.meta
         case User(id, commandId, now, at, requested, disposition, _) =>
           User(id, commandId, now, at, requested, disposition, life)
         case Steering(id, commandId, runId, now, at, _) => Steering(id, commandId, runId, now, at, life))
  }

  /** Authored messages named by a started turn are consumed by it. */
  function ConsumeMessages(messages: Messages, ids: seq<MessageId>, at: Seq, turnId: TurnId): Messages {
    if ids == [] then messages
    else
      var before, id := ConsumeMessages(messages, ids[..|ids| - 1], at, turnId), ids[|ids| - 1];
      if before.Has(id) && before.Get(id).value.meta.Authored() then
        var m := before.Get(id).value;
        before.Set(id, Reaged(m, m.meta.life.(consumedSeq := Some(at), consumedTurnId := Some(turnId))))
      else before
  }

  function Paused(m: MessageRecord, at: Seq, pauser: CommandId): MessageRecord
    requires m.meta.Waiting()
  {
    var r := Reaged(m, m.meta.life.(pausedSeq := Some(at), pausedByCommandId := Some(pauser)));
    if r.meta.User? then r.(meta := r.meta.(disposition := Some(Queue))) else r
  }

  /** Waiting messages named by a pause go to the queue, held by the pausing command. */
  function PauseMessages(messages: Messages, ids: seq<MessageId>, at: Seq, pauser: CommandId): Messages {
    if ids == [] then messages
    else
      var before, id := PauseMessages(messages, ids[..|ids| - 1], at, pauser), ids[|ids| - 1];
      if before.Has(id) && before.Get(id).value.meta.Waiting() then
        before.Set(id, Paused(before.Get(id).value, at, pauser))
      else before
  }

  predicate Promotable(m: MessageMeta) {
    || (m.User? && m.disposition == Some(Queue))
    || (m.Steering? && m.life.pausedByCommandId.Some?)
  }

  function Promoted(m: MessageRecord, at: Seq): MessageRecord
    requires Promotable(m.meta)
  {
    var r := Reaged(m, m.meta.life.(promotedSeq := Some(at), pausedSeq := None, pausedByCommandId := None));
    if r.meta.User? then r.(meta := r.meta.(disposition := Some(Steer))) else r
  }

  // ---------------------------------------------------------------------------
  // Pruning at a context rebase
  // ---------------------------------------------------------------------------

  predicate KeptTerminal(terminal: Option<Terminal>, from: Seq) {
    terminal.None? || from <= terminal.value.at
  }

  /** Steering leaves the model context by its consumption or cancellation, other messages by their own seq. */
  predicate KeptMessage(m: MessageRecord, from: Seq) {
    match m.meta
    case System(_, _, _) => true
    case Steering(_, _, _, _, _, life) =>
      var gone := OrElse(life.consumedSeq, life.cancelledSeq);
      gone.None? || from <= gone.value
    case _ => from <= m.meta.at
  }

  predicate KeptToolCall(t: ToolCallRecord, from: Seq) {
    t.terminal.None? || from <= t.terminal.value.meta.at
  }

  predicate KeptStopRequest(r: StopRequestRecord, from: Seq) {
    r.appliedSeq.None? || from <= r.appliedSeq.value
  }

  predicate KeptCompaction(c: CompactionRecord, summaryId: SummaryId) {
    c.terminal.None? || c.summaryId == Some(summaryId)
  }

  function KeptMessages(from: Seq): (MessageId, MessageRecord) -> bool {
    (_: MessageId, r: MessageRecord) => KeptMessage(r, from)
  }

  function PruneMessages(m: Messages, from: Seq): Messages {
    m.Filter(KeptMessages(from))
  }

  function KeptToolCalls(from: Seq): (ToolCallId, ToolCallRecord) -> bool {
    (_: ToolCallId, r: ToolCallRecord) => KeptToolCall(r, from)
  }

  function PruneToolCalls(m: ToolCalls, from: Seq): ToolCalls {
    m.Filter(KeptToolCalls(from))
  }

  function KeptInferences(from: Seq): (InferenceId, InferenceRecord) -> bool {
    (_: InferenceId, r: InferenceRecord) => KeptTerminal(r.terminal, from)
  }

  function PruneInferences(m: Inferences, from: Seq): Inferences {
    m.Filter(KeptInferences(from))
  }

  function KeptTurns(from: Seq): (TurnId, TurnRecord) -> bool {
    (_: TurnId, r: TurnRecord) => KeptTerminal(r.terminal, from)
  }

  function PruneTurns(m: Turns, from: Seq): Turns {
    m.Filter(KeptTurns(from))
  }

  function KeptRuns(from: Seq): (RunId, RunRecord) -> bool {
    (_: RunId, r: RunRecord) => KeptTerminal(r.terminal, from)
  }

  function PruneRuns(m: Runs, from: Seq): Runs {
    m.Filter(KeptRuns(from))
  }

  function KeptRecoveries(runs: Runs): (RunId, ContinuationRecord) -> bool {
    (replacement: RunId, _: ContinuationRecord) => runs.Has(replacement)
  }

  function PruneRecoveries(m: Recoveries, runs: Runs): Recoveries {
    m.Filter(KeptRecoveries(runs))
  }

  function KeptCommands(from: Seq): (CommandId, CommandRecord) -> bool {
    (_: CommandId, r: CommandRecord) => KeptTerminal(r.terminal, from)
  }

  function PruneCommands(m: Commands, from: Seq): Commands {
    m.Filter(KeptCommands(from))
  }

  function KeptStopRequests(from: Seq): (CommandId, StopRequestRecord) -> bool {
    (_: CommandId, r: StopRequestRecord) => KeptStopRequest(r, from)
  }

  function PruneStopRequests(m: StopRequests, from: Seq): StopRequests {
    m.Filter(KeptStopRequests(from))
  }

  function KeptCompactions(summaryId: SummaryId): (CompactionId, CompactionRecord) -> bool {
    (_: CompactionId, r: CompactionRecord) => KeptCompaction(r, summaryId)
  }

  function PruneCompactions(m: Compactions, summaryId: SummaryId): Compactions {
    m.Filter(KeptCompactions(summaryId))
  }

  // ---------------------------------------------------------------------------
  // One event, component by component
  // ---------------------------------------------------------------------------

  function CloseRequest(request: Option<RequestRecord>, id: RequestId): Option<RequestRecord> {
    if request.Some? && request.value.requestId == id then None else request
  }

  function ApplyRequest(request: Option<RequestRecord>, e: Committed): Option<RequestRecord> {
    match e.event.payload
    case RunSchedulingRequested(id, work) => Some(RequestRecord(id, work, e.at, None))
    case RunSchedulingDelivered(id) =>
      if request.Some? && request.value.requestId == id
        then Some(request.value.(deliveredSeq := Some(e.at)))
        else request
    case RunSchedulingInvalidated(id) => CloseRequest(request, id)
    case RunSchedulingGranted(id, _) => CloseRequest(request, id)
    case _ => request
  }

  /** The first configured or used model stays. */
  function ApplyModel(model: Option<Json>, e: Committed): Option<Json> {
    match e.event.payload
    case RunStarted(_, _, used) => OrElse(model, Some(used))
    case SessionConfigured(configured) => OrElse(model, Some(configured))
    case _ => model
  }

  function ApplyCommands(m: Commands, e: Committed): Commands {
    match e.event.payload
    case CommandAdmitted(command) =>
      var id := command.commandId;
      m.Set(id, CommandOf(m, id).(admittedSeq := Some(e.at), admissionTrace := Some(e.event.trace), command :=
        Some(command)))
    case CommandStarted(id) => m.Set(id, CommandOf(m, id).(startedSeq := Some(e.at)))
    case CommandClosed(id, outcome) => m.Set(id, CommandOf(m, id).(terminal := Some(Terminal(e.at, outcome))))
    case ContextRebased(_, _, _, from) => PruneCommands(m, from)
    case _ => m
  }

  function ApplyRuns(m: Runs, e: Committed): Runs {
    match e.event.payload
    case RunStarted(id, commandIds, model) =>
      var terminal := if m.Has(id) then m.Get(id).value.terminal else None;
      m.Set(id, RunRecord(id, commandIds, e.at, Started(e.event.createdAtMs), e.event.trace, Some(model), terminal))
    case RunClosed(id, outcome) =>
      if m.Has(id) then
        var r := m.Get(id).value;
        m.Set(id, r.(timing := Closed(r.timing, e.event.createdAtMs), terminal := Some(Terminal(e.at, outcome))))
      else m
    case ContextRebased(_, _, _, from) => PruneRuns(m, from)
    case _ => m
  }

  function ApplyRecoveries(m: Recoveries, runs: Runs, e: Committed): Recoveries {
    match e.event.payload
    case RecoveryCompleted(Some(continuation)) =>
      m.Set(continuation.replacementRunId, ContinuationRecord(continuation, e.at))
    case ContextRebased(_, _, _, from) => PruneRecoveries(m, PruneRuns(runs, from))
    case _ => m
  }

  function ApplyTurns(m: Turns, e: Committed): Turns {
    match e.event.payload
    case TurnStarted(runId, id, _) =>
      var terminal := if m.Has(id) then m.Get(id).value.terminal else None;
      m.Set(id, TurnRecord(runId, id, e.at, Started(e.event.createdAtMs), terminal))
    case TurnClosed(id, outcome) =>
      if m.Has(id) then
        var r := m.Get(id).value;
        m.Set(id, r.(timing := Closed(r.timing, e.event.createdAtMs), terminal := Some(Terminal(e.at, outcome))))
      else m
    case ContextRebased(_, _, _, from) => PruneTurns(m, from)
    case _ => m
  }

  function CloseInference(m: Inferences, id: InferenceId, e: Committed, outcome: Outcome): Inferences {
    if m.Has(id) then
      var r := m.Get(id).value;
      m.Set(id, r.(timing := Closed(r.timing, e.event.createdAtMs), terminal := Some(Terminal(e.at, outcome))))
    else m
  }

  function ApplyInferences(m: Inferences, e: Committed): Inferences {
    match e.event.payload
    case InferenceStarted(runId, turnId, id) =>
      var terminal := if m.Has(id) then m.Get(id).value.terminal else None;
      m.Set(id, InferenceRecord(runId, turnId, id, e.at, Started(e.event.createdAtMs), terminal))
    case InferenceCompleted(_, id, usage) => CloseInference(m, id, e, Completed(usage))
    case InferenceFailed(id, failure) => CloseInference(m, id, e, Failed(failure))
    case ContextRebased(_, _, _, from) => PruneInferences(m, from)
    case _ => m
  }

  function CloseToolCall(m: ToolCalls, id: ToolCallId, e: Committed, terminal: ToolTerminal): ToolCalls {
    var r := ToolCallOf(m, id);
    m.Set(id, r.(timing := Closed(r.timing, e.event.createdAtMs), terminal := Some(terminal)))
  }

  /** The first start fixes the start time; an attempt number updates only the attempt. */
  function StartToolCall(r: ToolCallRecord, e: Committed, attempt: Option<nat>): ToolCallRecord {
    var started := r.(startedSeq := Some(e.at), timing := r.timing.(startedAtMs := Some(e.event.createdAtMs)));
    if attempt.None? then started
    else (if r.startedSeq.None? then started else r).(attempt := attempt)
  }

  function ApplyToolCalls(m: ToolCalls, e: Committed): ToolCalls {
    match e.event.payload
    case ToolCallCreated(runId, turnId, inferenceId, id, call) =>
      var meta := Created(e.at, runId, turnId, inferenceId, call.id, call.name, call.providerExecuted);
      m.Set(id, ToolCallOf(m, id).(decision := Some(ToolDecision(meta, Some(call), None))))
    case ToolCallRejected(runId, turnId, inferenceId, id, feedback) =>
      var meta := Rejected(e.at, runId, turnId, inferenceId, feedback.id, feedback.name);
      m.Set(id, ToolCallOf(m, id).(decision := Some(ToolDecision(meta, None, Some(feedback)))))
    case ToolCallStarted(id, attempt) => m.Set(id, StartToolCall(ToolCallOf(m, id), e, attempt))
    case ToolCallCompleted(id, result) => CloseToolCall(m, id, e, ToolTerminal(ToolCompleted(e.at), Some(result), None))
    case ToolCallFailed(id, result, error) =>
      var cause := if error.Some? then error.value else result.result;
      CloseToolCall(m, id, e, ToolTerminal(ToolFailed(e.at), Some(result), Some(cause)))
    case ContextRebased(_, _, _, from) => PruneToolCalls(m, from)
    case _ => m
  }

  function ApplyMessages(m: Messages, e: Committed): Messages {
    match e.event.payload
    case TurnStarted(_, id, inputs) => ConsumeMessages(m, inputs, e.at, id)
    case UserMessagePromoted(_, id) =>
      if m.Has(id) && Promotable(m.Get(id).value.meta) then m.Set(id, Promoted(m.Get(id).value, e.at)) else m
    case UserMessageCancelled(canceller, id, reason) =>
      if m.Has(id) && m.Get(id).value.meta.Authored() then
        var r := m.Get(id).value;
        m.Set(id, Reaged(r, r.meta.life.(cancelledSeq := Some(e.at), cancelledByCommandId := Some(canceller),
                                         cancellationReason := Some(reason))))
      else m
    case MessagesPaused(ids, pauser) => PauseMessages(m, ids, e.at, pauser)
    case SteeringMessageCancelled(id, reason) =>
      if m.Has(id) && m.Get(id).value.meta.Steering? then
        var r := m.Get(id).value;
        m.Set(id, Reaged(r, r.meta.life.(cancelledSeq := Some(e.at), cancellationReason := Some(reason))))
      else m
    case ContextRebased(_, _, _, from) => PruneMessages(m, from)
    case _ =>
      var created := NewMessage(e);
      if created.Some? then m.Set(created.value.meta.messageId, created.value) else m
  }

  function ApplyStopRequests(m: StopRequests, e: Committed): StopRequests {
    match e.event.payload
    case StopTurnRequested(id, runId, turnId) =>
      var prior := m.Get(id);
      m.Set(id, if prior.Some? && prior.value.appliedSeq.Some? then
                  prior.value.(requestedSeq := e.at, requestedRunId := runId, requestedTurnId := turnId)
                else StopRequestRecord(id, e.at, runId, turnId, None, None, None, None))
    case StopTurnApplied(id, runId, turnId, inferenceId) =>
      var prior := m.Get(id);
      var requested := if prior.Some?
        then prior.value
        else StopRequestRecord(id, e.at, None, None, None, None, None, None);
      m.Set(id, requested.(appliedSeq := Some(e.at), appliedRunId := Some(runId), appliedTurnId := Some(turnId),
                           appliedInferenceId := inferenceId))
    case ContextRebased(_, _, _, from) => PruneStopRequests(m, from)
    case _ => m
  }

  function ApplyCompactions(m: Compactions, context: ContextRecord, e: Committed): Compactions {
    match e.event.payload
    case CompactionRequested(id, from, to) =>
      m.Set(id, CompactionOf(m, id).(requestedSeq := Some(e.at), sourceFromSeq := Some(from), sourceToSeq := Some(to)))
    case CompactionStarted(id) => m.Set(id, CompactionOf(m, id).(startedSeq := Some(e.at)))
    case SummaryCreated(id, summaryId, from, to, _) =>
      m.Set(id, CompactionOf(m, id).(summaryCreatedSeq := Some(e.at), summaryId := Some(summaryId),
                                     sourceFromSeq := Some(from), sourceToSeq := Some(to)))
    case ContextRebased(id, summaryId, version, _) =>
      var rebased := m.Set(id, CompactionOf(m, id).(summaryId := Some(summaryId), rebasedSeq := Some(e.at),
                                                    contextVersion := Some(version)));
      PruneCompactions(rebased, summaryId)
    case CompactionCompleted(id, _, _) =>
      m.Set(id, CompactionOf(m, id).(terminal := Some(Terminal(e.at, Completed(None)))))
    case CompactionFailed(id, failure, _, _) =>
      var failed := CompactionOf(m, id).(terminal := Some(Terminal(e.at, Failed(failure))));
      if failed.summaryId.None? || failed.summaryId != context.currentSummaryId then m.Delete(id) else m.Set(id, failed)
    case _ => m
  }

  function ApplyContext(context: ContextRecord, e: Committed): ContextRecord {
    match e.event.payload
    case ContextProjected(version) => context.(version := version)
    case ContextRebased(_, summaryId, version, _) => ContextRecord(version, Some(summaryId))
    case _ => context
  }

  predicate CompletedAlready(terminal: Option<Terminal>) {
    terminal.Some? && terminal.value.outcome.Completed?
  }

  /** Usage counts once per completed inference or compaction, and for every failed compaction. */
  function ApplyTokens(r: Replay, e: Committed): TokenConsumption {
    match e.event.payload
    case InferenceCompleted(runId, id, usage) =>
      if r.inferences.Has(id) && !CompletedAlready(r.inferences.Get(id).value.terminal) then
        AddModelUsage(r.tokens, if r.runs.Has(runId) then r.runs.Get(runId).value.model else None, usage)
      else r.tokens
    case CompactionCompleted(id, model, usage) =>
      if CompletedAlready(CompactionOf(r.compactions, id).terminal)
        then r.tokens
        else AddModelUsage(r.tokens, model, usage)
    case CompactionFailed(_, _, model, usage) => AddModelUsage(r.tokens, model, usage)
    case _ => r.tokens
  }

  /** One event of the framework or of another namespace, which only moves the position. */
  function Apply(r: Replay, e: Committed): Replay {
    Replay(
      e.at,
      ApplyRequest(r.request, e),
      ApplyModel(r.model, e),
      ApplyCommands(r.commands, e),
      ApplyRuns(r.runs, e),
      ApplyRecoveries(r.recoveries, r.runs, e),
      ApplyTurns(r.turns, e),
      ApplyInferences(r.inferences, e),
      ApplyToolCalls(r.toolCalls, e),
      ApplyMessages(r.messages, e),
      ApplyStopRequests(r.stopRequests, e),
      ApplyCompactions(r.compactions, r.context, e),
      ApplyContext(r.context, e),
      ApplyTokens(r, e))
  }

  // ---------------------------------------------------------------------------
  // The fold
  // ---------------------------------------------------------------------------

  function FoldReplay(r: Replay, log: seq<Committed>): Replay {
    if log == [] then r else Apply(FoldReplay(r, log[..|log| - 1]), log[|log| - 1])
  }

  /** Fold newly committed events; the queues are derived once at the end. */
  function Fold(s: State, log: seq<Committed>): State {
    WithQueues(FoldReplay(s.replay, log))
  }

  /** The state of a whole log, from genesis. */
  function Reduce(log: seq<Committed>): State {
    Fold(WithQueues(GENESIS), log)
  }

  lemma {:induction false} FoldSnoc(r: Replay, log: seq<Committed>, e: Committed)
    ensures FoldReplay(r, log + [e]) == Apply(FoldReplay(r, log), e)
  {
    assert (log + [e])[..|log + [e]| - 1] == log;
  }

  lemma {:induction false} MessageStored(m: Messages, t: ToolCalls, e: Committed)
    requires NewMessage(e).Some?
    ensures ApplyMessages(m, e) == m.Set(NewMessage(e).value.meta.messageId, NewMessage(e).value)
    ensures ApplyToolCalls(t, e) == t
  {
  }

  lemma {:induction false} ToolCallsLeaveMessages(m: Messages, e: Committed)
    requires var p := e.event.payload; p.ToolCallCreated? || p.ToolCallRejected? || p.ToolCallCompleted?
    ensures ApplyMessages(m, e) == m
  {
  }

  // Three of the maps folded on their own.

  function FoldMessages(m: Messages, log: seq<Committed>): Messages {
    if log == [] then m else ApplyMessages(FoldMessages(m, log[..|log| - 1]), log[|log| - 1])
  }

  function FoldCommands(m: Commands, log: seq<Committed>): Commands {
    if log == [] then m else ApplyCommands(FoldCommands(m, log[..|log| - 1]), log[|log| - 1])
  }

  function FoldToolCalls(m: ToolCalls, log: seq<Committed>): ToolCalls {
    if log == [] then m else ApplyToolCalls(FoldToolCalls(m, log[..|log| - 1]), log[|log| - 1])
  }

  lemma {:induction false} UnfoldMessages(m: Messages, a: Committed, b: Committed, c: Committed)
    ensures FoldMessages(m, [a, b]) == ApplyMessages(ApplyMessages(m, a), b)
    ensures FoldMessages(m, [a, b, c]) == ApplyMessages(FoldMessages(m, [a, b]), c)
  {
    assert [a, b, c][..2] == [a, b] && [a, b][..1] == [a] && [a][..0] == [];
    assert FoldMessages(m, [a]) == ApplyMessages(m, a);
  }

  lemma {:induction false} UnfoldCommands(m: Commands, a: Committed, b: Committed, c: Committed)
    ensures FoldCommands(m, [a, b]) == ApplyCommands(ApplyCommands(m, a), b)
    ensures FoldCommands(m, [a, b, c]) == ApplyCommands(FoldCommands(m, [a, b]), c)
  {
    assert [a, b, c][..2] == [a, b] && [a, b][..1] == [a] && [a][..0] == [];
    assert FoldCommands(m, [a]) == ApplyCommands(m, a);
  }

  lemma {:induction false} UnfoldToolCalls(m: ToolCalls, a: Committed, b: Committed, c: Committed)
    ensures FoldToolCalls(m, [a, b]) == ApplyToolCalls(ApplyToolCalls(m, a), b)
    ensures FoldToolCalls(m, [a, b, c]) == ApplyToolCalls(FoldToolCalls(m, [a, b]), c)
  {
    assert [a, b, c][..2] == [a, b] && [a, b][..1] == [a] && [a][..0] == [];
    assert FoldToolCalls(m, [a]) == ApplyToolCalls(m, a);
  }

  lemma {:induction false} FoldByMap(r: Replay, log: seq<Committed>)
    ensures FoldReplay(r, log).messages == FoldMessages(r.messages, log)
    ensures FoldReplay(r, log).commands == FoldCommands(r.commands, log)
    ensures FoldReplay(r, log).toolCalls == FoldToolCalls(r.toolCalls, log)
  {
    if log != [] {
      FoldByMap(r, log[..|log| - 1]);
    }
  }

  lemma {:induction false} FoldAppend(r: Replay, a: seq<Committed>, b: seq<Committed>)
    ensures FoldReplay(r, a + b) == FoldReplay(FoldReplay(r, a), b)
  {
    if b == [] {
      assert a + b == a;
    } else {
      assert (a + b)[..|a + b| - 1] == a + b[..|b| - 1];
      FoldAppend(r, a, b[..|b| - 1]);
    }
  }
}
