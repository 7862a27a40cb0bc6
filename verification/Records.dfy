/** Records the canonical fold keeps for each lifecycle. */
module Records {
  import opened Collections
  import opened Events

  datatype Timing = Timing(startedAtMs: Option<int>, terminalAtMs: Option<int>, durationMs: Option<int>)

  datatype Terminal = Terminal(at: Seq, outcome: Outcome)

  datatype CommandRecord = CommandRecord(
    commandId: CommandId,
    command: Option<Command>,
    admittedSeq: Option<Seq>,
    admissionTrace: Option<Json>,
    startedSeq: Option<Seq>,
    terminal: Option<Terminal>)

  datatype RunRecord = RunRecord(
    runId: RunId,
    commandIds: seq<CommandId>,
    startedSeq: Seq,
    timing: Timing,
    trace: Json,
    model: Option<Json>,
    terminal: Option<Terminal>)

  datatype TurnRecord = TurnRecord(
    runId: RunId,
    turnId: TurnId,
    startedSeq: Seq,
    timing: Timing,
    terminal: Option<Terminal>)

  datatype InferenceRecord = InferenceRecord(
    runId: RunId,
    turnId: TurnId,
    inferenceId: InferenceId,
    startedSeq: Seq,
    timing: Timing,
    terminal: Option<Terminal>)

  /** A tool decision without the bodies a checkpoint leaves in the log. */
  datatype DecisionMeta =
    | Created(at: Seq, runId: RunId, turnId: TurnId, inferenceId: InferenceId, providerPartId: ProviderPartId,
      toolName: Json, providerExecuted: bool)
    | Rejected(at: Seq, runId: RunId, turnId: TurnId, inferenceId: InferenceId, providerPartId: ProviderPartId,
      toolName: Json)

  datatype ToolDecision = ToolDecision(meta: DecisionMeta, call: Option<CallPart>, feedback: Option<ResultPart>)

  /** A tool terminal without its result or error. */
  datatype ToolTerminalMeta = ToolCompleted(at: Seq) | ToolFailed(at: Seq)

  datatype ToolTerminal = ToolTerminal(meta: ToolTerminalMeta, result: Option<ResultPart>, error: Option<Json>)

  datatype ToolCallRecord = ToolCallRecord(
    toolCallId: ToolCallId,
    decision: Option<ToolDecision>,
    startedSeq: Option<Seq>,
    attempt: Option<nat>,
    timing: Timing,
    terminal: Option<ToolTerminal>)

  /** What happened to a user-authored message after it was recorded. */
  datatype Lifecycle = Lifecycle(
    promotedSeq: Option<Seq>,
    pausedSeq: Option<Seq>,
    pausedByCommandId: Option<CommandId>,
    consumedSeq: Option<Seq>,
    consumedTurnId: Option<TurnId>,
    cancelledSeq: Option<Seq>,
    cancelledByCommandId: Option<CommandId>,
    cancellationReason: Option<Json>)

  const FRESH := Lifecycle(None, None, None, None, None, None, None, None)

  /** A message record without its body. */
  datatype MessageMeta =
    | System(messageId: MessageId, createdAtMs: int, at: Seq)
    | User(messageId: MessageId, commandId: CommandId, createdAtMs: int, at: Seq,
           requestedDisposition: Option<MessageDisposition>, disposition: Option<MessageDisposition>, life: Lifecycle)
    | Steering(messageId: MessageId, commandId: CommandId, runId: RunId, createdAtMs: int, at: Seq, life: Lifecycle)
    | Assistant(messageId: MessageId, runId: RunId, turnId: TurnId, inferenceId: InferenceId, imported: bool,
                createdAtMs: int, at: Seq)
    | AssistantPartial(messageId: MessageId, runId: RunId, turnId: TurnId, inferenceId: InferenceId, reason: Json,
                       createdAtMs: int, at: Seq)
  {
    /** User-authored messages have a lifecycle: they wait, are consumed or are cancelled. */
    predicate Authored() {
      User? || Steering?
    }

    predicate Waiting() {
      Authored() && life.consumedSeq.None? && life.cancelledSeq.None?
    }
  }

  datatype MessageBody =
    | Content(content: Json)
    | AssistantContent(text: Json, reasoning: Option<Json>, parts: Option<seq<PromptPart>>)

  datatype MessageRecord = MessageRecord(meta: MessageMeta, body: MessageBody)

  datatype CompactionRecord = CompactionRecord(
    compactionId: CompactionId,
    requestedSeq: Option<Seq>,
    startedSeq: Option<Seq>,
    summaryCreatedSeq: Option<Seq>,
    summaryId: Option<SummaryId>,
    sourceFromSeq: Option<Seq>,
    sourceToSeq: Option<Seq>,
    rebasedSeq: Option<Seq>,
    contextVersion: Option<nat>,
    terminal: Option<Terminal>)

  datatype StopRequestRecord = StopRequestRecord(
    commandId: CommandId,
    requestedSeq: Seq,
    requestedRunId: Option<RunId>,
    requestedTurnId: Option<TurnId>,
    appliedSeq: Option<Seq>,
    appliedRunId: Option<RunId>,
    appliedTurnId: Option<TurnId>,
    appliedInferenceId: Option<InferenceId>)

  datatype RequestRecord = RequestRecord(requestId: RequestId, work: Work, requestedSeq: Seq, deliveredSeq: Option<Seq>)

  datatype ContinuationRecord = ContinuationRecord(continuation: Continuation, at: Seq)

  datatype ContextRecord = ContextRecord(version: nat, currentSummaryId: Option<SummaryId>)
}
