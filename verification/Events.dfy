/** Durable events of one session, as the log commits them. */
module Events {
  import opened Collections

  type Seq = nat

  type SessionId = string
  type EventId = string
  type CommandId = string
  type MessageId = string
  type RunId = string
  type TurnId = string
  type InferenceId = string
  type ToolCallId = string
  type ProviderPartId = string
  type CompactionId = string
  type SummaryId = string
  type RequestId = string
  type IdempotencyKey = string

  /** Data the model carries without interpreting it: contents, traces, errors, model choices. */
  type Json = string

  datatype Disposition = Queue | Steer | Interrupt

  /** A message joins the queue or steers; only a submission can interrupt. */
  type MessageDisposition = d: Disposition | d != Interrupt witness Queue

  /** Commands carry the lifecycle id minted at admission. */
  datatype Command =
    | SubmitMessage(commandId: CommandId, idempotencyKey: Option<IdempotencyKey>, disposition: Disposition,
      content: Json)
    | StopTurn(commandId: CommandId, idempotencyKey: Option<IdempotencyKey>)
    | CancelPendingMessage(commandId: CommandId, idempotencyKey: Option<IdempotencyKey>, messageId: MessageId)
    | PromotePendingMessage(commandId: CommandId, idempotencyKey: Option<IdempotencyKey>, messageId: MessageId)
    | ResumePendingMessages(commandId: CommandId, idempotencyKey: Option<IdempotencyKey>, messageIds: seq<MessageId>)

  /** How a lifecycle ended: completed, failed, or cancelled/interrupted/stopped. */
  datatype Outcome = Completed(usage: Option<nat>) | Failed(error: Json) | Aborted(reason: Json)

  /** Work selected for a run slot. */
  datatype Work =
    | CommandWork(commandId: CommandId)
    | RecoveryWork(commandId: CommandId, interruptedRunId: RunId, inputMessageIds: seq<MessageId>)

  datatype CallPart = CallPart(id: ProviderPartId, name: Json, params: Json, providerExecuted: bool)

  datatype ResultPart = ResultPart(id: ProviderPartId, name: Json, result: Json)

  datatype PromptPart =
    | TextPart(text: Json)
    | ReasoningPart(text: Json)
    | ToolCall(call: CallPart)
    | OtherPart(data: Json)

  datatype Summary = Summary(
    compactionId: CompactionId,
    summaryId: SummaryId,
    retainedFromContextSeq: Seq,
    promptMessage: Json)

  datatype Continuation = Continuation(commandId: CommandId, interruptedRunId: RunId, replacementRunId: RunId)

  datatype Payload =
    | SessionConfigured(model: Json)
    | RunSchedulingRequested(requestId: RequestId, work: Work)
    | RunSchedulingDelivered(requestId: RequestId)
    | RunSchedulingInvalidated(requestId: RequestId)
    | RunSchedulingGranted(requestId: RequestId, runId: RunId)
    | CommandAdmitted(command: Command)
    | CommandStarted(commandId: CommandId)
    | CommandClosed(commandId: CommandId, outcome: Outcome)
    | RunStarted(runId: RunId, commandIds: seq<CommandId>, runModel: Json)
    | RunClosed(runId: RunId, outcome: Outcome)
    | TurnStarted(runId: RunId, turnId: TurnId, inputMessageIds: seq<MessageId>)
    | TurnClosed(turnId: TurnId, outcome: Outcome)
    | InferenceStarted(runId: RunId, turnId: TurnId, inferenceId: InferenceId)
    | InferenceCompleted(runId: RunId, inferenceId: InferenceId, usage: Option<nat>)
    | InferenceFailed(inferenceId: InferenceId, failure: Json)
    | ToolCallCreated(runId: RunId, turnId: TurnId, inferenceId: InferenceId, toolCallId: ToolCallId, call: CallPart)
    | ToolCallRejected(runId: RunId, turnId: TurnId, inferenceId: InferenceId, toolCallId: ToolCallId,
      feedback: ResultPart)
    | ToolCallStarted(toolCallId: ToolCallId, attempt: Option<nat>)
    | ToolCallCompleted(toolCallId: ToolCallId, result: ResultPart)
    | ToolCallFailed(toolCallId: ToolCallId, result: ResultPart, error: Option<Json>)
    | SystemMessageCommitted(messageId: MessageId, content: Json)
    | UserMessageCommitted(commandId: CommandId, messageId: MessageId, content: Json)
    | UserMessageSubmitted(commandId: CommandId, messageId: MessageId, disposition: MessageDisposition, content: Json)
    | UserMessagePromoted(commandId: CommandId, messageId: MessageId)
    | UserMessageCancelled(commandId: CommandId, messageId: MessageId, reason: Json)
    | MessagesPaused(messageIds: seq<MessageId>, pausedByCommandId: CommandId)
    | SteeringMessageQueued(commandId: CommandId, messageId: MessageId, runId: RunId, content: Json)
    | SteeringMessageCancelled(messageId: MessageId, reason: Json)
    | AssistantMessageCommitted(messageId: MessageId, runId: RunId, turnId: TurnId, inferenceId: InferenceId,
      parts: seq<PromptPart>)
    | AssistantMessageImported(messageId: MessageId, runId: RunId, turnId: TurnId, inferenceId: InferenceId,
      parts: seq<PromptPart>)
    | AssistantPartialCommitted(messageId: MessageId, runId: RunId, turnId: TurnId, inferenceId: InferenceId,
      parts: seq<PromptPart>, reason: Json)
    | StopTurnRequested(commandId: CommandId, requestedRunId: Option<RunId>, requestedTurnId: Option<TurnId>)
    | StopTurnApplied(commandId: CommandId, runId: RunId, turnId: TurnId, appliedInferenceId: Option<InferenceId>)
    | ContextProjected(contextVersion: nat)
    | CompactionRequested(compactionId: CompactionId, sourceFromSeq: Seq, sourceToSeq: Seq)
    | CompactionStarted(compactionId: CompactionId)
    | SummaryCreated(compactionId: CompactionId, summaryId: SummaryId, sourceFromSeq: Seq, sourceToSeq: Seq,
      summary: Summary)
    | ContextRebased(compactionId: CompactionId, summaryId: SummaryId, contextVersion: nat, retainedFromContextSeq: Seq)
    | CompactionCompleted(compactionId: CompactionId, compactionModel: Option<Json>, usage: Option<nat>)
    | CompactionFailed(compactionId: CompactionId, failure: Json, compactionModel: Option<Json>, usage: Option<nat>)
    | RecoveryCompleted(continuation: Option<Continuation>)
    | BaseState(data: Json)
    | Foreign(namespace: string, eventType: string, data: Json)

  datatype Event = Event(eventId: EventId, sessionId: SessionId, createdAtMs: int, trace: Json, payload: Payload)

  /** An event with the position the log gave it. */
  datatype Committed = Committed(at: Seq, event: Event)

  /** The entries take the positions right after `base`, without gaps. */
  predicate Dense(log: seq<Committed>, base: Seq) {
    forall i {:trigger log[i]} :: 0 <= i < |log| ==> log[i].at == base + i + 1
  }
}
