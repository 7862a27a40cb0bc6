/** The durable store: an event log of facts, with bodies kept in sidecar tables. */
module SqlStore {
  import opened Collections
  import opened Events
  import opened SessionStore
  import opened LogQueries
  import FoldRecords

  // ---------------------------------------------------------------------------
  // Rows
  // ---------------------------------------------------------------------------

  /** What the log row itself keeps of a payload. */
  datatype Fact =
    | SubmitFact(commandId: CommandId, disposition: Disposition, idempotencyKey: Option<IdempotencyKey>)
    | CommandFact(command: Command)
    | SystemFact(messageId: MessageId)
    | UserFact(commandId: CommandId, messageId: MessageId)
    | SteeringFact(commandId: CommandId, messageId: MessageId, runId: RunId)
    | AssistantFact(imported: bool, messageId: MessageId, runId: RunId, turnId: TurnId, inferenceId: InferenceId)
    | PartialFact(messageId: MessageId, runId: RunId, turnId: TurnId, inferenceId: InferenceId, reason: Json)
    | SummaryFact(compactionId: CompactionId, summaryId: SummaryId, sourceFromSeq: Seq, sourceToSeq: Seq)
    | WholeFact(payload: Payload)

  function EventLogFactPayload(p: Payload): Fact {
    match p
    case CommandAdmitted(command) =>
      if command.SubmitMessage? then SubmitFact(command.commandId, command.disposition, command.idempotencyKey)
      else CommandFact(command)
    case SystemMessageCommitted(id, _) => SystemFact(id)
    case UserMessageCommitted(commandId, id, _) => UserFact(commandId, id)
    case SteeringMessageQueued(commandId, id, runId, _) => SteeringFact(commandId, id, runId)
    case AssistantMessageCommitted(id, runId, turnId, inferenceId, _) =>
      AssistantFact(false, id, runId, turnId, inferenceId)
    case AssistantMessageImported(id, runId, turnId, inferenceId, _) =>
      AssistantFact(true, id, runId, turnId, inferenceId)
    case AssistantPartialCommitted(id, runId, turnId, inferenceId, _, reason) =>
      PartialFact(id, runId, turnId, inferenceId, reason)
    case SummaryCreated(compactionId, id, from, to, _) => SummaryFact(compactionId, id, from, to)
    case _ => WholeFact(p)
  }

  datatype EventRow = EventRow(at: Seq, eventId: EventId, createdAtMs: int, trace: Json, fact: Fact)

  datatype CommandStatus = Admitted | Started | CommandCompleted | CommandFailed | CommandCancelled

  datatype CommandStateRow = CommandStateRow(admittedSeq: Seq, status: CommandStatus,
    idempotencyKey: Option<IdempotencyKey>)

  datatype CommandInputRow = CommandInputRow(admittedSeq: Seq, command: Command)

  datatype ContextMessageRow = ContextMessageRow(contextSeq: Seq, payload: Payload)

  datatype SummaryRow = SummaryRow(createdSeq: Seq, summary: Summary)

  // ---------------------------------------------------------------------------
  // What the sidecar tables hold, as functions of the committed events
  // ---------------------------------------------------------------------------

  /** The message whose body the event exposes to the model context. */
  function ContextMessageId(p: Payload): Option<MessageId> {
    match p
    case SystemMessageCommitted(id, _) => Some(id)
    case UserMessageCommitted(_, id, _) => Some(id)
    case SteeringMessageQueued(_, id, _, _) => Some(id)
    case AssistantMessageCommitted(id, _, _, _, _) => Some(id)
    case AssistantMessageImported(id, _, _, _, _) => Some(id)
    case AssistantPartialCommitted(id, _, _, _, _, _) => Some(id)
    case _ => None
  }

  function AdmittedId(p: Payload): Option<CommandId> {
    if p.CommandAdmitted? then Some(p.command.commandId) else None
  }

  function CreatedSummaryId(p: Payload): Option<SummaryId> {
    if p.SummaryCreated? then Some(p.summaryId) else None
  }

  /** The last event of a log whose payload has the given id under `idOf`. */
  function Last(log: seq<Committed>, idOf: Payload -> Option<string>, id: string): Option<Committed> {
    if log == [] then None
    else if idOf(log[|log| - 1].event.payload) == Some(id) then Some(log[|log| - 1])
    else Last(log[..|log| - 1], idOf, id)
  }

  function StatusOf(outcome: Outcome): CommandStatus {
    match outcome
    case Completed(_) => CommandCompleted
    case Failed(_) => CommandFailed
    case Aborted(_) => CommandCancelled
  }

  /** A status event for an unknown command inserts a row at its own position, without a key. */
  function WithStatus(row: Option<CommandStateRow>, at: Seq, status: CommandStatus): CommandStateRow {
    if row.Some? then row.value.(status := status) else CommandStateRow(at, status, None)
  }

  function CommandStateOf(log: seq<Committed>, id: CommandId): Option<CommandStateRow> {
    if log == [] then None
    else
      var before, e := CommandStateOf(log[..|log| - 1], id), log[|log| - 1];
      match e.event.payload
      case CommandAdmitted(command) =>
        if command.commandId == id then Some(CommandStateRow(e.at, Admitted, command.idempotencyKey)) else before
      case CommandStarted(started) => if started == id then Some(WithStatus(before, e.at, Started)) else before
      case CommandClosed(closed, outcome) => if closed == id
        then Some(WithStatus(before, e.at, StatusOf(outcome)))
        else before
      case _ => before
  }

  // ---------------------------------------------------------------------------
  // Reading back
  // ---------------------------------------------------------------------------

  /** What reading the entry at `i` gives, or nothing when its body is gone. */
  function ReadBack(log: seq<Committed>, i: nat): Option<Committed>
    requires i < |log|
  {
    var p := log[i].event.payload;
    if AdmittedId(p).Some? then
      var last := Last(log, AdmittedId, AdmittedId(p).value);
      if last.None? then None else Some(log[i].(event := log[i].event.(payload := last.value.event.payload)))
    else if ContextMessageId(p).Some? then
      var last := Last(log, ContextMessageId, ContextMessageId(p).value);
      if last.Some? && last.value.at == log[i].at then Some(log[i]) else None
    else if CreatedSummaryId(p).Some? then
      var last := Last(log, CreatedSummaryId, CreatedSummaryId(p).value);
      if last.Some? && last.value.at == log[i].at then Some(log[i]) else None
    else Some(log[i])
  }

  /** No later event takes over the sidecar row of the entry at `i`, unless it re-admits the very same command. */
  ghost predicate KeepsItsRow(log: seq<Committed>, i: nat)
    requires i < |log|
  {
    var p := log[i].event.payload;
    && (AdmittedId(p).Some? ==> exists j ::
      LastWith(log, AdmittedId, AdmittedId(p).value, j)
      && log[j].event.payload == p)
    && (ContextMessageId(p).Some? ==> LastWith(log, ContextMessageId, ContextMessageId(p).value, i))
    && (CreatedSummaryId(p).Some? ==> LastWith(log, CreatedSummaryId, CreatedSummaryId(p).value, i))
  }

  ghost predicate LastWith(log: seq<Committed>, idOf: Payload -> Option<string>, id: string, j: int) {
    && 0 <= j < |log| && idOf(log[j].event.payload) == Some(id)
    && forall k :: j < k < |log| ==> idOf(log[k].event.payload) != Some(id)
  }

  lemma {:induction false} LastFinds(log: seq<Committed>, idOf: Payload -> Option<string>, id: string)
    ensures Last(log, idOf, id).None? ==> forall k :: 0 <= k < |log| ==> idOf(log[k].event.payload) != Some(id)
    ensures Last(log, idOf, id).Some? ==> exists j :: LastWith(log, idOf, id, j) && Last(log, idOf, id) == Some(log[j])
  {
    if log != [] {
      if idOf(log[|log| - 1].event.payload) == Some(id) {
        assert LastWith(log, idOf, id, |log| - 1);
      } else {
        var front := log[..|log| - 1];
        LastFinds(front, idOf, id);
        if Last(front, idOf, id).Some? {
          var j :| LastWith(front, idOf, id, j) && Last(front, idOf, id) == Some(front[j]);
          assert LastWith(log, idOf, id, j);
        }
      }
    }
  }

  /** An entry reads back exactly as committed if and only if it keeps its sidecar row. */
  lemma {:induction false} ReadBackExactly(log: seq<Committed>, i: nat)
    requires Dense(log, 0) && i < |log|
    ensures ReadBack(log, i) == Some(log[i]) <==> KeepsItsRow(log, i)
  {
    var p := log[i].event.payload;
    if AdmittedId(p).Some? {
      LastFinds(log, AdmittedId, AdmittedId(p).value);
    } else if ContextMessageId(p).Some? {
      LastFinds(log, ContextMessageId, ContextMessageId(p).value);
    } else if CreatedSummaryId(p).Some? {
      LastFinds(log, CreatedSummaryId, CreatedSummaryId(p).value);
    }
  }

  /** Without its row an admission reads back as the one that took it, and anything else does not read back. */
  lemma {:induction false} ReadBackOtherwise(log: seq<Committed>, i: nat)
    requires Dense(log, 0) && i < |log| && !KeepsItsRow(log, i)
    ensures var p := log[i].event.payload;
            if p.CommandAdmitted? then
              exists j :: LastWith(log, AdmittedId, p.command.commandId, j)
                && ReadBack(log, i) == Some(Committed(log[i].at, log[i].event.(payload := log[j].event.payload)))
            else ReadBack(log, i) == None
  {
    var p := log[i].event.payload;
    if AdmittedId(p).Some? {
      LastFinds(log, AdmittedId, AdmittedId(p).value);
    } else if ContextMessageId(p).Some? {
      LastFinds(log, ContextMessageId, ContextMessageId(p).value);
    } else if CreatedSummaryId(p).Some? {
      LastFinds(log, CreatedSummaryId, CreatedSummaryId(p).value);
    }
  }

  // ---------------------------------------------------------------------------
  // The command row
  // ---------------------------------------------------------------------------

  function OfCommand(id: CommandId): Committed -> bool {
    (e: Committed) =>
      FoldRecords.Admits(id)(e) || FoldRecords.StartsCommand(id)(e) || FoldRecords.ClosesCommand(id)(e)
  }

  /** What a command's last event says of its status. */
  function StatusAfter(p: Payload): CommandStatus {
    match p
    case CommandStarted(_) => Started
    case CommandClosed(_, Completed(_)) => CommandCompleted
    case CommandClosed(_, Failed(_)) => CommandFailed
    case CommandClosed(_, Aborted(_)) => CommandCancelled
    case _ => Admitted
  }

  function RowFrom(admitted: Option<Committed>, first: Option<Committed>, last: Option<Committed>)
    : Option<CommandStateRow>
    requires admitted.Some? ==> admitted.value.event.payload.CommandAdmitted?
    requires last.Some? ==> first.Some?
  {
    if last.None? then None
    else
      Some(CommandStateRow(
             if admitted.Some? then admitted.value.at else first.value.at,
             StatusAfter(last.value.event.payload),
             if admitted.Some? then admitted.value.event.payload.command.idempotencyKey else None))
  }

  lemma {:induction false} OfCommandSnoc(log: seq<Committed>, e: Committed, id: CommandId)
    ensures Latest(log + [e], OfCommand(id)) == if OfCommand(id)(e) then Some(e) else Latest(log, OfCommand(id))
    ensures Latest(log, OfCommand(id)).Some? <==> Earliest(log, OfCommand(id)).Some?
    ensures Earliest(log + [e], OfCommand(id)) ==
            if Latest(log, OfCommand(id)).Some? then Earliest(log, OfCommand(id))
            else if OfCommand(id)(e) then Some(e) else None
    ensures Latest(log + [e], FoldRecords.Admits(id)) ==
            if FoldRecords.Admits(id)(e) then Some(e) else Latest(log, FoldRecords.Admits(id))
    ensures Latest(log, FoldRecords.Admits(id)).Some? ==> Latest(log, OfCommand(id)).Some?
  {
    Snoc(log, e, OfCommand(id));
    LatestSnoc(log, e, FoldRecords.Admits(id));
    if Latest(log, FoldRecords.Admits(id)).Some? {
      assert OfCommand(id)(Latest(log, FoldRecords.Admits(id)).value);
    }
  }

  lemma {:induction false} RowMoves(
      admitted: Option<Committed>, first: Option<Committed>, last: Option<Committed>, e: Committed, id: CommandId)
    requires admitted.Some? ==> FoldRecords.Admits(id)(admitted.value)
    requires last.Some? <==> first.Some?
    requires admitted.Some? ==> last.Some?
    requires OfCommand(id)(e)
    ensures RowFrom(if FoldRecords.Admits(id)(e) then Some(e) else admitted, if first.Some? then first else Some(e),
                    Some(e))
            == match e.event.payload {
                 case CommandAdmitted(command) => Some(CommandStateRow(e.at, Admitted, command.idempotencyKey))
                 case CommandClosed(_, outcome) =>
                   Some(WithStatus(RowFrom(admitted, first, last), e.at, StatusOf(outcome)))
                 case _ => Some(WithStatus(RowFrom(admitted, first, last), e.at, Started))
               }
  {
  }

  /**
   * A command's row: where it was last admitted, or first heard of, with the key of its last admission and the
   * status its last event gives it.
   */
  lemma {:induction false} CommandRowExactly(log: seq<Committed>, id: CommandId)
    ensures Latest(log, OfCommand(id)).Some? ==> Earliest(log, OfCommand(id)).Some?
    ensures CommandStateOf(log, id)
            == RowFrom(Latest(log, FoldRecords.Admits(id)), Earliest(log, OfCommand(id)), Latest(log, OfCommand(id)))
  {
    if log != [] {
      var front, e := log[..|log| - 1], log[|log| - 1];
      CommandRowExactly(front, id);
      assert log == front + [e];
      OfCommandSnoc(front, e, id);
      if OfCommand(id)(e) {
        RowMoves(Latest(front, FoldRecords.Admits(id)), Earliest(front, OfCommand(id)), Latest(front, OfCommand(id)), e,
          id);
      }
    }
  }

  /** No two events share a command, context message or summary id. */
  ghost predicate IdsNotReused(log: seq<Committed>) {
    forall i, j :: 0 <= i < j < |log| ==>
      var p, q := log[i].event.payload, log[j].event.payload;
      && (AdmittedId(p).Some? ==> AdmittedId(p) != AdmittedId(q))
      && (ContextMessageId(p).Some? ==> ContextMessageId(p) != ContextMessageId(q))
      && (CreatedSummaryId(p).Some? ==> CreatedSummaryId(p) != CreatedSummaryId(q))
  }

  /** Without reuse every entry reads back, whatever was appended later. */
  lemma {:induction false} EverythingReadsBack(log: seq<Committed>, i: nat)
    requires Dense(log, 0) && IdsNotReused(log) && i < |log|
    ensures ReadBack(log, i) == Some(log[i])
  {
    var p := log[i].event.payload;
    assert AdmittedId(p).Some? ==> LastWith(log, AdmittedId, AdmittedId(p).value, i);
    ReadBackExactly(log, i);
  }

  // ---------------------------------------------------------------------------
  // Appending, as a function of the committed events
  // ---------------------------------------------------------------------------

  /** Another command already owns the idempotency key. */
  ghost predicate KeyTaken(log: seq<Committed>, command: Command) {
    command.idempotencyKey.Some? &&
    exists id :: id != command.commandId && CommandStateOf(log, id).Some?
      && CommandStateOf(log, id).value.idempotencyKey == command.idempotencyKey
  }

  /** The projections the event writes succeed. */
  ghost predicate SqlAccepts(log: seq<Committed>, p: Payload) {
    match p
    case CommandAdmitted(command) => !KeyTaken(log, command)
    case SummaryCreated(compactionId, summaryId, _, _, summary) =>
      summary.summaryId == summaryId && summary.compactionId == compactionId
    case ContextRebased(compactionId, summaryId, _, from) =>
      var last := Last(log, CreatedSummaryId, summaryId);
      && last.Some? && last.value.event.payload.SummaryCreated?
      && last.value.event.payload.summary.compactionId == compactionId
      && last.value.event.payload.summary.retainedFromContextSeq == from
    case _ => true
  }

  /** Where the event with the id is, if it is committed. */
  function PositionOf(log: seq<Committed>, id: EventId): (r: Option<nat>)
    ensures r.Some? ==> r.value < |log| && log[r.value].event.eventId == id
    ensures r.None? ==> forall i :: 0 <= i < |log| ==> log[i].event.eventId != id
  {
    if log == [] then None
    else if log[|log| - 1].event.eventId == id then Some(|log| - 1)
    else PositionOf(log[..|log| - 1], id)
  }

  datatype Answer = Answer(log: seq<Committed>, entry: Committed)

  ghost function SqlAppendEvent(sessionId: SessionId, log: seq<Committed>, event: Event): Option<Answer> {
    if event.sessionId != sessionId then None
    else
      var existing := PositionOf(log, event.eventId);
      if existing.Some? then
        var entry := ReadBack(log, existing.value);
        if entry.Some? then Some(Answer(log, entry.value)) else None
      else if SqlAccepts(log, event.payload) then
        Some(Answer(log + [Committed(|log| + 1, event)], Committed(|log| + 1, event)))
      else None
  }

  datatype Answers = Answers(log: seq<Committed>, entries: seq<Committed>)

  ghost function SqlAppendBatch(sessionId: SessionId, log: seq<Committed>, events: seq<Event>): Option<Answers> {
    if events == [] then Some(Answers(log, []))
    else
      var before := SqlAppendBatch(sessionId, log, events[..|events| - 1]);
      if before.None? then None
      else
        var step := SqlAppendEvent(sessionId, before.value.log, events[|events| - 1]);
        if step.None? then None else Some(Answers(step.value.log, before.value.entries + [step.value.entry]))
  }

  // ---------------------------------------------------------------------------
  // Idempotency keys
  // ---------------------------------------------------------------------------

  /** The key the last admission of a command carries. */
  function KeyOf(log: seq<Committed>, id: CommandId): Option<IdempotencyKey> {
    var admitted := Latest(log, FoldRecords.Admits(id));
    if admitted.Some? then admitted.value.event.payload.command.idempotencyKey else None
  }

  /** A key is taken exactly while it is that of the last admission of another command. */
  lemma {:induction false} KeyTakenExactly(log: seq<Committed>, command: Command)
    ensures KeyTaken(log, command) <==>
              command.idempotencyKey.Some?
              && exists id :: id != command.commandId && KeyOf(log, id) == command.idempotencyKey
  {
    forall id
      ensures KeyOf(log, id) == if CommandStateOf(log, id).Some?
              then CommandStateOf(log, id).value.idempotencyKey
              else None
    {
      CommandRowExactly(log, id);
      AdmissionIsOfCommand(log, id);
    }
  }

  lemma {:induction false} AdmissionIsOfCommand(log: seq<Committed>, id: CommandId)
    ensures Latest(log, FoldRecords.Admits(id)).Some? ==> Latest(log, OfCommand(id)).Some?
  {
    if Latest(log, FoldRecords.Admits(id)).Some? {
      assert OfCommand(id)(Latest(log, FoldRecords.Admits(id)).value);
    }
  }

  /** No two commands hold the same key. */
  ghost predicate KeysUnique(log: seq<Committed>) {
    forall a, b :: a != b && KeyOf(log, a).Some? ==> KeyOf(log, a) != KeyOf(log, b)
  }

  lemma {:induction false} KeyAfter(log: seq<Committed>, e: Committed, id: CommandId)
    ensures KeyOf(log + [e], id) ==
            if FoldRecords.Admits(id)(e) then e.event.payload.command.idempotencyKey else KeyOf(log, id)
  {
    LatestSnoc(log, e, FoldRecords.Admits(id));
  }

  lemma {:induction false} AppendKeepsKeysUnique(sessionId: SessionId, log: seq<Committed>, event: Event)
    requires KeysUnique(log) && SqlAppendEvent(sessionId, log, event).Some?
    ensures KeysUnique(SqlAppendEvent(sessionId, log, event).value.log)
  {
    var next := SqlAppendEvent(sessionId, log, event).value.log;
    if next != log {
      var e := Committed(|log| + 1, event);
      forall id ensures KeyOf(next, id) ==
                        if FoldRecords.Admits(id)(e) then event.payload.command.idempotencyKey else KeyOf(log, id) {
        KeyAfter(log, e, id);
      }
      if event.payload.CommandAdmitted? {
        KeyTakenExactly(log, event.payload.command);
      }
    }
  }

  /** Over any batches, in whatever order and however often retried, no two commands come to hold the same key. */
  lemma {:induction false} KeysStayUnique(sessionId: SessionId, log: seq<Committed>, events: seq<Event>)
    requires KeysUnique(log) && SqlAppendBatch(sessionId, log, events).Some?
    ensures KeysUnique(SqlAppendBatch(sessionId, log, events).value.log)
  {
    if events != [] {
      var before := SqlAppendBatch(sessionId, log, events[..|events| - 1]).value.log;
      KeysStayUnique(sessionId, log, events[..|events| - 1]);
      AppendKeepsKeysUnique(sessionId, before, events[|events| - 1]);
    }
  }
}
