/** The durable store's tables, its append transaction, and its refinement of the in-memory store. */
module SqlTables {
  import opened Collections
  import opened Events
  import opened SessionStore
  import opened SqlStore

  function RowOf(e: Committed): EventRow {
    EventRow(e.at, e.event.eventId, e.event.createdAtMs, e.event.trace, EventLogFactPayload(e.event.payload))
  }

  function InputRowOf(log: seq<Committed>, id: CommandId): Option<CommandInputRow> {
    var last := Last(log, AdmittedId, id);
    if last.Some? && last.value.event.payload.CommandAdmitted? then
      Some(CommandInputRow(last.value.at, last.value.event.payload.command))
    else None
  }

  function MessageRowOf(log: seq<Committed>, id: MessageId): Option<ContextMessageRow> {
    var last := Last(log, ContextMessageId, id);
    if last.Some? then Some(ContextMessageRow(last.value.at, last.value.event.payload)) else None
  }

  function SummaryRowOf(log: seq<Committed>, id: SummaryId): Option<SummaryRow> {
    var last := Last(log, CreatedSummaryId, id);
    if last.Some? && last.value.event.payload.SummaryCreated? then
      Some(SummaryRow(last.value.at, last.value.event.payload.summary))
    else None
  }

  type CommandStates = OrderedMap<CommandId, CommandStateRow>
  type CommandInputs = OrderedMap<CommandId, CommandInputRow>
  type ContextMessages = OrderedMap<MessageId, ContextMessageRow>
  type Summaries = OrderedMap<SummaryId, SummaryRow>

  ghost predicate StatesHold(t: CommandStates, log: seq<Committed>) {
    forall id {:trigger t.Get(id)} :: t.Get(id) == CommandStateOf(log, id)
  }

  ghost predicate InputsHold(t: CommandInputs, log: seq<Committed>) {
    forall id {:trigger t.Get(id)} :: t.Get(id) == InputRowOf(log, id)
  }

  ghost predicate MessagesHold(t: ContextMessages, log: seq<Committed>) {
    forall id {:trigger t.Get(id)} :: t.Get(id) == MessageRowOf(log, id)
  }

  ghost predicate SummariesHold(t: Summaries, log: seq<Committed>) {
    forall id {:trigger t.Get(id)} :: t.Get(id) == SummaryRowOf(log, id)
  }

  ghost predicate RowsHold(rows: seq<EventRow>, log: seq<Committed>) {
    |rows| == |log| && forall i :: 0 <= i < |log| ==> rows[i] == RowOf(log[i])
  }

  // ---------------------------------------------------------------------------
  // Reading
  // ---------------------------------------------------------------------------

  function RowPosition(rows: seq<EventRow>, id: EventId): (r: Option<nat>)
    ensures r.Some? ==> r.value < |rows|
  {
    if rows == [] then None
    else if rows[|rows| - 1].eventId == id then Some(|rows| - 1)
    else RowPosition(rows[..|rows| - 1], id)
  }

  lemma {:induction false} RowPositionIsPosition(rows: seq<EventRow>, log: seq<Committed>, id: EventId)
    requires RowsHold(rows, log)
    ensures RowPosition(rows, id) == PositionOf(log, id)
  {
    if rows != [] {
      RowPositionIsPosition(rows[..|rows| - 1], log[..|log| - 1], id);
    }
  }

  function MessageAt(seqs: Seq): ContextMessageRow -> bool {
    (row: ContextMessageRow) => row.contextSeq == seqs
  }

  function SummaryAt(seqs: Seq): SummaryRow -> bool {
    (row: SummaryRow) => row.createdSeq == seqs
  }

  /** The payload a row stands for, with its body from the sidecar tables. */
  function ReadLogicalPayload(
      row: EventRow, inputs: CommandInputs, messages: ContextMessages, summaries: Summaries): Option<Payload> {
    match row.fact
    case WholeFact(p) => Some(p)
    case SubmitFact(id, _, _) => if inputs.Has(id) then Some(CommandAdmitted(inputs.Get(id).value.command)) else None
    case CommandFact(command) =>
      if inputs.Has(command.commandId) then Some(CommandAdmitted(inputs.Get(command.commandId).value.command)) else None
    case SummaryFact(compactionId, id, from, to) =>
      var found := Find(summaries.Values(), SummaryAt(row.at));
      if found.Some? then Some(SummaryCreated(compactionId, id, from, to, found.value.summary)) else None
    case _ =>
      var found := Find(messages.Values(), MessageAt(row.at));
      if found.Some? then Some(found.value.payload) else None
  }

  /** Rows sit under the id of the event at their position. */
  lemma {:induction false} MessageRowIsLast(t: ContextMessages, log: seq<Committed>, row: ContextMessageRow)
    requires Dense(log, 0) && MessagesHold(t, log) && row in t.Values()
    ensures 1 <= row.contextSeq <= |log|
    ensures var p := log[row.contextSeq - 1].event.payload;
            p == row.payload && ContextMessageId(p).Some? && t.Get(ContextMessageId(p).value) == Some(row)
  {
    var id := ValueHasKey(t, row);
    LastFinds(log, ContextMessageId, id);
    assert t.Get(id) == MessageRowOf(log, id);
  }

  lemma {:induction false} SummaryRowIsLast(t: Summaries, log: seq<Committed>, row: SummaryRow)
    requires Dense(log, 0) && SummariesHold(t, log) && row in t.Values()
    ensures 1 <= row.createdSeq <= |log|
    ensures var p := log[row.createdSeq - 1].event.payload;
            p.SummaryCreated? && p.summary == row.summary && t.Get(p.summaryId) == Some(row)
  {
    var id := ValueHasKey(t, row);
    LastFinds(log, CreatedSummaryId, id);
    assert t.Get(id) == SummaryRowOf(log, id);
  }

  /** Reading a row through the tables is reading it back from the committed events. */
  lemma {:induction false} ReadMessageRow(log: seq<Committed>, i: nat, t: ContextMessages)
    requires Dense(log, 0) && MessagesHold(t, log) && i < |log|
    requires ContextMessageId(log[i].event.payload).Some?
    ensures var found := Find(t.Values(), MessageAt(log[i].at));
            if ReadBack(log, i).Some? then found.Some? && found.value.payload == log[i].event.payload else found.None?
  {
    var p := log[i].event.payload;
    var id := ContextMessageId(p).value;
    var last := Last(log, ContextMessageId, id);
    LastFinds(log, ContextMessageId, id);
    assert t.Get(id) == MessageRowOf(log, id);
    var found := Find(t.Values(), MessageAt(log[i].at));
    if found.Some? {
      MessageRowIsLast(t, log, found.value);
    }
    if last.Some? && last.value.at == log[i].at {
      assert t.Get(id).value in t.Values();
      assert MessageAt(log[i].at)(t.Get(id).value);
    }
  }

  lemma {:induction false} ReadSummaryRow(log: seq<Committed>, i: nat, t: Summaries)
    requires Dense(log, 0) && SummariesHold(t, log) && i < |log|
    requires log[i].event.payload.SummaryCreated?
    ensures var found := Find(t.Values(), SummaryAt(log[i].at));
            if ReadBack(log, i).Some?
              then found.Some? && found.value.summary == log[i].event.payload.summary
              else found.None?
  {
    var id := log[i].event.payload.summaryId;
    var last := Last(log, CreatedSummaryId, id);
    LastFinds(log, CreatedSummaryId, id);
    assert t.Get(id) == SummaryRowOf(log, id);
    var found := Find(t.Values(), SummaryAt(log[i].at));
    if found.Some? {
      SummaryRowIsLast(t, log, found.value);
    }
    if last.Some? && last.value.at == log[i].at {
      assert t.Get(id).value in t.Values();
      assert SummaryAt(log[i].at)(t.Get(id).value);
    }
  }

  lemma {:induction false} ReadRowIsReadBack(
      log: seq<Committed>, i: nat, inputs: CommandInputs, messages: ContextMessages, summaries: Summaries)
    requires Dense(log, 0) && i < |log|
    requires InputsHold(inputs, log) && MessagesHold(messages, log) && SummariesHold(summaries, log)
    ensures var p := ReadLogicalPayload(RowOf(log[i]), inputs, messages, summaries);
            ReadBack(log, i) == if p.Some? then Some(log[i].(event := log[i].event.(payload := p.value))) else None
  {
    var p := log[i].event.payload;
    if p.CommandAdmitted? {
      LastFinds(log, AdmittedId, p.command.commandId);
      assert inputs.Get(p.command.commandId) == InputRowOf(log, p.command.commandId);
    } else if ContextMessageId(p).Some? {
      ReadMessageRow(log, i, messages);
    } else if p.SummaryCreated? {
      ReadSummaryRow(log, i, summaries);
    }
  }

  // ---------------------------------------------------------------------------
  // The store
  // ---------------------------------------------------------------------------

  predicate OwnsKey(t: CommandStates, command: Command) {
    command.idempotencyKey.Some? &&
    exists e :: e in t.Entries() && e.0 != command.commandId && e.1.idempotencyKey == command.idempotencyKey
  }

  lemma {:induction false} OwnsKeyIsKeyTaken(t: CommandStates, log: seq<Committed>, command: Command)
    requires StatesHold(t, log)
    ensures OwnsKey(t, command) <==> KeyTaken(log, command)
  {
    if OwnsKey(t, command) {
      var e :| e in t.Entries() && e.0 != command.commandId && e.1.idempotencyKey == command.idempotencyKey;
      EntryIsValue(t, e);
      assert CommandStateOf(log, e.0) == Some(e.1);
    }
    if KeyTaken(log, command) {
      var id :| id != command.commandId && CommandStateOf(log, id).Some?
        && CommandStateOf(log, id).value.idempotencyKey == command.idempotencyKey;
      assert t.Get(id) == CommandStateOf(log, id);
      EntryOfKey(t, id);
    }
  }

  /** The tables are what the committed events make of them. */
  ghost predicate TablesHold(sessionId: SessionId, log: seq<Committed>, rows: seq<EventRow>, states: CommandStates,
                             inputs: CommandInputs, messages: ContextMessages, summaries: Summaries) {
    && WellFormed(log)
    && (forall i :: 0 <= i < |log| ==> log[i].event.sessionId == sessionId)
    && RowsHold(rows, log)
    && StatesHold(states, log)
    && InputsHold(inputs, log)
    && MessagesHold(messages, log)
    && SummariesHold(summaries, log)
  }

  /** The rows of every table of the store. */
  datatype StoredRows = StoredRows(
    eventLog: seq<EventRow>,
    commandState: CommandStates,
    commandInputs: CommandInputs,
    contextMessages: ContextMessages,
    contextSummaries: Summaries)

  class SqlSessionStore {
    const sessionId: SessionId
    var eventLog: seq<EventRow>
    var commandState: CommandStates
    var commandInputs: CommandInputs
    var contextMessages: ContextMessages
    var contextSummaries: Summaries
    /** The events as they were committed. */
    ghost var history: seq<Committed>

    ghost predicate Valid()
      reads this
    {
      TablesHold(sessionId, history, eventLog, commandState, commandInputs, contextMessages, contextSummaries)
    }

    constructor (sessionId: SessionId)
      ensures Valid() && history == [] && this.sessionId == sessionId
    {
      this.sessionId := sessionId;
      eventLog, history := [], [];
      commandState, commandInputs, contextMessages, contextSummaries := Empty, Empty, Empty, Empty;
    }

    /** The committed event of a row, or nothing when reading its body fails. */
    function ReadRow(i: nat): Option<Committed>
      requires i < |eventLog|
      reads this
    {
      var row := eventLog[i];
      var p := ReadLogicalPayload(row, commandInputs, contextMessages, contextSummaries);
      if p.None? then None else Some(Committed(row.at,
        Event(row.eventId, sessionId, row.createdAtMs, row.trace, p.value)))
    }

    lemma {:induction false} ReadRowIsExact(i: nat)
      requires Valid() && i < |eventLog|
      ensures ReadRow(i) == ReadBack(history, i)
      ensures ReadRow(i) == Some(history[i]) <==> KeepsItsRow(history, i)
    {
      ReadRowIsReadBack(history, i, commandInputs, contextMessages, contextSummaries);
      ReadBackExactly(history, i);
    }

    /** Admission and status rows, unique by command and by idempotency key. */
    method WriteCommandProjection(e: Committed, ghost log: seq<Committed>) returns (ok: bool)
      requires StatesHold(commandState, log)
      modifies `commandState
      ensures ok <==> (e.event.payload.CommandAdmitted? ==> !KeyTaken(log, e.event.payload.command))
      ensures ok ==> StatesHold(commandState, log + [e])
    {
      assert (log + [e])[..|log + [e]| - 1] == log;
      ok := true;
      match e.event.payload {
        case CommandAdmitted(command) =>
          OwnsKeyIsKeyTaken(commandState, log, command);
          if OwnsKey(commandState, command) {
            return false;
          }
          commandState := commandState.Set(command.commandId, CommandStateRow(e.at, Admitted, command.idempotencyKey));
        case CommandStarted(id) =>
          commandState := commandState.Set(id, WithStatus(commandState.Get(id), e.at, Started));
        case CommandClosed(id, outcome) =>
          commandState := commandState.Set(id, WithStatus(commandState.Get(id), e.at, StatusOf(outcome)));
        case _ =>
      }
    }

    method WriteCommandInputProjection(e: Committed, ghost log: seq<Committed>)
      requires InputsHold(commandInputs, log)
      modifies `commandInputs
      ensures InputsHold(commandInputs, log + [e])
    {
      assert (log + [e])[..|log + [e]| - 1] == log;
      if e.event.payload.CommandAdmitted? {
        var command := e.event.payload.command;
        commandInputs := commandInputs.Set(command.commandId, CommandInputRow(e.at, command));
      }
    }

    method WriteMessageProjection(e: Committed, ghost log: seq<Committed>)
      requires MessagesHold(contextMessages, log)
      modifies `contextMessages
      ensures MessagesHold(contextMessages, log + [e])
    {
      assert (log + [e])[..|log + [e]| - 1] == log;
      var id := ContextMessageId(e.event.payload);
      if id.Some? {
        contextMessages := contextMessages.Set(id.value, ContextMessageRow(e.at, e.event.payload));
      }
    }

    method WriteSummaryProjection(e: Committed, ghost log: seq<Committed>) returns (ok: bool)
      requires SummariesHold(contextSummaries, log)
      modifies `contextSummaries
      ensures ok <==> (e.event.payload.SummaryCreated? ==> SqlAccepts(log, e.event.payload))
      ensures ok ==> SummariesHold(contextSummaries, log + [e])
    {
      assert (log + [e])[..|log + [e]| - 1] == log;
      if e.event.payload.SummaryCreated? {
        var SummaryCreated(compactionId, summaryId, _, _, summary) := e.event.payload;
        if summary.summaryId != summaryId || summary.compactionId != compactionId {
          return false;
        }
        contextSummaries := contextSummaries.Set(summaryId, SummaryRow(e.at, summary));
      }
      return true;
    }

    /** A rebase must agree with the summary stored under its id. */
    method CheckContextRebase(e: Committed, ghost log: seq<Committed>) returns (ok: bool)
      requires SummariesHold(contextSummaries, log + [e])
      ensures ok <==> (e.event.payload.ContextRebased? ==> SqlAccepts(log, e.event.payload))
    {
      assert (log + [e])[..|log + [e]| - 1] == log;
      if e.event.payload.ContextRebased? {
        var ContextRebased(compactionId, summaryId, _, from) := e.event.payload;
        LastFinds(log, CreatedSummaryId, summaryId);
        var row := contextSummaries.Get(summaryId);
        return row.Some? && row.value.summary.compactionId == compactionId
          && row.value.summary.retainedFromContextSeq == from;
      }
      return true;
    }

    /** All projections of one new event, in the transaction that inserted its row. */
    method ApplySynchronousProjections(e: Committed, ghost log: seq<Committed>) returns (ok: bool)
      requires StatesHold(commandState, log) && InputsHold(commandInputs, log)
      requires MessagesHold(contextMessages, log) && SummariesHold(contextSummaries, log)
      modifies `commandState, `commandInputs, `contextMessages, `contextSummaries
      ensures ok <==> SqlAccepts(log, e.event.payload)
      ensures ok ==> StatesHold(commandState, log + [e]) && InputsHold(commandInputs, log + [e])
                     && MessagesHold(contextMessages, log + [e]) && SummariesHold(contextSummaries, log + [e])
    {
      ok := WriteCommandProjection(e, log);
      if !ok {
        return;
      }
      WriteCommandInputProjection(e, log);
      WriteMessageProjection(e, log);
      ok := WriteSummaryProjection(e, log);
      if !ok {
        return;
      }
      ok := CheckContextRebase(e, log);
    }

    /**
     * Insert one event or answer with the committed one. The new row's position is the next of the
     * log. After a failure the tables may be half written.
     */
    method InsertOrRead(event: Event) returns (entry: Option<Committed>)
      requires Valid()
      modifies this
      ensures entry.Some? <==> SqlAppendEvent(sessionId, old(history), event).Some?
      ensures entry.Some? ==>
              Valid() && SqlAppendEvent(sessionId, old(history), event)
              == Some(Answer(history, entry.value))
    {
      if event.sessionId != sessionId {
        return None;
      }
      RowPositionIsPosition(eventLog, history, event.eventId);
      var existing := RowPosition(eventLog, event.eventId);
      if existing.Some? {
        ReadRowIsExact(existing.value);
        return ReadRow(existing.value);
      }
      var e := Committed(|eventLog| + 1, event);
      ghost var log := history;
      eventLog := eventLog + [RowOf(e)];
      var ok := ApplySynchronousProjections(e, log);
      if !ok {
        return None;
      }
      history := log + [e];
      FreshEntryReadsBack(log, e);
      ReadRowIsExact(|eventLog| - 1);
      entry := ReadRow(|eventLog| - 1);
    }

    function Rows(): StoredRows
      reads this
    {
      StoredRows(eventLog, commandState, commandInputs, contextMessages, contextSummaries)
    }

    /** Give a transaction up: every table is as it was. */
    method RollBack(saved: StoredRows, ghost committed: seq<Committed>)
      requires TablesHold(sessionId, committed, saved.eventLog, saved.commandState, saved.commandInputs,
               saved.contextMessages, saved.contextSummaries)
      modifies this
      ensures Valid() && history == committed && Rows() == saved
    {
      eventLog, commandState, commandInputs := saved.eventLog, saved.commandState, saved.commandInputs;
      contextMessages, contextSummaries := saved.contextMessages, saved.contextSummaries;
      history := committed;
    }

    /** One transaction over the whole batch: a failing entry restores every table. */
    method Append(events: seq<Event>) returns (answers: Option<seq<Committed>>)
      requires Valid()
      modifies this
      ensures Valid()
      ensures answers.Some? <==> SqlAppendBatch(sessionId, old(history), events).Some?
      ensures answers.Some? ==> SqlAppendBatch(sessionId, old(history), events) == Some(Answers(history, answers.value))
      ensures answers.None? ==> history == old(history) && Rows() == old(Rows())
    {
      var rows0 := Rows();
      ghost var history0 := history;
      var entries: seq<Committed> := [];
      for i := 0 to |events|
        invariant Valid()
        invariant SqlAppendBatch(sessionId, history0, events[..i]) == Some(Answers(history, entries))
      {
        assert events[..i + 1][..i] == events[..i];
        var entry := InsertOrRead(events[i]);
        if entry.None? {
          RollBack(rows0, history0);
          FailedForever(sessionId, history0, events, i);
          return None;
        }
        entries := entries + [entry.value];
      }
      assert events[..|events|] == events;
      answers := Some(entries);
    }
  }

  lemma {:induction false} FreshEntryReadsBack(log: seq<Committed>, e: Committed)
    ensures ReadBack(log + [e], |log|) == Some(e)
  {
    assert (log + [e])[|log|] == e;
  }

  lemma {:induction false} FailedForever(sessionId: SessionId, log: seq<Committed>, events: seq<Event>, i: nat)
    requires i < |events| && SqlAppendBatch(sessionId, log, events[..i + 1]).None?
    ensures SqlAppendBatch(sessionId, log, events).None?
  {
    if i + 1 < |events| {
      assert events[..|events| - 1][..i + 1] == events[..i + 1];
      FailedForever(sessionId, log, events[..|events| - 1], i);
    } else {
      assert events[..i + 1] == events;
    }
  }
}
