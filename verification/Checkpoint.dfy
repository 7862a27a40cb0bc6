/** Pointer-based checkpoints of the replay state: bodies stay in the log and are read back from it. */
module Checkpoint {
  import opened Collections
  import opened Events
  import opened Records
  import opened CommandQueues
  import opened ReducedState
  import opened ReplayInvariants

  datatype CommandCheckpoint = CommandCheckpoint(
    commandId: CommandId,
    admittedSeq: Option<Seq>,
    admissionTrace: Option<Json>,
    startedSeq: Option<Seq>,
    terminal: Option<Terminal>)

  datatype ToolCallCheckpoint = ToolCallCheckpoint(
    toolCallId: ToolCallId,
    decision: Option<DecisionMeta>,
    startedSeq: Option<Seq>,
    attempt: Option<nat>,
    timing: Timing,
    terminal: Option<ToolTerminalMeta>)

  /** Maps as entry lists, records without the bodies an event of the log carries. */
  datatype CheckpointPayload = CheckpointPayload(
    lastSeq: Seq,
    request: Option<RequestRecord>,
    model: Option<Json>,
    commands: seq<(CommandId, CommandCheckpoint)>,
    runs: seq<(RunId, RunRecord)>,
    recoveries: seq<(RunId, ContinuationRecord)>,
    turns: seq<(TurnId, TurnRecord)>,
    inferences: seq<(InferenceId, InferenceRecord)>,
    toolCalls: seq<(ToolCallId, ToolCallCheckpoint)>,
    messages: seq<(MessageId, MessageMeta)>,
    stopRequests: seq<(CommandId, StopRequestRecord)>,
    compactions: seq<(CompactionId, CompactionRecord)>,
    context: ContextRecord,
    tokens: seq<(Json, nat)>)

  // ---------------------------------------------------------------------------
  // Encoding
  // ---------------------------------------------------------------------------

  function EncodeCommand(r: CommandRecord): CommandCheckpoint {
    CommandCheckpoint(r.commandId, r.admittedSeq, r.admissionTrace, r.startedSeq, r.terminal)
  }

  function EncodeToolCall(t: ToolCallRecord): ToolCallCheckpoint {
    ToolCallCheckpoint(
      t.toolCallId,
      if t.decision.Some? then Some(t.decision.value.meta) else None,
      t.startedSeq, t.attempt, t.timing,
      if t.terminal.Some? then Some(t.terminal.value.meta) else None)
  }

  function EncodeMessage(m: MessageRecord): MessageMeta {
    m.meta
  }

  function Encode(s: State): CheckpointPayload {
    var r := s.replay;
    CheckpointPayload(
      r.lastSeq, r.request, r.model,
      EncodeEntries(r.commands, EncodeCommand),
      r.runs.Entries(), r.recoveries.Entries(), r.turns.Entries(), r.inferences.Entries(),
      EncodeEntries(r.toolCalls, EncodeToolCall),
      EncodeEntries(r.messages, EncodeMessage),
      r.stopRequests.Entries(), r.compactions.Entries(), r.context, r.tokens.Entries())
  }

  function OptionSet(q: Option<Seq>): set<Seq> {
    if q.Some? then {q.value} else {}
  }

  function ToolCallSeqs(t: ToolCallCheckpoint): set<Seq> {
    OptionSet(if t.decision.Some? then Some(t.decision.value.at) else None)
    + OptionSet(if t.terminal.Some? then Some(t.terminal.value.at) else None)
  }

  /** The log positions needed to read a checkpoint back. */
  function PointerSeqs(p: CheckpointPayload): set<Seq> {
    (set e, q | e in p.commands && q in OptionSet(e.1.admittedSeq) :: q)
    + (set e | e in p.messages :: e.1.at)
    + (set e, q | e in p.toolCalls && q in ToolCallSeqs(e.1) :: q)
  }

  /** The events of the log at the given positions. */
  function Referenced(log: seq<Committed>, seqs: set<Seq>): map<Seq, Event> {
    map q | q in seqs && 1 <= q <= |log| :: log[q - 1].event
  }

  // ---------------------------------------------------------------------------
  // Decoding
  // ---------------------------------------------------------------------------

  /** The replay of the single event a pointer names, if it is there and of the expected kind. */
  function ReduceSingle(refs: map<Seq, Event>, q: Seq, expected: Payload -> bool): Option<Replay> {
    if q in refs && expected(refs[q].payload) then Some(FoldReplay(GENESIS, [Committed(q, refs[q])])) else None
  }

  function DecodeCommand(refs: map<Seq, Event>, id: CommandId, c: CommandCheckpoint): Option<CommandRecord> {
    if c.admittedSeq.None? then
      Some(CommandRecord(c.commandId, None, None, c.admissionTrace, c.startedSeq, c.terminal))
    else
      var single := ReduceSingle(refs, c.admittedSeq.value, (p: Payload) => p.CommandAdmitted?);
      if single.None? || !single.value.commands.Has(id) || single.value.commands.Get(id).value.command.None? then None
      else
        Some(CommandRecord(c.commandId, single.value.commands.Get(id).value.command,
                           c.admittedSeq, c.admissionTrace, c.startedSeq, c.terminal))
  }

  /** The kind of event a message checkpoint must point at. */
  predicate NamesMessage(m: MessageMeta, p: Payload) {
    match m
    case System(_, _, _) => p.SystemMessageCommitted?
    case User(_, _, _, _, requested, _, _) => if requested.None?
      then p.UserMessageCommitted?
      else p.UserMessageSubmitted?
    case Steering(_, _, _, _, _, _) => p.SteeringMessageQueued?
    case Assistant(_, _, _, _, imported, _, _) => if imported
      then p.AssistantMessageImported?
      else p.AssistantMessageCommitted?
    case AssistantPartial(_, _, _, _, _, _, _) => p.AssistantPartialCommitted?
  }

  function MergeLifecycle(replayed: Lifecycle, l: Lifecycle): Lifecycle {
    Lifecycle(
      OrElse(l.promotedSeq, replayed.promotedSeq), OrElse(l.pausedSeq, replayed.pausedSeq),
      OrElse(l.pausedByCommandId, replayed.pausedByCommandId), OrElse(l.consumedSeq, replayed.consumedSeq),
      OrElse(l.consumedTurnId, replayed.consumedTurnId), OrElse(l.cancelledSeq, replayed.cancelledSeq),
      OrElse(l.cancelledByCommandId, replayed.cancelledByCommandId),
        OrElse(l.cancellationReason, replayed.cancellationReason))
  }

  /** Checkpoint fields override the replayed message's; fields the checkpoint lacks come from it. */
  function MergeMessage(replayed: MessageRecord, m: MessageMeta): MessageRecord {
    var meta :=
      match (replayed.meta, m)
      case (User(_, _, _, _, requested0, disposition0, life0),
        User(id, commandId, now, at, requested, disposition, life)) =>
        User(id, commandId, now, at, OrElse(requested, requested0), OrElse(disposition, disposition0),
          MergeLifecycle(life0, life))
      case (Steering(_, _, _, _, _, life0), Steering(id, commandId, runId, now, at, life)) =>
        Steering(id, commandId, runId, now, at, MergeLifecycle(life0, life))
      case _ => m;
    MessageRecord(meta, replayed.body)
  }

  function DecodeMessage(refs: map<Seq, Event>, id: MessageId, m: MessageMeta): Option<MessageRecord> {
    var single := ReduceSingle(refs, m.at, (p: Payload) => NamesMessage(m, p));
    if single.None? || !single.value.messages.Has(id) then None
    else Some(MergeMessage(single.value.messages.Get(id).value, m))
  }

  function DecodeDecision(refs: map<Seq, Event>, id: ToolCallId, d: DecisionMeta): Option<ToolDecision> {
    var single := ReduceSingle(refs, d.at, (p: Payload) =>
      if d.Created? then p.ToolCallCreated? else p.ToolCallRejected?);
    if single.None? || !single.value.toolCalls.Has(id) then None
    else
      var hydrated := single.value.toolCalls.Get(id).value.decision;
      if hydrated.Some? && hydrated.value.meta.Created? == d.Created? then hydrated else None
  }

  function DecodeTerminal(refs: map<Seq, Event>, id: ToolCallId, t: ToolTerminalMeta): Option<ToolTerminal> {
    var single := ReduceSingle(refs, t.at, (p: Payload) =>
      if t.ToolCompleted? then p.ToolCallCompleted? else p.ToolCallFailed?);
    if single.None? || !single.value.toolCalls.Has(id) then None
    else
      var hydrated := single.value.toolCalls.Get(id).value.terminal;
      if hydrated.Some? && hydrated.value.meta.ToolCompleted? == t.ToolCompleted? then hydrated else None
  }

  function DecodeToolCall(refs: map<Seq, Event>, id: ToolCallId, t: ToolCallCheckpoint): Option<ToolCallRecord> {
    var decision := if t.decision.Some? then DecodeDecision(refs, id, t.decision.value) else None;
    var terminal := if t.terminal.Some? then DecodeTerminal(refs, id, t.terminal.value) else None;
    if (t.decision.Some? && decision.None?) || (t.terminal.Some? && terminal.None?) then None
    else Some(ToolCallRecord(id, decision, t.startedSeq, t.attempt, t.timing, terminal))
  }

  function CommandDecoder(refs: map<Seq, Event>): (CommandId, CommandCheckpoint) -> Option<CommandRecord> {
    (id, c) => DecodeCommand(refs, id, c)
  }

  function ToolCallDecoder(refs: map<Seq, Event>): (ToolCallId, ToolCallCheckpoint) -> Option<ToolCallRecord> {
    (id, t) => DecodeToolCall(refs, id, t)
  }

  function MessageDecoder(refs: map<Seq, Event>): (MessageId, MessageMeta) -> Option<MessageRecord> {
    (id, m) => DecodeMessage(refs, id, m)
  }

  /** Nothing when a pointer is missing or names an event of another kind. */
  function Decode(p: CheckpointPayload, refs: map<Seq, Event>): Option<State> {
    var commands := DecodeEntries(p.commands, CommandDecoder(refs));
    var toolCalls := DecodeEntries(p.toolCalls, ToolCallDecoder(refs));
    var messages := DecodeEntries(p.messages, MessageDecoder(refs));
    if commands.None? || toolCalls.None? || messages.None? then None
    else
      Some(WithQueues(Replay(
             p.lastSeq, p.request, p.model, NewMap(commands.value), NewMap(p.runs), NewMap(p.recoveries),
               NewMap(p.turns),
             NewMap(p.inferences), NewMap(toolCalls.value), NewMap(messages.value), NewMap(p.stopRequests),
             NewMap(p.compactions), p.context, NewMap(p.tokens))))
  }

  // ---------------------------------------------------------------------------
  // Every stored pointer names an event of the right kind carrying that body
  // ---------------------------------------------------------------------------

  ghost predicate InLog(q: Seq, log: seq<Committed>) {
    1 <= q <= |log|
  }

  ghost predicate CommandPointer(c: CommandRecord, id: CommandId, log: seq<Committed>) {
    if c.admittedSeq.None? then c.command.None?
    else
      && InLog(c.admittedSeq.value, log)
      && var p := log[c.admittedSeq.value - 1].event.payload;
         p.CommandAdmitted? && p.command.commandId == id && c.command == Some(p.command)
  }

  ghost predicate MessagePointer(m: MessageRecord, id: MessageId, log: seq<Committed>) {
    && InLog(m.meta.at, log)
    && var e := log[m.meta.at - 1];
       && NamesMessage(m.meta, e.event.payload)
       && NewMessage(e).Some?
       && NewMessage(e).value.meta.messageId == id
       && MergeMessage(NewMessage(e).value, m.meta) == m
  }

  ghost predicate DecisionPointer(d: ToolDecision, id: ToolCallId, log: seq<Committed>) {
    && InLog(d.meta.at, log)
    && var p := log[d.meta.at - 1].event.payload;
       if d.meta.Created? then
         && p.ToolCallCreated? && p.toolCallId == id
         && d == ToolDecision(Created(d.meta.at, p.runId, p.turnId, p.inferenceId, p.call.id, p.call.name,
           p.call.providerExecuted),
                              Some(p.call), None)
       else
         && p.ToolCallRejected? && p.toolCallId == id
         && d == ToolDecision(Rejected(d.meta.at, p.runId, p.turnId, p.inferenceId, p.feedback.id, p.feedback.name),
                              None, Some(p.feedback))
  }

  ghost predicate TerminalPointer(t: ToolTerminal, id: ToolCallId, log: seq<Committed>) {
    && InLog(t.meta.at, log)
    && var p := log[t.meta.at - 1].event.payload;
       if t.meta.ToolCompleted? then
         p.ToolCallCompleted? && p.toolCallId == id && t == ToolTerminal(t.meta, Some(p.result), None)
       else
         && p.ToolCallFailed? && p.toolCallId == id
         && t == ToolTerminal(t.meta, Some(p.result), Some(if p.error.Some? then p.error.value else p.result.result))
  }

  ghost predicate ToolCallPointer(t: ToolCallRecord, id: ToolCallId, log: seq<Committed>) {
    && t.toolCallId == id
    && (t.decision.Some? ==> DecisionPointer(t.decision.value, id, log))
    && (t.terminal.Some? ==> TerminalPointer(t.terminal.value, id, log))
  }

  ghost predicate CommandPointers(m: Commands, log: seq<Committed>) {
    forall id :: m.Has(id) ==> CommandPointer(m.Get(id).value, id, log)
  }

  ghost predicate MessagePointers(m: Messages, log: seq<Committed>) {
    forall id :: m.Has(id) ==> MessagePointer(m.Get(id).value, id, log)
  }

  ghost predicate ToolCallPointers(m: ToolCalls, log: seq<Committed>) {
    forall id :: m.Has(id) ==> ToolCallPointer(m.Get(id).value, id, log)
  }

  ghost predicate PointersHold(r: Replay, log: seq<Committed>) {
    CommandPointers(r.commands, log) && MessagePointers(r.messages, log) && ToolCallPointers(r.toolCalls, log)
  }

  lemma {:induction false} PointersExtend(r: Replay, log: seq<Committed>, e: Committed)
    requires PointersHold(r, log)
    ensures PointersHold(r, log + [e])
  {
    forall id | r.commands.Has(id) ensures CommandPointer(r.commands.Get(id).value, id, log + [e]) {
      assert CommandPointer(r.commands.Get(id).value, id, log);
    }
    forall id | r.messages.Has(id) ensures MessagePointer(r.messages.Get(id).value, id, log + [e]) {
      assert MessagePointer(r.messages.Get(id).value, id, log);
    }
    forall id | r.toolCalls.Has(id) ensures ToolCallPointer(r.toolCalls.Get(id).value, id, log + [e]) {
      assert ToolCallPointer(r.toolCalls.Get(id).value, id, log);
    }
  }

  /** What happens to a message later leaves its pointer valid. */
  lemma {:induction false} EvolvedKeepsPointer(
      m: MessageRecord, n: MessageRecord, consumed: Option<Seq>, id: MessageId, log: seq<Committed>)
    requires MessagePointer(m, id, log) && Evolves(m, n, consumed)
    ensures MessagePointer(n, id, log)
  {
  }

  lemma {:induction false} NewMessagePointer(e: Committed, log: seq<Committed>)
    requires InLog(e.at, log) && log[e.at - 1] == e && NewMessage(e).Some?
    ensures MessagePointer(NewMessage(e).value, NewMessage(e).value.meta.messageId, log)
  {
  }

  lemma {:induction false} ApplyKeepsCommandPointers(m: Commands, log: seq<Committed>, e: Committed)
    requires CommandPointers(m, log)
    requires InLog(e.at, log) && log[e.at - 1] == e
    ensures CommandPointers(ApplyCommands(m, e), log)
  {
  }

  lemma {:induction false} ApplyKeepsMessagePointers(m: Messages, log: seq<Committed>, e: Committed)
    requires MessagePointers(m, log)
    requires InLog(e.at, log) && log[e.at - 1] == e
    ensures MessagePointers(ApplyMessages(m, e), log)
  {
    MessagesEvolve(m, e);
    var n := ApplyMessages(m, e);
    if NewMessage(e).Some? {
      NewMessagePointer(e, log);
    } else {
      forall id | n.Has(id) ensures MessagePointer(n.Get(id).value, id, log) {
        EvolvedKeepsPointer(m.Get(id).value, n.Get(id).value, ConsumedBy(e), id, log);
      }
    }
  }

  predicate DecidesToolCall(p: Payload) {
    p.ToolCallCreated? || p.ToolCallRejected?
  }

  predicate EndsToolCall(p: Payload) {
    p.ToolCallCompleted? || p.ToolCallFailed?
  }

  lemma {:induction false} DecisionPointerAfter(m: ToolCalls, log: seq<Committed>, e: Committed, id: ToolCallId)
    requires m.Has(id) ==> ToolCallPointer(m.Get(id).value, id, log)
    requires InLog(e.at, log) && log[e.at - 1] == e && DecidesToolCall(e.event.payload)
    requires ApplyToolCalls(m, e).Has(id)
    ensures ToolCallPointer(ApplyToolCalls(m, e).Get(id).value, id, log)
  {
  }

  lemma {:induction false} TerminalPointerAfter(m: ToolCalls, log: seq<Committed>, e: Committed, id: ToolCallId)
    requires m.Has(id) ==> ToolCallPointer(m.Get(id).value, id, log)
    requires InLog(e.at, log) && log[e.at - 1] == e && EndsToolCall(e.event.payload)
    requires ApplyToolCalls(m, e).Has(id)
    ensures ToolCallPointer(ApplyToolCalls(m, e).Get(id).value, id, log)
  {
  }

  /** Starting and pruning leave decision and terminal as they were. */
  lemma {:induction false} SamePointerAfter(m: ToolCalls, log: seq<Committed>, e: Committed, id: ToolCallId)
    requires m.Has(id) ==> ToolCallPointer(m.Get(id).value, id, log)
    requires !DecidesToolCall(e.event.payload) && !EndsToolCall(e.event.payload)
    requires ApplyToolCalls(m, e).Has(id)
    ensures ToolCallPointer(ApplyToolCalls(m, e).Get(id).value, id, log)
  {
  }

  lemma {:induction false} ToolCallPointerAfter(m: ToolCalls, log: seq<Committed>, e: Committed, id: ToolCallId)
    requires m.Has(id) ==> ToolCallPointer(m.Get(id).value, id, log)
    requires InLog(e.at, log) && log[e.at - 1] == e
    requires ApplyToolCalls(m, e).Has(id)
    ensures ToolCallPointer(ApplyToolCalls(m, e).Get(id).value, id, log)
  {
    if DecidesToolCall(e.event.payload) {
      DecisionPointerAfter(m, log, e, id);
    } else if EndsToolCall(e.event.payload) {
      TerminalPointerAfter(m, log, e, id);
    } else {
      SamePointerAfter(m, log, e, id);
    }
  }

  lemma {:induction false} ApplyKeepsToolCallPointers(m: ToolCalls, log: seq<Committed>, e: Committed)
    requires ToolCallPointers(m, log)
    requires InLog(e.at, log) && log[e.at - 1] == e
    ensures ToolCallPointers(ApplyToolCalls(m, e), log)
  {
    forall id | ApplyToolCalls(m, e).Has(id) ensures ToolCallPointer(ApplyToolCalls(m, e).Get(id).value, id, log) {
      ToolCallPointerAfter(m, log, e, id);
    }
  }

  /** The pointer invariant of every reachable replay. */
  lemma {:induction false} FoldKeepsPointers(log: seq<Committed>)
    requires Dense(log, 0)
    ensures PointersHold(FoldReplay(GENESIS, log), log)
  {
    if log != [] {
      var front := log[..|log| - 1];
      FoldKeepsPointers(front);
      var r, e := FoldReplay(GENESIS, front), log[|log| - 1];
      assert front + [e] == log;
      PointersExtend(r, front, e);
      ApplyKeepsCommandPointers(r.commands, log, e);
      ApplyKeepsMessagePointers(r.messages, log, e);
      ApplyKeepsToolCallPointers(r.toolCalls, log, e);
    }
  }

  // ---------------------------------------------------------------------------
  // Reading back
  // ---------------------------------------------------------------------------

  lemma {:induction false} SingleEvent(refs: map<Seq, Event>, q: Seq)
    requires q in refs
    ensures FoldReplay(GENESIS, [Committed(q, refs[q])]) == Apply(GENESIS, Committed(q, refs[q]))
  {
    var log := [Committed(q, refs[q])];
    assert log[..0] == [];
  }

  lemma {:induction false} EncodedEntry<K(!new), V, W>(m: OMap<K, V>, encode: V -> W, k: K)
    requires m.Has(k)
    ensures (k, encode(m.Get(k).value)) in EncodeEntries(m, encode)
  {
    if m.key != k {
      EncodedEntry(m.rest, encode, k);
    }
  }

  lemma {:induction false} EntryIsEncoded<K(!new), V, W>(m: OMap<K, V>, encode: V -> W, e: (K, W))
    requires m.Unique() && e in EncodeEntries(m, encode)
    ensures m.Has(e.0) && e.1 == encode(m.Get(e.0).value)
  {
    if e != (m.key, encode(m.value)) {
      EntryIsEncoded(m.rest, encode, e);
    }
  }

  lemma {:induction false} PointersInLog(r: Replay, log: seq<Committed>)
    requires PointersHold(r, log)
    ensures forall q :: q in PointerSeqs(Encode(WithQueues(r))) ==> InLog(q, log)
  {
    var p := Encode(WithQueues(r));
    forall q | q in PointerSeqs(p) ensures InLog(q, log) {
      if e :| e in p.commands && q in OptionSet(e.1.admittedSeq) {
        EntryIsEncoded(r.commands, EncodeCommand, e);
        assert CommandPointer(r.commands.Get(e.0).value, e.0, log);
      } else if e :| e in p.messages && q == e.1.at {
        EntryIsEncoded(r.messages, EncodeMessage, e);
        assert MessagePointer(r.messages.Get(e.0).value, e.0, log);
      } else {
        var e :| e in p.toolCalls && q in ToolCallSeqs(e.1);
        EntryIsEncoded(r.toolCalls, EncodeToolCall, e);
        assert ToolCallPointer(r.toolCalls.Get(e.0).value, e.0, log);
      }
    }
  }

  lemma {:induction false} DecodeEncodedCommand(r: Replay, log: seq<Committed>, refs: map<Seq, Event>, id: CommandId)
    requires Dense(log, 0) && PointersHold(r, log) && r.commands.Has(id)
    requires forall q :: q in OptionSet(r.commands.Get(id).value.admittedSeq) ==>
             q in refs && InLog(q, log) && refs[q] == log[q - 1].event
    ensures DecodeCommand(refs, id, EncodeCommand(r.commands.Get(id).value)) == r.commands.Get(id)
  {
    var c := r.commands.Get(id).value;
    assert CommandPointer(c, id, log);
    if c.admittedSeq.Some? {
      assert c.admittedSeq.value in OptionSet(c.admittedSeq);
      SingleEvent(refs, c.admittedSeq.value);
    }
  }

  lemma {:induction false} DecodeEncodedMessage(r: Replay, log: seq<Committed>, refs: map<Seq, Event>, id: MessageId)
    requires Dense(log, 0) && PointersHold(r, log) && r.messages.Has(id)
    requires var q := r.messages.Get(id).value.meta.at; q in refs && InLog(q, log) && refs[q] == log[q - 1].event
    ensures DecodeMessage(refs, id, EncodeMessage(r.messages.Get(id).value)) == r.messages.Get(id)
  {
    var m := r.messages.Get(id).value;
    assert MessagePointer(m, id, log);
    SingleEvent(refs, m.meta.at);
    assert log[m.meta.at - 1] == Committed(m.meta.at, refs[m.meta.at]);
  }

  lemma {:induction false} DecodeEncodedDecision(
      d: ToolDecision, log: seq<Committed>, refs: map<Seq, Event>, id: ToolCallId)
    requires Dense(log, 0) && DecisionPointer(d, id, log)
    requires d.meta.at in refs && refs[d.meta.at] == log[d.meta.at - 1].event
    ensures DecodeDecision(refs, id, d.meta) == Some(d)
  {
    SingleEvent(refs, d.meta.at);
  }

  lemma {:induction false} DecodeEncodedTerminal(
      t: ToolTerminal, log: seq<Committed>, refs: map<Seq, Event>, id: ToolCallId)
    requires Dense(log, 0) && TerminalPointer(t, id, log)
    requires t.meta.at in refs && refs[t.meta.at] == log[t.meta.at - 1].event
    ensures DecodeTerminal(refs, id, t.meta) == Some(t)
  {
    SingleEvent(refs, t.meta.at);
  }

  lemma {:induction false} DecodeEncodedToolCall(r: Replay, log: seq<Committed>, refs: map<Seq, Event>, id: ToolCallId)
    requires Dense(log, 0) && PointersHold(r, log) && r.toolCalls.Has(id)
    requires forall q :: q in ToolCallSeqs(EncodeToolCall(r.toolCalls.Get(id).value)) ==>
                           q in refs && InLog(q, log) && refs[q] == log[q - 1].event
    ensures DecodeToolCall(refs, id, EncodeToolCall(r.toolCalls.Get(id).value)) == r.toolCalls.Get(id)
  {
    var t := r.toolCalls.Get(id).value;
    assert ToolCallPointer(t, id, log);
    if t.decision.Some? {
      assert t.decision.value.meta.at in ToolCallSeqs(EncodeToolCall(t));
      DecodeEncodedDecision(t.decision.value, log, refs, id);
    }
    if t.terminal.Some? {
      assert t.terminal.value.meta.at in ToolCallSeqs(EncodeToolCall(t));
      DecodeEncodedTerminal(t.terminal.value, log, refs, id);
    }
  }

  /** The events at the pointers of a replay, as the log holds them. */
  ghost predicate Covers(refs: map<Seq, Event>, r: Replay, log: seq<Committed>) {
    forall q :: q in PointerSeqs(Encode(WithQueues(r))) ==> q in refs && InLog(q, log) && refs[q] == log[q - 1].event
  }

  lemma {:induction false} DecodeEncodedCommands(r: Replay, log: seq<Committed>, refs: map<Seq, Event>)
    requires Dense(log, 0) && PointersHold(r, log) && Covers(refs, r, log)
    ensures DecodeEntries(EncodeEntries(r.commands, EncodeCommand), CommandDecoder(refs)) == Some(r.commands.Entries())
  {
    forall id | r.commands.Has(id)
      ensures CommandDecoder(refs)(id, EncodeCommand(r.commands.Get(id).value)) == r.commands.Get(id)
    {
      EncodedEntry(r.commands, EncodeCommand, id);
      DecodeEncodedCommand(r, log, refs, id);
    }
    DecodeEncodedEntries(r.commands, EncodeCommand, CommandDecoder(refs));
  }

  lemma {:induction false} DecodeEncodedToolCalls(r: Replay, log: seq<Committed>, refs: map<Seq, Event>)
    requires Dense(log, 0) && PointersHold(r, log) && Covers(refs, r, log)
    ensures DecodeEntries(EncodeEntries(r.toolCalls, EncodeToolCall), ToolCallDecoder(refs))
            == Some(r.toolCalls.Entries())
  {
    forall id | r.toolCalls.Has(id)
      ensures ToolCallDecoder(refs)(id, EncodeToolCall(r.toolCalls.Get(id).value)) == r.toolCalls.Get(id)
    {
      EncodedEntry(r.toolCalls, EncodeToolCall, id);
      DecodeEncodedToolCall(r, log, refs, id);
    }
    DecodeEncodedEntries(r.toolCalls, EncodeToolCall, ToolCallDecoder(refs));
  }

  lemma {:induction false} DecodeEncodedMessages(r: Replay, log: seq<Committed>, refs: map<Seq, Event>)
    requires Dense(log, 0) && PointersHold(r, log) && Covers(refs, r, log)
    ensures DecodeEntries(EncodeEntries(r.messages, EncodeMessage), MessageDecoder(refs)) == Some(r.messages.Entries())
  {
    forall id | r.messages.Has(id)
      ensures MessageDecoder(refs)(id, EncodeMessage(r.messages.Get(id).value)) == r.messages.Get(id)
    {
      EncodedEntry(r.messages, EncodeMessage, id);
      DecodeEncodedMessage(r, log, refs, id);
    }
    DecodeEncodedEntries(r.messages, EncodeMessage, MessageDecoder(refs));
  }

  lemma {:induction false} MapsReadBack(r: Replay)
    ensures NewMap(r.commands.Entries()) == r.commands && NewMap(r.runs.Entries()) == r.runs
    ensures NewMap(r.recoveries.Entries()) == r.recoveries && NewMap(r.turns.Entries()) == r.turns
    ensures NewMap(r.inferences.Entries()) == r.inferences && NewMap(r.toolCalls.Entries()) == r.toolCalls
    ensures NewMap(r.messages.Entries()) == r.messages && NewMap(r.stopRequests.Entries()) == r.stopRequests
    ensures NewMap(r.compactions.Entries()) == r.compactions && NewMap(r.tokens.Entries()) == r.tokens
  {
    NewMapOfEntries(r.commands);
    NewMapOfEntries(r.runs);
    NewMapOfEntries(r.recoveries);
    NewMapOfEntries(r.turns);
    NewMapOfEntries(r.inferences);
    NewMapOfEntries(r.toolCalls);
    NewMapOfEntries(r.messages);
    NewMapOfEntries(r.stopRequests);
    NewMapOfEntries(r.compactions);
    NewMapOfEntries(r.tokens);
  }

  /** Decoding with exactly the events the pointers name gives back a reachable state. */
  lemma {:induction false} DecodeOfEncode(log: seq<Committed>)
    requires Dense(log, 0)
    ensures var p := Encode(Reduce(log));
            && (forall q :: q in PointerSeqs(p) ==> InLog(q, log))
            && Decode(p, Referenced(log, PointerSeqs(p))) == Some(Reduce(log))
  {
    var s := Reduce(log);
    var r := s.replay;
    var p := Encode(s);
    FoldKeepsPointers(log);
    PointersInLog(r, log);
    var refs := Referenced(log, PointerSeqs(p));
    DecodeEncodedCommands(r, log, refs);
    DecodeEncodedToolCalls(r, log, refs);
    DecodeEncodedMessages(r, log, refs);
    MapsReadBack(r);
  }

  /**
   * Resuming from a checkpoint: for every log and split point, decoding the prefix's checkpoint
   * with only the events it points at and folding the rest is folding the whole log.
   */
  lemma {:induction false} ResumeEqualsReplay(log: seq<Committed>, split: nat)
    requires Dense(log, 0) && split <= |log|
    ensures var p := Encode(Reduce(log[..split]));
            var decoded := Decode(p, Referenced(log, PointerSeqs(p)));
            && (forall q :: q in PointerSeqs(p) ==> 1 <= q <= split)
            && decoded.Some?
            && Fold(decoded.value, log[split..]) == Reduce(log)
  {
    var front := log[..split];
    var p := Encode(Reduce(front));
    DecodeOfEncode(front);
    assert Referenced(log, PointerSeqs(p)) == Referenced(front, PointerSeqs(p));
    ReduceThenFold(log, split);
  }

  lemma {:induction false} ReduceThenFold(log: seq<Committed>, split: nat)
    requires split <= |log|
    ensures Fold(Reduce(log[..split]), log[split..]) == Reduce(log)
  {
    assert log[..split] + log[split..] == log;
    FoldAppend(GENESIS, log[..split], log[split..]);
  }
}
