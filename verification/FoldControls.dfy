/** What the folded state records of tool calls, stop requests, compactions and recoveries, read off the log. */
module FoldControls {
  import opened Collections
  import opened Events
  import opened Records
  import opened CommandQueues
  import opened ReducedState
  import opened LogQueries
  import opened FoldRecords

  // ---------------------------------------------------------------------------
  // Tool calls
  // ---------------------------------------------------------------------------

  function Decides(id: ToolCallId): Committed -> bool {
    (e: Committed) =>
      (e.event.payload.ToolCallCreated? || e.event.payload.ToolCallRejected?) && e.event.payload.toolCallId == id
  }

  function StartsTool(id: ToolCallId): Committed -> bool {
    (e: Committed) => e.event.payload.ToolCallStarted? && e.event.payload.toolCallId == id
  }

  function StartsPlainly(id: ToolCallId): Committed -> bool {
    (e: Committed) =>
      e.event.payload.ToolCallStarted? && e.event.payload.toolCallId == id && e.event.payload.attempt.None?
  }

  function StartsAttempt(id: ToolCallId): Committed -> bool {
    (e: Committed) =>
      e.event.payload.ToolCallStarted? && e.event.payload.toolCallId == id && e.event.payload.attempt.Some?
  }

  function EndsTool(id: ToolCallId): Committed -> bool {
    (e: Committed) =>
      (e.event.payload.ToolCallCompleted? || e.event.payload.ToolCallFailed?) && e.event.payload.toolCallId == id
  }

  /** The start that counts: the last one without an attempt number, or else the first one. */
  function ToolStart(events: seq<Committed>, id: ToolCallId): Option<Committed> {
    var plain := Latest(events, StartsPlainly(id));
    if plain.Some? then plain else Earliest(events, StartsTool(id))
  }

  function DecisionOf(e: Committed): ToolDecision {
    match e.event.payload
    case ToolCallCreated(runId, turnId, inferenceId, _, call) =>
      var meta := Created(e.at, runId, turnId, inferenceId, call.id, call.name, call.providerExecuted);
      ToolDecision(meta, Some(call), None)
    case ToolCallRejected(runId, turnId, inferenceId, _, feedback) =>
      ToolDecision(Rejected(e.at, runId, turnId, inferenceId, feedback.id, feedback.name), None, Some(feedback))
    case _ => ToolDecision(Rejected(e.at, "", "", "", "", ""), None, None)
  }

  function EndOfTool(e: Committed): ToolTerminal {
    match e.event.payload
    case ToolCallFailed(_, result, error) =>
      ToolTerminal(ToolFailed(e.at), Some(result), Some(if error.Some? then error.value else result.result))
    case ToolCallCompleted(_, result) => ToolTerminal(ToolCompleted(e.at), Some(result), None)
    case _ => ToolTerminal(ToolCompleted(e.at), None, None)
  }

  /**
   * The record of a tool call with its last decision, the start that counts, its last attempt and its last end.
   * The duration is the time between that end and the start that counted before it.
   */
  function ToolRecord(id: ToolCallId, decided: Option<Committed>, started: Option<Committed>,
                      attempted: Option<Committed>, before: Option<Committed>, ended: Option<Committed>)
    : Option<ToolCallRecord>
    requires attempted.Some? ==> attempted.value.event.payload.ToolCallStarted?
  {
    if decided.None? && started.None? && ended.None? then None
    else
      Some(ToolCallRecord(
             id,
             if decided.Some? then Some(DecisionOf(decided.value)) else None,
             AtOf(started),
             if attempted.Some? then attempted.value.event.payload.attempt else None,
             Timing(TimeOf(started), TimeOf(ended), Between(before, ended)),
             if ended.Some? then Some(EndOfTool(ended.value)) else None))
  }

  function ToolCallIn(events: seq<Committed>, id: ToolCallId): Option<ToolCallRecord> {
    ToolRecord(id, Latest(events, Decides(id)), ToolStart(events, id), Latest(events, StartsAttempt(id)),
               ToolStart(BeforeLatest(events, EndsTool(id)), id), Latest(events, EndsTool(id)))
  }

  function ToolCallDrops(id: ToolCallId): Drops {
    (log: seq<Committed>, events: seq<Committed>, e: Committed) => RebasesPast(e, Latest(events, EndsTool(id)))
  }

  function NextToolCall(r: Option<ToolCallRecord>, e: Committed, id: ToolCallId): Option<ToolCallRecord> {
    var p, now := e.event.payload, e.event.createdAtMs;
    var known := if r.Some? then r.value else ToolCallRecord(id, None, None, None, Timing(None, None, None), None);
    if Decides(id)(e) then Some(known.(decision := Some(DecisionOf(e))))
    else if StartsTool(id)(e) then
      var counted :=
        if p.attempt.None? || known.startedSeq.None?
        then known.(startedSeq := Some(e.at), timing := known.timing.(startedAtMs := Some(now))) else known;
      Some(if p.attempt.Some? then counted.(attempt := p.attempt) else counted)
    else if EndsTool(id)(e) then
      Some(known.(timing := Closed(known.timing, now), terminal := Some(EndOfTool(e))))
    else if && p.ContextRebased? && known.terminal.Some?
            && known.terminal.value.meta.at < p.retainedFromContextSeq then None
    else r
  }

  lemma {:induction false} ToolCallAt(m: ToolCalls, e: Committed, id: ToolCallId)
    ensures ApplyToolCalls(m, e).Get(id) == NextToolCall(m.Get(id), e, id)
  {
    if e.event.payload.ContextRebased? {
      ToolPruned(m, e, id);
    }
  }

  lemma {:induction false} ToolPruned(m: ToolCalls, e: Committed, id: ToolCallId)
    requires e.event.payload.ContextRebased?
    ensures ApplyToolCalls(m, e).Get(id) == NextToolCall(m.Get(id), e, id)
  {
  }

  lemma {:induction false} ToolStartSnoc(events: seq<Committed>, e: Committed, id: ToolCallId)
    ensures ToolStart(events + [e], id) ==
            if StartsTool(id)(e) && (e.event.payload.attempt.None? || ToolStart(events, id).None?) then Some(e)
            else ToolStart(events, id)
    ensures ToolStart(events, id).Some? <==> Latest(events, StartsTool(id)).Some?
  {
    Snoc(events, e, StartsPlainly(id));
    Snoc(events, e, StartsTool(id));
    PlainStarts(events, id);
  }

  lemma {:induction false} PlainStarts(events: seq<Committed>, id: ToolCallId)
    ensures Latest(events, StartsPlainly(id)).Some? ==> Latest(events, StartsTool(id)).Some?
  {
  }

  /** A start before the last end is a start. */
  lemma {:induction false} StartedBefore(events: seq<Committed>, id: ToolCallId)
    ensures ToolStart(BeforeLatest(events, EndsTool(id)), id).Some? ==> ToolStart(events, id).Some?
    ensures Latest(events, EndsTool(id)).None? ==> BeforeLatest(events, EndsTool(id)) == []
  {
    if events != [] {
      var front, e := events[..|events| - 1], events[|events| - 1];
      assert events == front + [e];
      StartedBefore(front, id);
      ToolStartSnoc(front, e, id);
      Snoc(front, e, EndsTool(id));
    }
  }

  lemma {:induction false} ToolSnocs(events: seq<Committed>, e: Committed, id: ToolCallId)
    ensures Latest(events + [e], Decides(id)) == if Decides(id)(e) then Some(e) else Latest(events, Decides(id))
    ensures Latest(events + [e], StartsTool(id)) ==
            if StartsTool(id)(e) then Some(e) else Latest(events, StartsTool(id))
    ensures Latest(events + [e], StartsAttempt(id)) ==
            if StartsAttempt(id)(e) then Some(e) else Latest(events, StartsAttempt(id))
    ensures Latest(events + [e], EndsTool(id)) == if EndsTool(id)(e) then Some(e) else Latest(events, EndsTool(id))
    ensures ToolStart(events + [e], id) ==
            if StartsTool(id)(e) && (e.event.payload.attempt.None? || ToolStart(events, id).None?) then Some(e)
            else ToolStart(events, id)
    ensures BeforeLatest(events + [e], EndsTool(id)) ==
            if EndsTool(id)(e) then events else BeforeLatest(events, EndsTool(id))
    ensures ToolStart(events, id).Some? <==> Latest(events, StartsTool(id)).Some?
    ensures ToolStart([], id).None?
    ensures Latest(events, EndsTool(id)).None? ==> BeforeLatest(events, EndsTool(id)) == []
    ensures ToolStart(BeforeLatest(events, EndsTool(id)), id).Some? ==> ToolStart(events, id).Some?
    ensures Latest(events, StartsTool(id)).None? ==> Latest(events, StartsAttempt(id)).None?
  {
    Snoc(events, e, Decides(id));
    Snoc(events, e, StartsTool(id));
    Snoc(events, e, StartsAttempt(id));
    Snoc(events, e, EndsTool(id));
    ToolStartSnoc(events, e, id);
    StartedBefore(events, id);
  }

  lemma {:induction false} ToolDecided(
      id: ToolCallId, decided: Option<Committed>, started: Option<Committed>, attempted: Option<Committed>,
      before: Option<Committed>, ended: Option<Committed>, e: Committed)
    requires attempted.Some? ==> attempted.value.event.payload.ToolCallStarted?
    requires started.None? ==> attempted.None? && before.None?
    requires ended.None? ==> before.None?
    requires Decides(id)(e)
    ensures NextToolCall(ToolRecord(id, decided, started, attempted, before, ended), e, id)
            == ToolRecord(id, Some(e), started, attempted, before, ended)
  {
  }

  lemma {:induction false} ToolStarted(
      id: ToolCallId, decided: Option<Committed>, started: Option<Committed>, attempted: Option<Committed>,
      before: Option<Committed>, ended: Option<Committed>, e: Committed)
    requires attempted.Some? ==> attempted.value.event.payload.ToolCallStarted?
    requires started.None? ==> attempted.None? && before.None?
    requires ended.None? ==> before.None?
    requires StartsTool(id)(e)
    ensures NextToolCall(ToolRecord(id, decided, started, attempted, before, ended), e, id)
            == ToolRecord(id, decided, if StartsPlainly(id)(e) || started.None? then Some(e) else started,
                          if StartsAttempt(id)(e) then Some(e) else attempted, before, ended)
  {
  }

  lemma {:induction false} ToolEnded(
      id: ToolCallId, decided: Option<Committed>, started: Option<Committed>, attempted: Option<Committed>,
      before: Option<Committed>, ended: Option<Committed>, e: Committed)
    requires attempted.Some? ==> attempted.value.event.payload.ToolCallStarted?
    requires started.None? ==> attempted.None? && before.None?
    requires ended.None? ==> before.None?
    requires EndsTool(id)(e)
    ensures NextToolCall(ToolRecord(id, decided, started, attempted, before, ended), e, id)
            == ToolRecord(id, decided, started, attempted, started, Some(e))
  {
  }

  lemma {:induction false} ToolRebased(events: seq<Committed>, e: Committed, id: ToolCallId)
    requires e.event.payload.ContextRebased?
    ensures NextToolCall(ToolCallIn(events, id), e, id)
            == if RebasesPast(e, Latest(events, EndsTool(id))) then None else ToolCallIn(events, id)
  {
  }

  lemma {:induction false} ToolKept(events: seq<Committed>, e: Committed, id: ToolCallId)
    requires e.event.payload.ContextRebased?
    ensures ToolCallIn(events + [e], id) == ToolCallIn(events, id)
  {
    ToolSnocs(events, e, id);
  }

  lemma {:induction false} NoToolCall(id: ToolCallId)
    ensures ToolCallIn([], id) == None
  {
  }

  lemma {:induction false} ToolAdded(events: seq<Committed>, e: Committed, id: ToolCallId)
    requires !e.event.payload.ContextRebased?
    ensures ToolCallIn(events + [e], id) == NextToolCall(ToolCallIn(events, id), e, id)
  {
    var decided, started := Latest(events, Decides(id)), ToolStart(events, id);
    var attempted, ended := Latest(events, StartsAttempt(id)), Latest(events, EndsTool(id));
    var before := ToolStart(BeforeLatest(events, EndsTool(id)), id);
    ToolSnocs(events, e, id);
    if Decides(id)(e) {
      ToolDecided(id, decided, started, attempted, before, ended, e);
    } else if StartsTool(id)(e) {
      ToolStarted(id, decided, started, attempted, before, ended, e);
    } else if EndsTool(id)(e) {
      ToolEnded(id, decided, started, attempted, before, ended, e);
    } else {
      ToolUntouched(ToolCallIn(events, id), e, id);
    }
  }

  lemma {:induction false} ToolUntouched(r: Option<ToolCallRecord>, e: Committed, id: ToolCallId)
    requires !e.event.payload.ContextRebased? && !Decides(id)(e) && !StartsTool(id)(e) && !EndsTool(id)(e)
    ensures NextToolCall(r, e, id) == r
  {
  }

  lemma {:induction false} ToolCallStep(log: seq<Committed>, events: seq<Committed>, e: Committed, id: ToolCallId)
    ensures ToolCallIn(After(ToolCallDrops(id), log, events, e), id) == NextToolCall(ToolCallIn(events, id), e, id)
  {
    if e.event.payload.ContextRebased? {
      ToolRebased(events, e, id);
      ToolKept(events, e, id);
      NoToolCall(id);
    } else {
      ToolAdded(events, e, id);
    }
  }

  lemma {:induction false} ToolCallsFolded(log: seq<Committed>, id: ToolCallId)
    ensures FoldToolCalls(Empty, log).Get(id) == ToolCallIn(Counting(log, ToolCallDrops(id)), id)
  {
    if log != [] {
      var front, e := log[..|log| - 1], log[|log| - 1];
      ToolCallsFolded(front, id);
      ToolCallStep(front, Counting(front, ToolCallDrops(id)), e, id);
      ToolCallAt(FoldToolCalls(Empty, front), e, id);
    }
  }

  lemma {:induction false} ToolCallsRecorded(log: seq<Committed>, id: ToolCallId)
    ensures FoldReplay(GENESIS, log).toolCalls.Get(id) == ToolCallIn(Counting(log, ToolCallDrops(id)), id)
  {
    ToolCallsFolded(log, id);
    FoldByMap(GENESIS, log);
  }

  // ---------------------------------------------------------------------------
  // Stop requests
  // ---------------------------------------------------------------------------

  function RequestsStop(id: CommandId): Committed -> bool {
    (e: Committed) => e.event.payload.StopTurnRequested? && e.event.payload.commandId == id
  }

  function AppliesStop(id: CommandId): Committed -> bool {
    (e: Committed) => e.event.payload.StopTurnApplied? && e.event.payload.commandId == id
  }

  /** The record of a stop: its last request, or else its first application, and its last application. */
  function StopIn(events: seq<Committed>, id: CommandId): Option<StopRequestRecord> {
    var requested, applied := Latest(events, RequestsStop(id)), Latest(events, AppliesStop(id));
    var first := Earliest(events, AppliesStop(id));
    if requested.None? && first.None? then None
    else
      var r := StopRequestRecord(
        id, if requested.Some? then requested.value.at else first.value.at,
        if requested.Some? then requested.value.event.payload.requestedRunId else None,
        if requested.Some? then requested.value.event.payload.requestedTurnId else None, None, None, None, None);
      Some(if applied.None? then r
           else
             var p := applied.value.event.payload;
             r.(appliedSeq := Some(applied.value.at), appliedRunId := Some(p.runId), appliedTurnId := Some(p.turnId),
                appliedInferenceId := p.appliedInferenceId))
  }

  function StopDrops(id: CommandId): Drops {
    (log: seq<Committed>, events: seq<Committed>, e: Committed) => RebasesPast(e, Latest(events, AppliesStop(id)))
  }

  function NextStop(r: Option<StopRequestRecord>, e: Committed, id: CommandId): Option<StopRequestRecord> {
    var p := e.event.payload;
    if RequestsStop(id)(e) then
      var known := if r.Some? && r.value.appliedSeq.Some? then r.value
                   else StopRequestRecord(id, e.at, None, None, None, None, None, None);
      Some(known.(requestedSeq := e.at, requestedRunId := p.requestedRunId, requestedTurnId := p.requestedTurnId))
    else if AppliesStop(id)(e) then
      var known := if r.Some? then r.value else StopRequestRecord(id, e.at, None, None, None, None, None, None);
      Some(known.(appliedSeq := Some(e.at), appliedRunId := Some(p.runId), appliedTurnId := Some(p.turnId),
                  appliedInferenceId := p.appliedInferenceId))
    else if && p.ContextRebased? && r.Some? && r.value.appliedSeq.Some?
            && r.value.appliedSeq.value < p.retainedFromContextSeq then None
    else r
  }

  lemma {:induction false} StopAt(m: StopRequests, e: Committed, id: CommandId)
    ensures ApplyStopRequests(m, e).Get(id) == NextStop(m.Get(id), e, id)
  {
  }

  lemma {:induction false} StopRequested(events: seq<Committed>, e: Committed, id: CommandId)
    requires RequestsStop(id)(e)
    ensures StopIn(events + [e], id) == NextStop(StopIn(events, id), e, id)
  {
    Snoc(events, e, RequestsStop(id));
    Snoc(events, e, AppliesStop(id));
  }

  lemma {:induction false} StopApplied(events: seq<Committed>, e: Committed, id: CommandId)
    requires AppliesStop(id)(e)
    ensures StopIn(events + [e], id) == NextStop(StopIn(events, id), e, id)
  {
    Snoc(events, e, RequestsStop(id));
    Snoc(events, e, AppliesStop(id));
  }

  lemma {:induction false} StopStep(log: seq<Committed>, events: seq<Committed>, e: Committed, id: CommandId)
    ensures StopIn(After(StopDrops(id), log, events, e), id) == NextStop(StopIn(events, id), e, id)
  {
    if RequestsStop(id)(e) {
      StopRequested(events, e, id);
    } else if AppliesStop(id)(e) {
      StopApplied(events, e, id);
    } else {
      Snoc(events, e, RequestsStop(id));
      Snoc(events, e, AppliesStop(id));
    }
  }

  lemma {:induction false} StopsRecorded(log: seq<Committed>, id: CommandId)
    ensures FoldReplay(GENESIS, log).stopRequests.Get(id) == StopIn(Counting(log, StopDrops(id)), id)
  {
    if log != [] {
      var front, e := log[..|log| - 1], log[|log| - 1];
      StopsRecorded(front, id);
      StopStep(front, Counting(front, StopDrops(id)), e, id);
      StopAt(FoldReplay(GENESIS, front).stopRequests, e, id);
    }
  }
}
