/** Every fact the fold records was established by an event of the log about that very record. */
module Provenance {
  import opened Collections
  import opened Events
  import opened Records
  import opened CommandQueues
  import opened ReducedState
  import opened ReplayInvariants
  import opened Checkpoint

  function PayloadAt(log: seq<Committed>, q: Seq): Payload
    requires InLog(q, log)
  {
    log[q - 1].event.payload
  }

  // ---------------------------------------------------------------------------
  // Lifecycles of work
  // ---------------------------------------------------------------------------

  ghost predicate CommandOrigin(c: CommandRecord, id: CommandId, log: seq<Committed>) {
    && (c.startedSeq.Some? ==>
      InLog(c.startedSeq.value, log)
      && PayloadAt(log, c.startedSeq.value) == CommandStarted(id))
    && (c.terminal.Some? ==>
          InLog(c.terminal.value.at, log) && PayloadAt(log, c.terminal.value.at)
            == CommandClosed(id, c.terminal.value.outcome))
  }

  /** Times are those of the events, and a duration is never negative. */
  ghost predicate TimingOrigin(t: Timing, startedSeq: Seq, terminal: Option<Terminal>, log: seq<Committed>)
    requires InLog(startedSeq, log)
    requires terminal.Some? ==> InLog(terminal.value.at, log)
  {
    && t.startedAtMs == Some(log[startedSeq - 1].event.createdAtMs)
    && (t.terminalAtMs.Some? ==>
          && terminal.Some? && t.terminalAtMs.value == log[terminal.value.at - 1].event.createdAtMs
          && t.durationMs == Some(Max(0, t.terminalAtMs.value - t.startedAtMs.value)))
  }

  ghost predicate RunOrigin(r: RunRecord, id: RunId, log: seq<Committed>) {
    && InLog(r.startedSeq, log)
    && (var p := PayloadAt(log, r.startedSeq);
        p.RunStarted? && p.runId == id && p.commandIds == r.commandIds && r.model == Some(p.runModel))
    && r.trace == log[r.startedSeq - 1].event.trace
    && (r.terminal.Some? ==>
          InLog(r.terminal.value.at, log) && PayloadAt(log, r.terminal.value.at)
            == RunClosed(id, r.terminal.value.outcome))
    && TimingOrigin(r.timing, r.startedSeq, r.terminal, log)
  }

  ghost predicate TurnOrigin(t: TurnRecord, id: TurnId, log: seq<Committed>) {
    && InLog(t.startedSeq, log)
    && (var p := PayloadAt(log, t.startedSeq); p.TurnStarted? && p.turnId == id && p.runId == t.runId)
    && (t.terminal.Some? ==>
          InLog(t.terminal.value.at, log) && PayloadAt(log, t.terminal.value.at)
            == TurnClosed(id, t.terminal.value.outcome))
    && TimingOrigin(t.timing, t.startedSeq, t.terminal, log)
  }

  ghost predicate InferenceEnded(p: Payload, id: InferenceId, outcome: Outcome) {
    match outcome
    case Completed(usage) => p.InferenceCompleted? && p.inferenceId == id && p.usage == usage
    case Failed(error) => p == InferenceFailed(id, error)
    case Aborted(_) => false
  }

  ghost predicate InferenceOrigin(i: InferenceRecord, id: InferenceId, log: seq<Committed>) {
    && InLog(i.startedSeq, log)
    && PayloadAt(log, i.startedSeq) == InferenceStarted(i.runId, i.turnId, id)
    && (i.terminal.Some? ==>
          InLog(i.terminal.value.at, log)
            && InferenceEnded(PayloadAt(log, i.terminal.value.at), id, i.terminal.value.outcome))
    && TimingOrigin(i.timing, i.startedSeq, i.terminal, log)
  }

  lemma {:induction false} CommandOriginStays(c: CommandRecord, id: CommandId, log: seq<Committed>, e: Committed)
    requires CommandOrigin(c, id, log)
    ensures CommandOrigin(c, id, log + [e])
  {
  }

  lemma {:induction false} CommandOriginKept(m: Commands, log: seq<Committed>, e: Committed, id: CommandId)
    requires m.Has(id) ==> CommandOrigin(m.Get(id).value, id, log)
    requires e.at == |log| + 1
    ensures ApplyCommands(m, e).Has(id) ==> CommandOrigin(ApplyCommands(m, e).Get(id).value, id, log + [e])
  {
    if m.Has(id) {
      CommandOriginStays(m.Get(id).value, id, log, e);
    }
    assert PayloadAt(log + [e], e.at) == e.event.payload;
  }

  lemma {:induction false} RunOriginStays(r: RunRecord, id: RunId, log: seq<Committed>, e: Committed)
    requires RunOrigin(r, id, log)
    ensures RunOrigin(r, id, log + [e])
  {
  }

  /** A run starts with the data of its event; a close seen before it stays. */
  lemma {:induction false} RunOriginStarted(m: Runs, id: RunId, log: seq<Committed>, e: Committed)
    requires m.Has(id) ==> RunOrigin(m.Get(id).value, id, log)
    requires e.at == |log| + 1 && e.event.payload.RunStarted? && e.event.payload.runId == id
    ensures RunOrigin(ApplyRuns(m, e).Get(id).value, id, log + [e])
  {
    if m.Has(id) {
      RunOriginStays(m.Get(id).value, id, log, e);
    }
    assert (log + [e])[e.at - 1] == e;
  }

  lemma {:induction false} RunOriginClosed(r: RunRecord, id: RunId, log: seq<Committed>, e: Committed)
    requires RunOrigin(r, id, log)
    requires e.at == |log| + 1 && e.event.payload.RunClosed? && e.event.payload.runId == id
    ensures var closed := r.(timing := Closed(r.timing, e.event.createdAtMs),
                             terminal := Some(Terminal(e.at, e.event.payload.outcome)));
            RunOrigin(closed, id, log + [e])
  {
    RunOriginStays(r, id, log, e);
    assert (log + [e])[e.at - 1] == e;
  }

  lemma {:induction false} RunOriginKept(m: Runs, log: seq<Committed>, e: Committed, id: RunId)
    requires m.Has(id) ==> RunOrigin(m.Get(id).value, id, log)
    requires e.at == |log| + 1
    ensures ApplyRuns(m, e).Has(id) ==> RunOrigin(ApplyRuns(m, e).Get(id).value, id, log + [e])
  {
    var p := e.event.payload;
    if p.RunStarted? && p.runId == id {
      RunOriginStarted(m, id, log, e);
    } else if m.Has(id) {
      RunOriginStays(m.Get(id).value, id, log, e);
      if p.RunClosed? && p.runId == id {
        RunOriginClosed(m.Get(id).value, id, log, e);
      }
    }
  }

  lemma {:induction false} TurnOriginStays(t: TurnRecord, id: TurnId, log: seq<Committed>, e: Committed)
    requires TurnOrigin(t, id, log)
    ensures TurnOrigin(t, id, log + [e])
  {
  }

  lemma {:induction false} TurnOriginStarted(m: Turns, id: TurnId, log: seq<Committed>, e: Committed)
    requires m.Has(id) ==> TurnOrigin(m.Get(id).value, id, log)
    requires e.at == |log| + 1 && e.event.payload.TurnStarted? && e.event.payload.turnId == id
    ensures TurnOrigin(ApplyTurns(m, e).Get(id).value, id, log + [e])
  {
    if m.Has(id) {
      TurnOriginStays(m.Get(id).value, id, log, e);
    }
    assert (log + [e])[e.at - 1] == e;
  }

  lemma {:induction false} TurnOriginClosed(t: TurnRecord, id: TurnId, log: seq<Committed>, e: Committed)
    requires TurnOrigin(t, id, log)
    requires e.at == |log| + 1 && e.event.payload.TurnClosed? && e.event.payload.turnId == id
    ensures var closed := t.(timing := Closed(t.timing, e.event.createdAtMs),
                             terminal := Some(Terminal(e.at, e.event.payload.outcome)));
            TurnOrigin(closed, id, log + [e])
  {
    TurnOriginStays(t, id, log, e);
    assert (log + [e])[e.at - 1] == e;
  }

  lemma {:induction false} TurnOriginKept(m: Turns, log: seq<Committed>, e: Committed, id: TurnId)
    requires m.Has(id) ==> TurnOrigin(m.Get(id).value, id, log)
    requires e.at == |log| + 1
    ensures ApplyTurns(m, e).Has(id) ==> TurnOrigin(ApplyTurns(m, e).Get(id).value, id, log + [e])
  {
    var p := e.event.payload;
    if p.TurnStarted? && p.turnId == id {
      TurnOriginStarted(m, id, log, e);
    } else if m.Has(id) {
      TurnOriginStays(m.Get(id).value, id, log, e);
      if p.TurnClosed? && p.turnId == id {
        TurnOriginClosed(m.Get(id).value, id, log, e);
      }
    }
  }

  lemma {:induction false} InferenceOriginStays(i: InferenceRecord, id: InferenceId, log: seq<Committed>, e: Committed)
    requires InferenceOrigin(i, id, log)
    ensures InferenceOrigin(i, id, log + [e])
  {
  }

  lemma {:induction false} InferenceOriginStarted(m: Inferences, id: InferenceId, log: seq<Committed>, e: Committed)
    requires m.Has(id) ==> InferenceOrigin(m.Get(id).value, id, log)
    requires e.at == |log| + 1 && e.event.payload.InferenceStarted? && e.event.payload.inferenceId == id
    ensures InferenceOrigin(ApplyInferences(m, e).Get(id).value, id, log + [e])
  {
    if m.Has(id) {
      InferenceOriginStays(m.Get(id).value, id, log, e);
    }
    assert (log + [e])[e.at - 1] == e;
  }

  lemma {:induction false} InferenceOriginClosed(
      m: Inferences, id: InferenceId, log: seq<Committed>, e: Committed, outcome: Outcome)
    requires m.Has(id) && InferenceOrigin(m.Get(id).value, id, log)
    requires e.at == |log| + 1 && InferenceEnded(e.event.payload, id, outcome)
    ensures InferenceOrigin(CloseInference(m, id, e, outcome).Get(id).value, id, log + [e])
  {
    InferenceOriginStays(m.Get(id).value, id, log, e);
    assert (log + [e])[e.at - 1] == e;
  }

  lemma {:induction false} InferenceOriginKept(m: Inferences, log: seq<Committed>, e: Committed, id: InferenceId)
    requires m.Has(id) ==> InferenceOrigin(m.Get(id).value, id, log)
    requires e.at == |log| + 1
    ensures ApplyInferences(m, e).Has(id) ==> InferenceOrigin(ApplyInferences(m, e).Get(id).value, id, log + [e])
  {
    var p := e.event.payload;
    if p.InferenceStarted? && p.inferenceId == id {
      InferenceOriginStarted(m, id, log, e);
    } else if m.Has(id) {
      InferenceOriginStays(m.Get(id).value, id, log, e);
      if p.InferenceCompleted? && p.inferenceId == id {
        InferenceOriginClosed(m, id, log, e, Completed(p.usage));
      } else if p.InferenceFailed? && p.inferenceId == id {
        InferenceOriginClosed(m, id, log, e, Failed(p.failure));
      }
    }
  }

  // ---------------------------------------------------------------------------
  // Lifecycles of messages
  // ---------------------------------------------------------------------------

  ghost predicate ConsumedIn(life: Lifecycle, id: MessageId, log: seq<Committed>) {
    if life.consumedSeq.None? then life.consumedTurnId.None?
    else
      && InLog(life.consumedSeq.value, log)
      && var p := PayloadAt(log, life.consumedSeq.value);
         p.TurnStarted? && id in p.inputMessageIds && life.consumedTurnId == Some(p.turnId)
  }

  ghost predicate PromotedIn(life: Lifecycle, id: MessageId, log: seq<Committed>) {
    life.promotedSeq.Some? ==>
      && InLog(life.promotedSeq.value, log)
      && var p := PayloadAt(log, life.promotedSeq.value); p.UserMessagePromoted? && p.messageId == id
  }

  ghost predicate PausedIn(life: Lifecycle, id: MessageId, log: seq<Committed>) {
    if life.pausedSeq.None? then life.pausedByCommandId.None?
    else
      && InLog(life.pausedSeq.value, log)
      && var p := PayloadAt(log, life.pausedSeq.value);
         p.MessagesPaused? && id in p.messageIds && life.pausedByCommandId == Some(p.pausedByCommandId)
  }

  ghost predicate CancelledIn(life: Lifecycle, id: MessageId, log: seq<Committed>) {
    life.cancelledSeq.Some? ==>
      && InLog(life.cancelledSeq.value, log)
      && var p := PayloadAt(log, life.cancelledSeq.value);
         || (p.UserMessageCancelled? && p.messageId == id && life.cancelledByCommandId == Some(p.commandId)
             && life.cancellationReason == Some(p.reason))
         || (p.SteeringMessageCancelled? && p.messageId == id && life.cancellationReason == Some(p.reason))
  }

  ghost predicate LifeOrigin(life: Lifecycle, id: MessageId, log: seq<Committed>) {
    ConsumedIn(life, id, log) && PromotedIn(life, id, log) && PausedIn(life, id, log) && CancelledIn(life, id, log)
  }

  ghost predicate MessageOrigin(m: MessageRecord, id: MessageId, log: seq<Committed>) {
    m.meta.Authored() ==> LifeOrigin(m.meta.life, id, log)
  }

  lemma {:induction false} LifeExtends(life: Lifecycle, id: MessageId, log: seq<Committed>, e: Committed)
    requires LifeOrigin(life, id, log)
    ensures LifeOrigin(life, id, log + [e])
  {
  }

  lemma {:induction false} ConsumedOrigin(
      m: Messages, ids: seq<MessageId>, all: seq<MessageId>, log: seq<Committed>, e: Committed, id: MessageId)
    requires m.Has(id) ==> MessageOrigin(m.Get(id).value, id, log)
    requires e.at == |log| + 1 && e.event.payload.TurnStarted? && e.event.payload.inputMessageIds == all
    requires forall x :: x in ids ==> x in all
    ensures var n := ConsumeMessages(m, ids, e.at, e.event.payload.turnId);
            n.Has(id) ==> MessageOrigin(n.Get(id).value, id, log + [e])
  {
    if ids == [] {
      if m.Has(id) && m.Get(id).value.meta.Authored() {
        LifeExtends(m.Get(id).value.meta.life, id, log, e);
      }
    } else {
      assert ids[|ids| - 1] in ids;
      ConsumedOrigin(m, ids[..|ids| - 1], all, log, e, id);
    }
  }

  lemma {:induction false} PausedOrigin(
      m: Messages, ids: seq<MessageId>, all: seq<MessageId>, log: seq<Committed>, e: Committed, id: MessageId)
    requires m.Has(id) ==> MessageOrigin(m.Get(id).value, id, log)
    requires e.at == |log| + 1 && e.event.payload.MessagesPaused? && e.event.payload.messageIds == all
    requires forall x :: x in ids ==> x in all
    ensures var n := PauseMessages(m, ids, e.at, e.event.payload.pausedByCommandId);
            n.Has(id) ==> MessageOrigin(n.Get(id).value, id, log + [e])
  {
    if ids == [] {
      if m.Has(id) && m.Get(id).value.meta.Authored() {
        LifeExtends(m.Get(id).value.meta.life, id, log, e);
      }
    } else {
      assert ids[|ids| - 1] in ids;
      PausedOrigin(m, ids[..|ids| - 1], all, log, e, id);
    }
  }

  lemma {:induction false} PromotedOrigin(m: MessageRecord, id: MessageId, log: seq<Committed>, e: Committed)
    requires MessageOrigin(m, id, log) && Promotable(m.meta)
    requires e.at == |log| + 1 && e.event.payload.UserMessagePromoted? && e.event.payload.messageId == id
    ensures MessageOrigin(Promoted(m, e.at), id, log + [e])
  {
    LifeExtends(m.meta.life, id, log, e);
  }

  lemma {:induction false} UnchangedOrigin(m: Messages, log: seq<Committed>, e: Committed, id: MessageId)
    requires m.Has(id) ==> MessageOrigin(m.Get(id).value, id, log)
    ensures m.Has(id) ==> MessageOrigin(m.Get(id).value, id, log + [e])
  {
    if m.Has(id) && m.Get(id).value.meta.Authored() {
      LifeExtends(m.Get(id).value.meta.life, id, log, e);
    }
  }

  lemma {:induction false} CancelledOrigin(m: Messages, log: seq<Committed>, e: Committed, id: MessageId)
    requires m.Has(id) ==> MessageOrigin(m.Get(id).value, id, log)
    requires e.at == |log| + 1 && (e.event.payload.UserMessageCancelled? || e.event.payload.SteeringMessageCancelled?)
    ensures ApplyMessages(m, e).Has(id) ==> MessageOrigin(ApplyMessages(m, e).Get(id).value, id, log + [e])
  {
    UnchangedOrigin(m, log, e, id);
  }

  lemma {:induction false} PromotionOrigin(m: Messages, log: seq<Committed>, e: Committed, id: MessageId)
    requires m.Has(id) ==> MessageOrigin(m.Get(id).value, id, log)
    requires e.at == |log| + 1 && e.event.payload.UserMessagePromoted?
    ensures ApplyMessages(m, e).Has(id) ==> MessageOrigin(ApplyMessages(m, e).Get(id).value, id, log + [e])
  {
    UnchangedOrigin(m, log, e, id);
    if e.event.payload.messageId == id && m.Has(id) && Promotable(m.Get(id).value.meta) {
      PromotedOrigin(m.Get(id).value, id, log, e);
    }
  }

  /** Events that create, drop or do not concern messages. */
  predicate LeavesLives(p: Payload) {
    !p.TurnStarted? && !p.MessagesPaused? && !p.UserMessageCancelled? && !p.SteeringMessageCancelled?
      && !p.UserMessagePromoted?
  }

  lemma {:induction false} RecordsKeepLives(m: Messages, e: Committed, id: MessageId)
    requires LeavesLives(e.event.payload) && ApplyMessages(m, e).Has(id)
    ensures var n := ApplyMessages(m, e).Get(id).value;
            m.Get(id) == Some(n)
            || (n.meta.Authored() ==> n.meta.life == FRESH)
  {
  }

  lemma {:induction false} MessageOriginKept(m: Messages, log: seq<Committed>, e: Committed, id: MessageId)
    requires m.Has(id) ==> MessageOrigin(m.Get(id).value, id, log)
    requires e.at == |log| + 1 && ApplyMessages(m, e).Has(id)
    ensures MessageOrigin(ApplyMessages(m, e).Get(id).value, id, log + [e])
  {
    var p := e.event.payload;
    if p.TurnStarted? {
      ConsumedOrigin(m, p.inputMessageIds, p.inputMessageIds, log, e, id);
    } else if p.MessagesPaused? {
      PausedOrigin(m, p.messageIds, p.messageIds, log, e, id);
    } else if p.UserMessagePromoted? {
      PromotionOrigin(m, log, e, id);
    } else if LeavesLives(p) {
      RecordsKeepLives(m, e, id);
      UnchangedOrigin(m, log, e, id);
    } else {
      CancelledOrigin(m, log, e, id);
    }
  }

  // ---------------------------------------------------------------------------
  // Stop requests, compactions, recoveries, the open request
  // ---------------------------------------------------------------------------

  ghost predicate StopOrigin(s: StopRequestRecord, id: CommandId, log: seq<Committed>) {
    && InLog(s.requestedSeq, log)
    && (var p := PayloadAt(log, s.requestedSeq);
        || p == StopTurnRequested(id, s.requestedRunId, s.requestedTurnId)
        || (p.StopTurnApplied? && p.commandId == id && s.requestedRunId.None? && s.requestedTurnId.None?))
    && (s.appliedSeq.Some? ==>
          && InLog(s.appliedSeq.value, log) && s.appliedRunId.Some? && s.appliedTurnId.Some?
          && PayloadAt(log, s.appliedSeq.value)
            == StopTurnApplied(id, s.appliedRunId.value, s.appliedTurnId.value, s.appliedInferenceId))
  }

  ghost predicate CompactionAsked(c: CompactionRecord, id: CompactionId, log: seq<Committed>) {
    c.requestedSeq.Some? ==>
      && InLog(c.requestedSeq.value, log)
      && var p := PayloadAt(log, c.requestedSeq.value); p.CompactionRequested? && p.compactionId == id
  }

  ghost predicate CompactionBegun(c: CompactionRecord, id: CompactionId, log: seq<Committed>) {
    c.startedSeq.Some? ==> InLog(c.startedSeq.value, log) && PayloadAt(log, c.startedSeq.value) == CompactionStarted(id)
  }

  ghost predicate CompactionSummarized(c: CompactionRecord, id: CompactionId, log: seq<Committed>) {
    c.summaryCreatedSeq.Some? ==>
      && InLog(c.summaryCreatedSeq.value, log)
      && var p := PayloadAt(log, c.summaryCreatedSeq.value); p.SummaryCreated? && p.compactionId == id
  }

  ghost predicate CompactionRebased(c: CompactionRecord, id: CompactionId, log: seq<Committed>) {
    c.rebasedSeq.Some? ==>
      && InLog(c.rebasedSeq.value, log)
      && var p := PayloadAt(log, c.rebasedSeq.value);
         p.ContextRebased? && p.compactionId == id && c.contextVersion == Some(p.contextVersion)
  }

  ghost predicate CompactionEnded(p: Payload, id: CompactionId, outcome: Outcome) {
    match outcome
    case Completed(_) => p.CompactionCompleted? && p.compactionId == id
    case Failed(error) => p.CompactionFailed? && p.compactionId == id && p.failure == error
    case Aborted(_) => false
  }

  ghost predicate CompactionEnd(c: CompactionRecord, id: CompactionId, log: seq<Committed>) {
    c.terminal.Some? ==>
      InLog(c.terminal.value.at, log)
        && CompactionEnded(PayloadAt(log, c.terminal.value.at), id, c.terminal.value.outcome)
  }

  ghost predicate CompactionOrigin(c: CompactionRecord, id: CompactionId, log: seq<Committed>) {
    && CompactionAsked(c, id, log) && CompactionBegun(c, id, log) && CompactionSummarized(c, id, log)
    && CompactionRebased(c, id, log) && CompactionEnd(c, id, log)
  }

  ghost predicate RecoveryOrigin(r: ContinuationRecord, id: RunId, log: seq<Committed>) {
    && InLog(r.at, log) && PayloadAt(log, r.at) == RecoveryCompleted(Some(r.continuation))
    && r.continuation.replacementRunId == id
  }

  ghost predicate RequestOrigin(r: RequestRecord, log: seq<Committed>) {
    && InLog(r.requestedSeq, log) && PayloadAt(log, r.requestedSeq) == RunSchedulingRequested(r.requestId, r.work)
    && (r.deliveredSeq.Some? ==>
          && InLog(r.deliveredSeq.value, log) && r.requestedSeq < r.deliveredSeq.value
          && PayloadAt(log, r.deliveredSeq.value) == RunSchedulingDelivered(r.requestId))
  }

  lemma {:induction false} StopOriginStays(s: StopRequestRecord, id: CommandId, log: seq<Committed>, e: Committed)
    requires StopOrigin(s, id, log)
    ensures StopOrigin(s, id, log + [e])
  {
  }

  lemma {:induction false} StopOriginKept(m: StopRequests, log: seq<Committed>, e: Committed, id: CommandId)
    requires m.Has(id) ==> StopOrigin(m.Get(id).value, id, log)
    requires e.at == |log| + 1
    ensures ApplyStopRequests(m, e).Has(id) ==> StopOrigin(ApplyStopRequests(m, e).Get(id).value, id, log + [e])
  {
    if m.Has(id) {
      StopOriginStays(m.Get(id).value, id, log, e);
    }
    assert (log + [e])[e.at - 1] == e;
  }

  predicate IsCompactionOf(p: Payload, id: CompactionId) {
    && (|| p.CompactionRequested? || p.CompactionStarted? || p.SummaryCreated? || p.ContextRebased?
        || p.CompactionCompleted? || p.CompactionFailed?)
    && p.compactionId == id
  }

  lemma {:induction false} OtherCompaction(m: Compactions, context: ContextRecord, e: Committed, id: CompactionId)
    requires !IsCompactionOf(e.event.payload, id) && ApplyCompactions(m, context, e).Has(id)
    ensures ApplyCompactions(m, context, e).Get(id) == m.Get(id)
  {
  }

  lemma {:induction false} CompactionAskedStays(
      c: CompactionRecord, id: CompactionId, log: seq<Committed>, e: Committed)
    requires CompactionAsked(c, id, log)
    ensures CompactionAsked(c, id, log + [e])
  {
  }

  lemma {:induction false} CompactionAskedKept(
      m: Compactions, context: ContextRecord, log: seq<Committed>, e: Committed, id: CompactionId)
    requires m.Has(id) ==> CompactionAsked(m.Get(id).value, id, log)
    requires e.at == |log| + 1 && ApplyCompactions(m, context, e).Has(id)
    ensures CompactionAsked(ApplyCompactions(m, context, e).Get(id).value, id, log + [e])
  {
    if m.Has(id) {
      CompactionAskedStays(m.Get(id).value, id, log, e);
    }
    if IsCompactionOf(e.event.payload, id) {
      assert (log + [e])[e.at - 1] == e;
    } else {
      OtherCompaction(m, context, e, id);
    }
  }

  lemma {:induction false} CompactionBegunStays(
      c: CompactionRecord, id: CompactionId, log: seq<Committed>, e: Committed)
    requires CompactionBegun(c, id, log)
    ensures CompactionBegun(c, id, log + [e])
  {
  }

  lemma {:induction false} CompactionBegunKept(
      m: Compactions, context: ContextRecord, log: seq<Committed>, e: Committed, id: CompactionId)
    requires m.Has(id) ==> CompactionBegun(m.Get(id).value, id, log)
    requires e.at == |log| + 1 && ApplyCompactions(m, context, e).Has(id)
    ensures CompactionBegun(ApplyCompactions(m, context, e).Get(id).value, id, log + [e])
  {
    if m.Has(id) {
      CompactionBegunStays(m.Get(id).value, id, log, e);
    }
    if IsCompactionOf(e.event.payload, id) {
      assert (log + [e])[e.at - 1] == e;
    } else {
      OtherCompaction(m, context, e, id);
    }
  }

  lemma {:induction false} CompactionSummarizedStays(
      c: CompactionRecord, id: CompactionId, log: seq<Committed>, e: Committed)
    requires CompactionSummarized(c, id, log)
    ensures CompactionSummarized(c, id, log + [e])
  {
  }

  lemma {:induction false} CompactionSummarizedKept(
      m: Compactions, context: ContextRecord, log: seq<Committed>, e: Committed, id: CompactionId)
    requires m.Has(id) ==> CompactionSummarized(m.Get(id).value, id, log)
    requires e.at == |log| + 1 && ApplyCompactions(m, context, e).Has(id)
    ensures CompactionSummarized(ApplyCompactions(m, context, e).Get(id).value, id, log + [e])
  {
    if m.Has(id) {
      CompactionSummarizedStays(m.Get(id).value, id, log, e);
    }
    if IsCompactionOf(e.event.payload, id) {
      assert (log + [e])[e.at - 1] == e;
    } else {
      OtherCompaction(m, context, e, id);
    }
  }

  lemma {:induction false} CompactionRebasedStays(
      c: CompactionRecord, id: CompactionId, log: seq<Committed>, e: Committed)
    requires CompactionRebased(c, id, log)
    ensures CompactionRebased(c, id, log + [e])
  {
  }

  lemma {:induction false} CompactionRebasedKept(
      m: Compactions, context: ContextRecord, log: seq<Committed>, e: Committed, id: CompactionId)
    requires m.Has(id) ==> CompactionRebased(m.Get(id).value, id, log)
    requires e.at == |log| + 1 && ApplyCompactions(m, context, e).Has(id)
    ensures CompactionRebased(ApplyCompactions(m, context, e).Get(id).value, id, log + [e])
  {
    if m.Has(id) {
      CompactionRebasedStays(m.Get(id).value, id, log, e);
    }
    if IsCompactionOf(e.event.payload, id) {
      assert (log + [e])[e.at - 1] == e;
    } else {
      OtherCompaction(m, context, e, id);
    }
  }

  lemma {:induction false} CompactionEndStays(c: CompactionRecord, id: CompactionId, log: seq<Committed>, e: Committed)
    requires CompactionEnd(c, id, log)
    ensures CompactionEnd(c, id, log + [e])
  {
  }

  lemma {:induction false} CompactionEndKept(
      m: Compactions, context: ContextRecord, log: seq<Committed>, e: Committed, id: CompactionId)
    requires m.Has(id) ==> CompactionEnd(m.Get(id).value, id, log)
    requires e.at == |log| + 1 && ApplyCompactions(m, context, e).Has(id)
    ensures CompactionEnd(ApplyCompactions(m, context, e).Get(id).value, id, log + [e])
  {
    if m.Has(id) {
      CompactionEndStays(m.Get(id).value, id, log, e);
    }
    if IsCompactionOf(e.event.payload, id) {
      assert (log + [e])[e.at - 1] == e;
    } else {
      OtherCompaction(m, context, e, id);
    }
  }

  lemma {:induction false} CompactionOriginKept(
      m: Compactions, context: ContextRecord, log: seq<Committed>, e: Committed, id: CompactionId)
    requires m.Has(id) ==> CompactionOrigin(m.Get(id).value, id, log)
    requires e.at == |log| + 1 && ApplyCompactions(m, context, e).Has(id)
    ensures CompactionOrigin(ApplyCompactions(m, context, e).Get(id).value, id, log + [e])
  {
    CompactionAskedKept(m, context, log, e, id);
    CompactionBegunKept(m, context, log, e, id);
    CompactionSummarizedKept(m, context, log, e, id);
    CompactionRebasedKept(m, context, log, e, id);
    CompactionEndKept(m, context, log, e, id);
  }

  lemma {:induction false} RecoveryOriginKept(m: Recoveries, runs: Runs, log: seq<Committed>, e: Committed, id: RunId)
    requires m.Has(id) ==> RecoveryOrigin(m.Get(id).value, id, log)
    requires e.at == |log| + 1
    ensures var n := ApplyRecoveries(m, runs, e); n.Has(id) ==> RecoveryOrigin(n.Get(id).value, id, log + [e])
  {
  }

  lemma {:induction false} RequestOriginKept(request: Option<RequestRecord>, log: seq<Committed>, e: Committed)
    requires request.Some? ==> RequestOrigin(request.value, log)
    requires e.at == |log| + 1
    ensures ApplyRequest(request, e).Some? ==> RequestOrigin(ApplyRequest(request, e).value, log + [e])
  {
  }

  // ---------------------------------------------------------------------------
  // The whole state
  // ---------------------------------------------------------------------------

  ghost predicate CommandOrigins(m: Commands, log: seq<Committed>) {
    forall id :: m.Has(id) ==> CommandOrigin(m.Get(id).value, id, log)
  }

  lemma {:induction false} CommandOriginsKept(m: Commands, log: seq<Committed>, e: Committed)
    requires CommandOrigins(m, log) && e.at == |log| + 1
    ensures CommandOrigins(ApplyCommands(m, e), log + [e])
  {
    var n := ApplyCommands(m, e);
    forall id | n.Has(id) ensures CommandOrigin(n.Get(id).value, id, log + [e]) {
      CommandOriginKept(m, log, e, id);
    }
  }

  ghost predicate RunOrigins(m: Runs, log: seq<Committed>) {
    forall id :: m.Has(id) ==> RunOrigin(m.Get(id).value, id, log)
  }

  lemma {:induction false} RunOriginsKept(m: Runs, log: seq<Committed>, e: Committed)
    requires RunOrigins(m, log) && e.at == |log| + 1
    ensures RunOrigins(ApplyRuns(m, e), log + [e])
  {
    var n := ApplyRuns(m, e);
    forall id | n.Has(id) ensures RunOrigin(n.Get(id).value, id, log + [e]) {
      RunOriginKept(m, log, e, id);
    }
  }

  ghost predicate TurnOrigins(m: Turns, log: seq<Committed>) {
    forall id :: m.Has(id) ==> TurnOrigin(m.Get(id).value, id, log)
  }

  lemma {:induction false} TurnOriginsKept(m: Turns, log: seq<Committed>, e: Committed)
    requires TurnOrigins(m, log) && e.at == |log| + 1
    ensures TurnOrigins(ApplyTurns(m, e), log + [e])
  {
    var n := ApplyTurns(m, e);
    forall id | n.Has(id) ensures TurnOrigin(n.Get(id).value, id, log + [e]) {
      TurnOriginKept(m, log, e, id);
    }
  }

  ghost predicate InferenceOrigins(m: Inferences, log: seq<Committed>) {
    forall id :: m.Has(id) ==> InferenceOrigin(m.Get(id).value, id, log)
  }

  lemma {:induction false} InferenceOriginsKept(m: Inferences, log: seq<Committed>, e: Committed)
    requires InferenceOrigins(m, log) && e.at == |log| + 1
    ensures InferenceOrigins(ApplyInferences(m, e), log + [e])
  {
    var n := ApplyInferences(m, e);
    forall id | n.Has(id) ensures InferenceOrigin(n.Get(id).value, id, log + [e]) {
      InferenceOriginKept(m, log, e, id);
    }
  }

  ghost predicate MessageOrigins(m: Messages, log: seq<Committed>) {
    forall id :: m.Has(id) ==> MessageOrigin(m.Get(id).value, id, log)
  }

  lemma {:induction false} MessageOriginsKept(m: Messages, log: seq<Committed>, e: Committed)
    requires MessageOrigins(m, log) && e.at == |log| + 1
    ensures MessageOrigins(ApplyMessages(m, e), log + [e])
  {
    var n := ApplyMessages(m, e);
    forall id | n.Has(id) ensures MessageOrigin(n.Get(id).value, id, log + [e]) {
      MessageOriginKept(m, log, e, id);
    }
  }

  ghost predicate StopOrigins(m: StopRequests, log: seq<Committed>) {
    forall id :: m.Has(id) ==> StopOrigin(m.Get(id).value, id, log)
  }

  lemma {:induction false} StopOriginsKept(m: StopRequests, log: seq<Committed>, e: Committed)
    requires StopOrigins(m, log) && e.at == |log| + 1
    ensures StopOrigins(ApplyStopRequests(m, e), log + [e])
  {
    var n := ApplyStopRequests(m, e);
    forall id | n.Has(id) ensures StopOrigin(n.Get(id).value, id, log + [e]) {
      StopOriginKept(m, log, e, id);
    }
  }

  ghost predicate CompactionOrigins(m: Compactions, log: seq<Committed>) {
    forall id :: m.Has(id) ==> CompactionOrigin(m.Get(id).value, id, log)
  }

  lemma {:induction false} CompactionOriginsKept(
      m: Compactions, context: ContextRecord, log: seq<Committed>, e: Committed)
    requires CompactionOrigins(m, log) && e.at == |log| + 1
    ensures CompactionOrigins(ApplyCompactions(m, context, e), log + [e])
  {
    var n := ApplyCompactions(m, context, e);
    forall id | n.Has(id) ensures CompactionOrigin(n.Get(id).value, id, log + [e]) {
      CompactionOriginKept(m, context, log, e, id);
    }
  }

  ghost predicate RecoveryOrigins(m: Recoveries, log: seq<Committed>) {
    forall id :: m.Has(id) ==> RecoveryOrigin(m.Get(id).value, id, log)
  }

  lemma {:induction false} RecoveryOriginsKept(m: Recoveries, runs: Runs, log: seq<Committed>, e: Committed)
    requires RecoveryOrigins(m, log) && e.at == |log| + 1
    ensures RecoveryOrigins(ApplyRecoveries(m, runs, e), log + [e])
  {
    var n := ApplyRecoveries(m, runs, e);
    forall id | n.Has(id) ensures RecoveryOrigin(n.Get(id).value, id, log + [e]) {
      RecoveryOriginKept(m, runs, log, e, id);
    }
  }

  ghost predicate Origins(r: Replay, log: seq<Committed>) {
    && CommandOrigins(r.commands, log) && RunOrigins(r.runs, log) && TurnOrigins(r.turns, log)
    && InferenceOrigins(r.inferences, log) && MessageOrigins(r.messages, log) && StopOrigins(r.stopRequests, log)
    && CompactionOrigins(r.compactions, log) && RecoveryOrigins(r.recoveries, log)
    && (r.request.Some? ==> RequestOrigin(r.request.value, log))
  }

  lemma {:induction false} OriginsKept(r: Replay, log: seq<Committed>, e: Committed)
    requires Origins(r, log) && e.at == |log| + 1
    ensures Origins(Apply(r, e), log + [e])
  {
    CommandOriginsKept(r.commands, log, e);
    RunOriginsKept(r.runs, log, e);
    TurnOriginsKept(r.turns, log, e);
    InferenceOriginsKept(r.inferences, log, e);
    MessageOriginsKept(r.messages, log, e);
    StopOriginsKept(r.stopRequests, log, e);
    CompactionOriginsKept(r.compactions, r.context, log, e);
    RecoveryOriginsKept(r.recoveries, r.runs, log, e);
    RequestOriginKept(r.request, log, e);
  }

  /**
   * In the state of every log, each start, close, consumption, promotion, pause, cancellation, stop,
   * compaction stage and recovery names the event that established it, with its data and its time.
   */
  lemma {:induction false} FoldKeepsOrigins(log: seq<Committed>)
    requires Dense(log, 0)
    ensures Origins(FoldReplay(GENESIS, log), log)
  {
    if log != [] {
      var front, last := log[..|log| - 1], log[|log| - 1];
      assert front + [last] == log;
      FoldSnoc(GENESIS, front, last);
      FoldKeepsOrigins(front);
      OriginsKept(FoldReplay(GENESIS, front), front, last);
    }
  }
}
