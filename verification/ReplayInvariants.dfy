/** Facts about every replay a log can reach. */
module ReplayInvariants {
  import opened Collections
  import opened Events
  import opened Records
  import opened CommandQueues
  import opened ReducedState

  // ---------------------------------------------------------------------------
  // How one event changes the messages
  // ---------------------------------------------------------------------------

  /**
   * The same message later: only its disposition and lifecycle may have moved, its consumption to
   * `consumed` if anywhere.
   */
  ghost predicate Evolves(a: MessageRecord, b: MessageRecord, consumed: Option<Seq>) {
    || b == a
    || (&& b.body == a.body
        && a.meta.Authored() && b.meta.Authored()
        && (b.meta.life.consumedSeq == a.meta.life.consumedSeq
          || (consumed.Some? && b.meta.life.consumedSeq == consumed))
        && match a.meta
           case User(id, commandId, now, seq_, requested, disposition, _) =>
             && b.meta.User?
             && b.meta == User(id, commandId, now, seq_, requested, b.meta.disposition, b.meta.life)
             && (disposition.Some? ==> b.meta.disposition.Some?)
           case Steering(id, commandId, runId, now, seq_, _) =>
             b.meta.Steering? && b.meta == Steering(id, commandId, runId, now, seq_, b.meta.life)
           case _ => false)
  }

  ghost predicate AllEvolve(m: Messages, n: Messages, consumed: Option<Seq>) {
    forall id :: n.Has(id) ==> m.Has(id) && Evolves(m.Get(id).value, n.Get(id).value, consumed)
  }

  lemma {:induction false} ConsumeEvolves(m: Messages, ids: seq<MessageId>, at: Seq, turnId: TurnId)
    ensures AllEvolve(m, ConsumeMessages(m, ids, at, turnId), Some(at))
  {
    if ids != [] {
      ConsumeEvolves(m, ids[..|ids| - 1], at, turnId);
    }
  }

  lemma {:induction false} PausedEvolves(m: MessageRecord, r: MessageRecord, at: Seq, pauser: CommandId)
    requires r.meta.Waiting() && Evolves(m, r, None)
    ensures Evolves(m, Paused(r, at, pauser), None)
  {
  }

  lemma {:induction false} PauseEvolves(m: Messages, ids: seq<MessageId>, at: Seq, pauser: CommandId)
    ensures AllEvolve(m, PauseMessages(m, ids, at, pauser), None)
  {
    if ids != [] {
      var before, id := PauseMessages(m, ids[..|ids| - 1], at, pauser), ids[|ids| - 1];
      PauseEvolves(m, ids[..|ids| - 1], at, pauser);
      if before.Has(id) && before.Get(id).value.meta.Waiting() {
        PausedEvolves(m.Get(id).value, before.Get(id).value, at, pauser);
      }
    }
  }

  lemma {:induction false} PromotedEvolves(r: MessageRecord, at: Seq)
    requires Promotable(r.meta)
    ensures Evolves(r, Promoted(r, at), None)
  {
  }

  lemma {:induction false} ReagedEvolves(r: MessageRecord, life: Lifecycle)
    requires r.meta.Authored() && life.consumedSeq == r.meta.life.consumedSeq
    ensures Evolves(r, Reaged(r, life), None)
  {
  }

  /** Only a starting turn consumes messages. */
  function ConsumedBy(e: Committed): Option<Seq> {
    if e.event.payload.TurnStarted? then Some(e.at) else None
  }

  /** After an event, a record is a later stage of the record it had, or the one the event wrote. */
  lemma {:induction false} MessagesEvolve(m: Messages, e: Committed)
    ensures var n := ApplyMessages(m, e);
            if NewMessage(e).Some? then n == m.Set(NewMessage(e).value.meta.messageId, NewMessage(e).value)
            else AllEvolve(m, n, ConsumedBy(e))
  {
    match e.event.payload
    case TurnStarted(_, id, inputs) => ConsumeEvolves(m, inputs, e.at, id);
    case MessagesPaused(ids, pauser) => PauseEvolves(m, ids, e.at, pauser);
    case UserMessagePromoted(_, id) =>
      if m.Has(id) && Promotable(m.Get(id).value.meta) {
        PromotedEvolves(m.Get(id).value, e.at);
      }
    case UserMessageCancelled(canceller, id, reason) =>
      if m.Has(id) && m.Get(id).value.meta.Authored() {
        var r := m.Get(id).value;
        ReagedEvolves(r, r.meta.life.(cancelledSeq := Some(e.at), cancelledByCommandId := Some(canceller),
                                      cancellationReason := Some(reason)));
      }
    case SteeringMessageCancelled(id, reason) =>
      if m.Has(id) && m.Get(id).value.meta.Steering? {
        var r := m.Get(id).value;
        ReagedEvolves(r, r.meta.life.(cancelledSeq := Some(e.at), cancellationReason := Some(reason)));
      }
    case _ =>
  }

  // ---------------------------------------------------------------------------
  // Records are kept under their own id
  // ---------------------------------------------------------------------------

  ghost predicate MessagesKeyed(m: Messages) {
    forall id :: m.Has(id) ==> m.Get(id).value.meta.messageId == id
  }

  ghost predicate CommandsKeyed(m: Commands) {
    forall id :: m.Has(id) ==>
      && m.Get(id).value.commandId == id
      && (m.Get(id).value.command.Some? ==> m.Get(id).value.command.value.commandId == id)
  }

  ghost predicate Keyed(r: Replay) {
    && MessagesKeyed(r.messages)
    && CommandsKeyed(r.commands)
    && (forall id :: r.runs.Has(id) ==> r.runs.Get(id).value.runId == id)
    && (forall id :: r.turns.Has(id) ==> r.turns.Get(id).value.turnId == id)
    && (forall id :: r.inferences.Has(id) ==> r.inferences.Get(id).value.inferenceId == id)
    && (forall id :: r.toolCalls.Has(id) ==> r.toolCalls.Get(id).value.toolCallId == id)
    && (forall id :: r.stopRequests.Has(id) ==> r.stopRequests.Get(id).value.commandId == id)
    && (forall id :: r.compactions.Has(id) ==> r.compactions.Get(id).value.compactionId == id)
  }

  lemma {:induction false} ApplyKeepsMessageKeys(m: Messages, e: Committed)
    requires MessagesKeyed(m)
    ensures MessagesKeyed(ApplyMessages(m, e))
  {
    MessagesEvolve(m, e);
  }

  lemma {:induction false} ApplyKeepsCommandKeys(m: Commands, e: Committed)
    requires CommandsKeyed(m)
    ensures CommandsKeyed(ApplyCommands(m, e))
  {
  }

  lemma {:induction false} ApplyKeepsRunKeys(m: Runs, turns: Turns, e: Committed)
    requires forall id :: m.Has(id) ==> m.Get(id).value.runId == id
    requires forall id :: turns.Has(id) ==> turns.Get(id).value.turnId == id
    ensures forall id :: ApplyRuns(m, e).Has(id) ==> ApplyRuns(m, e).Get(id).value.runId == id
    ensures forall id :: ApplyTurns(turns, e).Has(id) ==> ApplyTurns(turns, e).Get(id).value.turnId == id
  {
  }

  lemma {:induction false} ApplyKeepsInferenceKeys(m: Inferences, e: Committed)
    requires forall id :: m.Has(id) ==> m.Get(id).value.inferenceId == id
    ensures forall id :: ApplyInferences(m, e).Has(id) ==> ApplyInferences(m, e).Get(id).value.inferenceId == id
  {
  }

  lemma {:induction false} ApplyKeepsToolCallKeys(m: ToolCalls, e: Committed)
    requires forall id :: m.Has(id) ==> m.Get(id).value.toolCallId == id
    ensures forall id :: ApplyToolCalls(m, e).Has(id) ==> ApplyToolCalls(m, e).Get(id).value.toolCallId == id
  {
  }

  lemma {:induction false} ApplyKeepsStopRequestKeys(m: StopRequests, e: Committed)
    requires forall id :: m.Has(id) ==> m.Get(id).value.commandId == id
    ensures forall id :: ApplyStopRequests(m, e).Has(id) ==> ApplyStopRequests(m, e).Get(id).value.commandId == id
  {
  }

  lemma {:induction false} ApplyKeepsCompactionKeys(m: Compactions, context: ContextRecord, e: Committed)
    requires forall id :: m.Has(id) ==> m.Get(id).value.compactionId == id
    ensures forall id :: ApplyCompactions(m, context, e).Has(id) ==>
            ApplyCompactions(m, context, e).Get(id).value.compactionId == id
  {
  }

  lemma {:induction false} ApplyKeepsKeys(r: Replay, e: Committed)
    requires Keyed(r)
    ensures Keyed(Apply(r, e))
  {
    ApplyKeepsMessageKeys(r.messages, e);
    ApplyKeepsCommandKeys(r.commands, e);
    ApplyKeepsRunKeys(r.runs, r.turns, e);
    ApplyKeepsInferenceKeys(r.inferences, e);
    ApplyKeepsToolCallKeys(r.toolCalls, e);
    ApplyKeepsStopRequestKeys(r.stopRequests, e);
    ApplyKeepsCompactionKeys(r.compactions, r.context, e);
  }

  lemma {:induction false} FoldKeepsKeys(log: seq<Committed>)
    ensures Keyed(FoldReplay(GENESIS, log))
  {
    if log != [] {
      FoldKeepsKeys(log[..|log| - 1]);
      ApplyKeepsKeys(FoldReplay(GENESIS, log[..|log| - 1]), log[|log| - 1]);
    }
  }

  // ---------------------------------------------------------------------------
  // No message is recorded or consumed past the head
  // ---------------------------------------------------------------------------

  ghost predicate UpTo(q: Option<Seq>, head: Seq) {
    q.None? || q.value <= head
  }

  ghost predicate MessagesBounded(m: Messages, head: Seq) {
    forall id :: m.Has(id) ==>
      && m.Get(id).value.meta.at <= head
      && (m.Get(id).value.meta.Authored() ==> UpTo(m.Get(id).value.meta.life.consumedSeq, head))
  }

  lemma {:induction false} ApplyKeepsBounds(m: Messages, head: Seq, e: Committed)
    requires MessagesBounded(m, head) && head <= e.at
    ensures MessagesBounded(ApplyMessages(m, e), e.at)
  {
    MessagesEvolve(m, e);
  }

  lemma {:induction false} FoldKeepsBounds(log: seq<Committed>)
    requires Dense(log, 0)
    ensures var r := FoldReplay(GENESIS, log); r.lastSeq == |log| && MessagesBounded(r.messages, r.lastSeq)
  {
    if log != [] {
      var front := log[..|log| - 1];
      FoldKeepsBounds(front);
      ApplyKeepsBounds(FoldReplay(GENESIS, front).messages, |front|, log[|log| - 1]);
    }
  }
}
