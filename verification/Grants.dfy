/** When a requested run may start, read off the records. */
module Grants {
  import opened Collections
  import opened Events
  import opened Records
  import opened CommandQueues
  import opened ReducedState
  import opened ReplayInvariants
  import opened QueueProperties
  import opened RunScheduling
  import opened DispatchOrder
  import opened QueueContents
  import opened LogQueries
  import FoldRecords

  // ---------------------------------------------------------------------------
  // What the work takes
  // ---------------------------------------------------------------------------

  /** The messages the work names: its inputs, those the command resumes, or those written for the command. */
  predicate Names(commands: Commands, work: Work, m: MessageRecord) {
    match work
    case RecoveryWork(_, _, inputs) => m.meta.messageId in inputs
    case CommandWork(id) =>
      var body := if commands.Has(id) then commands.Get(id).value.command else None;
      match body
      case Some(ResumePendingMessages(_, _, ids)) => m.meta.messageId in ids
      case _ => m.meta.Authored() && m.meta.commandId == id
  }

  /** A named message that waits and is not held by a pause. */
  predicate TakesMessage(r: Replay, work: Work, m: MessageRecord) {
    Waits(m) && !IsHeld(m) && Names(r.commands, work, m)
  }

  ghost predicate Takes(r: Replay, work: Work, id: MessageId) {
    r.messages.Has(id) && TakesMessage(r, work, r.messages.Get(id).value)
  }

  ghost predicate TakesAny(r: Replay, work: Work) {
    exists id :: Takes(r, work, id)
  }

  /** Of the command's own messages. */
  lemma {:induction false} WrittenCandidates(messages: Messages, commandId: CommandId, id: MessageId)
    requires MessagesKeyed(messages) && messages.Has(id)
    ensures id in FilterMap(messages.Values(), AuthoredBy(commandId))
            <==> var m := messages.Get(id).value; m.meta.Authored() && m.meta.commandId == commandId
  {
    var m := messages.Get(id).value;
    assert m in messages.Values() && m.meta.messageId == id;
    if id in FilterMap(messages.Values(), AuthoredBy(commandId)) {
      var other :| other in messages.Values() && AuthoredBy(commandId)(other) == Some(id);
      var k := ValueHasKey(messages, other);
    }
    if m.meta.Authored() && m.meta.commandId == commandId {
      assert AuthoredBy(commandId)(m) == Some(id);
    }
  }

  lemma {:induction false} InputsExactly(r: Replay, work: Work, id: MessageId)
    requires MessagesKeyed(r.messages)
    ensures id in RunSchedulingInputMessageIds(r.messages, r.commands, work) <==> Takes(r, work, id)
  {
    if r.messages.Has(id) {
      var m := r.messages.Get(id).value;
      assert m.meta.messageId == id;
      assert EligibleIn(r.messages)(id) <==> Waits(m) && !IsHeld(m);
      if work.CommandWork? {
        WrittenCandidates(r.messages, work.commandId, id);
      }
      assert id in Candidates(r.messages, r.commands, work) <==> Names(r.commands, work, m);
    }
  }

  lemma {:induction false} SomeInputExactly(r: Replay, work: Work)
    requires MessagesKeyed(r.messages)
    ensures RunSchedulingInputMessageIds(r.messages, r.commands, work) != [] <==> TakesAny(r, work)
  {
    var inputs := RunSchedulingInputMessageIds(r.messages, r.commands, work);
    if inputs != [] {
      InputsExactly(r, work, inputs[0]);
      assert inputs[0] in inputs && Takes(r, work, inputs[0]);
    }
    if id :| Takes(r, work, id) {
      InputsExactly(r, work, id);
    }
  }

  // ---------------------------------------------------------------------------
  // When a run is granted
  // ---------------------------------------------------------------------------

  /** A command that would change the run: a stop, an interrupt, or the cancellation of a message it takes. */
  ghost predicate Disturbs(r: Replay, work: Work, c: PendingCommand) {
    match c.command
    case StopTurn(_, _) => true
    case SubmitMessage(_, _, disposition, _) => disposition == Interrupt
    case CancelPendingMessage(_, _, id) => Takes(r, work, id)
    case PromotePendingMessage(_, _, _) => false
    case ResumePendingMessages(_, _, _) => false
  }

  ghost predicate Undisturbed(r: Replay, work: Work) {
    forall c :: IsWaiting(r.commands, c) && c.commandId != work.commandId ==> !Disturbs(r, work, c)
  }

  /** A command yet to start has a message to take, or is a submission none of whose messages is recorded. */
  ghost predicate ReadyToStart(r: Replay, command: CommandRecord) {
    && command.startedSeq.None?
    && (|| TakesAny(r, CommandWork(command.commandId))
        || (&& command.command.Some? && command.command.value.SubmitMessage?
            && forall m :: m in r.messages.Values() && m.meta.Authored() ==> m.meta.commandId != command.commandId))
  }

  /** A started command continues a closed run of its own, with an input left unless none was named. */
  ghost predicate ReadyToContinue(r: Replay, command: CommandRecord, interrupted: RunId, named: seq<MessageId>) {
    && command.startedSeq.Some?
    && r.runs.Has(interrupted)
    && r.runs.Get(interrupted).value.terminal.Some?
    && command.commandId in r.runs.Get(interrupted).value.commandIds
    && (named == [] || TakesAny(r, RecoveryWork(command.commandId, interrupted, named)))
  }

  ghost predicate Ready(r: Replay, work: Work) {
    && r.commands.Has(work.commandId)
    && var command := r.commands.Get(work.commandId).value;
       && command.command.Some? && command.terminal.None?
       && match work {
            case CommandWork(_) => ReadyToStart(r, command)
            case RecoveryWork(_, interrupted, named) => ReadyToContinue(r, command, interrupted, named)
          }
  }

  lemma {:induction false} ReadyExactly(r: Replay, work: Work)
    requires Keyed(r)
    requires r.commands.Has(work.commandId) && r.commands.Get(work.commandId).value.command.Some?
    requires r.commands.Get(work.commandId).value.terminal.None?
    ensures GrantableWork(r, work, r.commands.Get(work.commandId).value,
                          RunSchedulingInputMessageIds(r.messages, r.commands, work))
            <==> Ready(r, work)
  {
    SomeInputExactly(r, work);
    assert r.commands.Get(work.commandId).value.commandId == work.commandId;
  }

  lemma {:induction false} BlockingIsDisturbing(s: State, work: Work, c: PendingCommand)
    requires Keyed(s.replay) && s == WithQueues(s.replay)
    ensures var inputs := RunSchedulingInputMessageIds(s.replay.messages, s.replay.commands, work);
            c in s.queues.activeControlCommands && BlocksGrant(c, work.commandId, inputs)
            <==> IsWaiting(s.replay.commands, c) && c.commandId != work.commandId && Disturbs(s.replay, work, c)
  {
    ControlsExactly(s, c);
    if c.command.CancelPendingMessage? {
      InputsExactly(s.replay, work, c.command.messageId);
    }
  }

  lemma {:induction false} UndisturbedExactly(s: State, work: Work)
    requires Keyed(s.replay) && s == WithQueues(s.replay)
    ensures var inputs := RunSchedulingInputMessageIds(s.replay.messages, s.replay.commands, work);
            (exists c :: c in s.queues.activeControlCommands && BlocksGrant(c, work.commandId, inputs))
            <==> !Undisturbed(s.replay, work)
  {
    var inputs := RunSchedulingInputMessageIds(s.replay.messages, s.replay.commands, work);
    if c :| c in s.queues.activeControlCommands && BlocksGrant(c, work.commandId, inputs) {
      BlockingIsDisturbing(s, work, c);
    }
    if c :| IsWaiting(s.replay.commands, c) && c.commandId != work.commandId && Disturbs(s.replay, work, c) {
      BlockingIsDisturbing(s, work, c);
      assert c in s.queues.activeControlCommands && BlocksGrant(c, work.commandId, inputs);
    }
  }

  /** A run is granted exactly when its request is open, its work is ready, no run is open and nothing disturbs it. */
  lemma {:induction false} GrantedExactly(s: State, id: RequestId)
    requires Keyed(s.replay) && s == WithQueues(s.replay)
    ensures var r := s.replay;
            CanGrantRun(s, id) <==>
              && r.request.Some? && r.request.value.requestId == id
              && (forall run :: run in r.runs.Values() ==> run.terminal.Some?)
              && Ready(r, r.request.value.work)
              && Undisturbed(r, r.request.value.work)
  {
    var r := s.replay;
    if r.request.Some? {
      var work := r.request.value.work;
      UndisturbedExactly(s, work);
      if r.commands.Has(work.commandId) && r.commands.Get(work.commandId).value.command.Some?
         && r.commands.Get(work.commandId).value.terminal.None? {
        ReadyExactly(r, work);
        assert r.commands.Get(work.commandId).value.commandId == work.commandId;
      }
    }
  }

  // ---------------------------------------------------------------------------
  // A submission with its message is granted
  // ---------------------------------------------------------------------------

  /** A submission, its message, and a run requested for it. */
  predicate SubmittedAndRequested(admitted: Committed, submitted: Committed, requested: Committed) {
    var p, q, n := admitted.event.payload, submitted.event.payload, requested.event.payload;
    && p.CommandAdmitted? && p.command.SubmitMessage?
    && q.UserMessageSubmitted? && q.commandId == p.command.commandId
    && n.RunSchedulingRequested? && n.work == CommandWork(p.command.commandId)
  }

  lemma {:induction false} FoldThree(a: Committed, b: Committed, c: Committed)
    ensures FoldReplay(GENESIS, [a, b, c]) == Apply(Apply(Apply(GENESIS, a), b), c)
  {
    assert [a, b, c] == [a, b] + [c] && [a, b] == [a] + [b] && [a] == [] + [a];
    FoldSnoc(GENESIS, [a, b], c);
    FoldSnoc(GENESIS, [a], b);
    FoldSnoc(GENESIS, [], a);
  }

  lemma {:induction false} OnlyOneWaits(commands: Commands, c: CommandRecord, d: PendingCommand)
    requires commands == Empty.Set(c.commandId, c) && IsWaiting(commands, d)
    ensures d.commandId == c.commandId
  {
  }

  lemma {:induction false} SubmissionIsReady(r: Replay, c: CommandRecord, m: MessageRecord)
    requires r.messages == Empty.Set(m.meta.messageId, m) && r.runs == Empty
    requires r.commands == Empty.Set(c.commandId, c)
    requires c.command.Some? && c.command.value.SubmitMessage? && c.startedSeq.None? && c.terminal.None?
    requires m.meta.User? && m.meta.commandId == c.commandId && m.meta.life == FRESH
    ensures Ready(r, CommandWork(c.commandId)) && Undisturbed(r, CommandWork(c.commandId))
    ensures forall run :: run in r.runs.Values() ==> run.terminal.Some?
  {
    assert Takes(r, CommandWork(c.commandId), m.meta.messageId);
    forall d | IsWaiting(r.commands, d) ensures d.commandId == c.commandId {
      OnlyOneWaits(r.commands, c, d);
    }
  }

  /** After the three events the request is granted: the run takes the submitted message. */
  lemma {:induction false} SubmissionIsGranted(admitted: Committed, submitted: Committed, requested: Committed)
    requires SubmittedAndRequested(admitted, submitted, requested)
    ensures var s := Reduce([admitted, submitted, requested]);
            && CanGrantRun(s, requested.event.payload.requestId)
            && RunSchedulingInputMessageIds(s.replay.messages, s.replay.commands, requested.event.payload.work)
               == [submitted.event.payload.messageId]
  {
    var log := [admitted, submitted, requested];
    var r1 := Apply(GENESIS, admitted);
    var r2 := Apply(r1, submitted);
    var r := Apply(r2, requested);
    var c, m := AdmittedRecord(admitted), NewMessage(submitted).value;
    FoldThree(admitted, submitted, requested);
    OnlyPositionAndCommands(GENESIS, admitted);
    OnlyMessageAdded(r1, submitted);
    OnlyRequestAdded(r2, requested);
    SubmissionIsReady(r, c, m);
    FoldKeepsKeys(log);
    GrantedExactly(Reduce(log), requested.event.payload.requestId);
    OnlyInput(r, c, m);
  }

  lemma {:induction false} OnlyInput(r: Replay, c: CommandRecord, m: MessageRecord)
    requires r.messages == Empty.Set(m.meta.messageId, m)
    requires r.commands == Empty.Set(c.commandId, c) && c.command.Some? && c.command.value.SubmitMessage?
    requires m.meta.User? && m.meta.commandId == c.commandId && m.meta.life == FRESH
    ensures RunSchedulingInputMessageIds(r.messages, r.commands, CommandWork(c.commandId)) == [m.meta.messageId]
  {
    assert r.messages == OMap<MessageId, MessageRecord>.Entry(m.meta.messageId, m, Empty) && r.messages.Values() == [m];
    assert [m][1..] == [] && FilterMap([m], AuthoredBy(c.commandId)) == [m.meta.messageId];
    assert Filter([m.meta.messageId][1..], EligibleIn(r.messages)) == [];
  }

  // ---------------------------------------------------------------------------
  // What may change a waiting run
  // ---------------------------------------------------------------------------

  /** How soon a command may change a waiting run: stops, cancellations, promotions, interrupts, nothing else. */
  function Rank(c: PendingCommand): Option<nat> {
    match c.command
    case StopTurn(_, _) => Some(0)
    case CancelPendingMessage(_, _, _) => Some(1)
    case PromotePendingMessage(_, _, _) => Some(2)
    case SubmitMessage(_, _, disposition, _) => if disposition == Interrupt then Some(3) else None
    case ResumePendingMessages(_, _, _) => None
  }

  /** A waiting command, other than the one the run is for, that may change it. */
  predicate Interferes(r: Replay, c: PendingCommand) {
    && IsWaiting(r.commands, c) && Rank(c).Some?
    && (r.request.Some? ==> c.commandId != r.request.value.work.commandId)
  }

  predicate Sooner(c: PendingCommand, d: PendingCommand) {
    var p, q := Rank(c), Rank(d);
    p.Some? && q.Some? && (p.value < q.value || (p == q && c.admittedSeq <= d.admittedSeq))
  }

  lemma {:induction false} InterferesExactly(s: State, c: PendingCommand)
    requires s == WithQueues(s.replay) && CommandsKeyed(s.replay.commands)
    ensures var owner := if s.replay.request.Some? then Some(s.replay.request.value.work.commandId) else None;
            c in s.queues.activeControlCommands && ControlsWaiting(c, owner) <==> Interferes(s.replay, c)
  {
    ControlsExactly(s, c);
  }

  lemma {:induction false} SoonerIsBefore(c: PendingCommand, d: PendingCommand)
    requires Rank(c).Some? && Rank(d).Some?
    ensures WaitingBefore(c, d) <==> Sooner(c, d)
  {
  }

  /** The control of a waiting run: of the commands that interfere, the first by rank and then admission. */
  lemma {:induction false} WaitingControlExactly(s: State)
    requires s == WithQueues(s.replay) && CommandsKeyed(s.replay.commands)
    ensures match WaitingRunControl(s) {
              case None => forall c :: !Interferes(s.replay, c)
              case Some(c) => Interferes(s.replay, c) && forall d :: Interferes(s.replay, d) ==> Sooner(c, d)
            }
  {
    WaitingRunControlIsFirst(s);
    forall c {:trigger Interferes(s.replay, c)} {
      InterferesExactly(s, c);
    }
    var control := WaitingRunControl(s);
    if control.Some? {
      InterferesExactly(s, control.value);
      forall d | Interferes(s.replay, d) ensures Sooner(control.value, d) {
        InterferesExactly(s, d);
        SoonerIsBefore(control.value, d);
      }
    }
  }

  /**
   * Cancelling an input of the requested run closes its request: a recovery is requested again with the other
   * inputs, its command is cancelled when there are none, and work for a command just goes.
   */
  lemma {:induction false} CancellationExactly(r: Replay, id: MessageId)
    requires MessagesKeyed(r.messages)
    ensures var plan := PlanRunSchedulingCancellation(r, id);
            if r.request.None? || !Takes(r, r.request.value.work, id) then plan == None
            else
              var request := r.request.value;
              && plan.Some? && plan.value.requestId == request.requestId
              && match request.work {
                   case CommandWork(_) => plan.value.cancelCommandId == None && plan.value.replacementWork == None
                   case RecoveryWork(commandId, interrupted, _) =>
                     if exists other :: Takes(r, request.work, other) && other != id then
                       && plan.value.cancelCommandId == None
                       && plan.value.replacementWork.Some?
                       && plan.value.replacementWork.value.RecoveryWork?
                       && plan.value.replacementWork.value.commandId == commandId
                       && plan.value.replacementWork.value.interruptedRunId == interrupted
                       && forall other :: other in plan.value.replacementWork.value.inputMessageIds
                                          <==> Takes(r, request.work, other) && other != id
                     else plan.value.cancelCommandId == Some(commandId) && plan.value.replacementWork == None
                 }
  {
    if r.request.Some? {
      var work := r.request.value.work;
      var others := Filter(RunSchedulingInputMessageIds(r.messages, r.commands, work), OtherThan(id));
      forall other
        ensures other in RunSchedulingInputMessageIds(r.messages, r.commands, work) <==> Takes(r, work, other)
        ensures other in others <==> Takes(r, work, other) && other != id
      {
        InputsExactly(r, work, other);
      }
      if others != [] {
        assert others[0] in others;
      }
    }
  }

  /** An interruption of a waiting run pauses what is in line, but for the messages of the interrupting command. */
  lemma {:induction false} InterruptionExactly(s: State, control: CommandId, id: MessageId)
    requires MessagesKeyed(s.replay.messages) && s == WithQueues(s.replay)
    ensures id in PlanWaitingRunInterruption(s, control) <==>
              && s.replay.messages.Has(id)
              && var m := s.replay.messages.Get(id).value;
                 Waits(m) && !IsHeld(m) && m.meta.commandId != control
  {
    var others := Filter(s.queues.pendingQueue + s.queues.pendingSteers, NotFrom(control));
    var ids := MapSeq(others, IdOf);
    if id in ids {
      var i :| 0 <= i < |ids| && ids[i] == id;
      assert others[i] in others;
      WaitingMembership(s.replay.messages, others[i]);
      EntryShows(s.replay.messages.Get(id).value);
    }
    if s.replay.messages.Has(id) && Waits(s.replay.messages.Get(id).value) && !IsHeld(s.replay.messages.Get(id).value)
       && s.replay.messages.Get(id).value.meta.commandId != control {
      var p := QueueContents.Entry(s.replay.messages.Get(id).value);
      EntryShows(s.replay.messages.Get(id).value);
      WaitingMembership(s.replay.messages, p);
      assert p in others;
      var i :| 0 <= i < |others| && others[i] == p;
      assert ids[i] == id;
    }
  }

  // ---------------------------------------------------------------------------
  // The answer for a request
  // ---------------------------------------------------------------------------

  function SchedulesRequest(id: RequestId): Committed -> bool {
    (e: Committed) =>
      || (e.event.payload.RunSchedulingRequested? && e.event.payload.requestId == id)
      || (e.event.payload.RunSchedulingInvalidated? && e.event.payload.requestId == id)
      || (e.event.payload.RunSchedulingGranted? && e.event.payload.requestId == id)
  }

  /** How a granted run stands, by its last close since. */
  function StandingOf(close: Option<Committed>): RunStatus {
    if close.None? || !close.value.event.payload.RunClosed? then Running
    else
      match close.value.event.payload.outcome
      case Completed(_) => RunCompleted
      case Failed(_) => RunFailed
      case Aborted(_) => RunInterrupted
  }

  function AnswerFrom(last: Option<Committed>, close: Option<Committed>): RequestOutcome {
    if last.None? then Unknown
    else
      match last.value.event.payload
      case RunSchedulingRequested(_, _) => Waiting
      case RunSchedulingInvalidated(_) => Invalidated
      case RunSchedulingGranted(_, run) => Granted(run, StandingOf(close))
      case _ => Unknown
  }

  /** The last close of the run that a request was granted. */
  function CloseOfGranted(last: Option<Committed>, since: seq<Committed>): Option<Committed> {
    if last.Some? && last.value.event.payload.RunSchedulingGranted?
    then Latest(since, FoldRecords.ClosesRun(last.value.event.payload.runId)) else None
  }

  function AnswerIn(log: seq<Committed>, id: RequestId): RequestOutcome {
    var last := Latest(log, SchedulesRequest(id));
    AnswerFrom(last, CloseOfGranted(last, AfterLatest(log, SchedulesRequest(id))))
  }

  /** One more event that does not schedule the request. */
  lemma {:induction false} AnswerMoves(last: Option<Committed>, since: seq<Committed>, e: Committed)
    ensures var before := AnswerFrom(last, CloseOfGranted(last, since));
            AnswerFrom(last, CloseOfGranted(last, since + [e])) ==
            if && e.event.payload.RunClosed? && before.Granted?
               && before.runId == e.event.payload.runId
            then before.(status := RunScheduling.StatusOf(e.event.payload.outcome)) else before
  {
    if last.Some? && last.value.event.payload.RunSchedulingGranted? {
      LatestSnoc(since, e, FoldRecords.ClosesRun(last.value.event.payload.runId));
    }
  }

  lemma {:induction false} OutcomeSnoc(log: seq<Committed>, e: Committed, id: RequestId)
    ensures !SchedulesRequest(id)(e) ==>
              var before := OutcomeOf(log, id);
              OutcomeOf(log + [e], id) ==
              if e.event.payload.RunClosed? && before.Granted? && before.runId == e.event.payload.runId
              then before.(status := RunScheduling.StatusOf(e.event.payload.outcome)) else before
    ensures SchedulesRequest(id)(e) ==> OutcomeOf(log + [e], id) == AnswerFrom(Some(e), None)
  {
    assert (log + [e])[..|log|] == log;
  }

  lemma {:induction false} AnswerStep(log: seq<Committed>, e: Committed, id: RequestId)
    requires OutcomeOf(log, id) == AnswerIn(log, id)
    ensures OutcomeOf(log + [e], id) == AnswerIn(log + [e], id)
  {
    OutcomeSnoc(log, e, id);
    AfterSnoc(log, e, SchedulesRequest(id));
    if !SchedulesRequest(id)(e) {
      AnswerMoves(Latest(log, SchedulesRequest(id)), AfterLatest(log, SchedulesRequest(id)), e);
    }
  }

  /** The answer is the last scheduling event of the request and, once granted, the last close of its run since. */
  lemma {:induction false} OutcomeExactly(log: seq<Committed>, id: RequestId)
    ensures OutcomeOf(log, id) == AnswerIn(log, id)
  {
    if log != [] {
      var front, e := log[..|log| - 1], log[|log| - 1];
      OutcomeExactly(front, id);
      AnswerStep(front, e, id);
      assert log == front + [e];
    }
  }
}
