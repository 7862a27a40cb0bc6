/** In which order dispatch takes what waits, and that a granted run leaves nothing more urgent behind. */
module DispatchOrder {
  import opened Collections
  import opened Events
  import opened Records
  import opened CommandQueues
  import opened ReducedState
  import opened ReplayInvariants
  import opened QueueProperties
  import opened Dispatch
  import opened RunScheduling
  import ByKind = ReplayFold

  // ---------------------------------------------------------------------------
  // Controls
  // ---------------------------------------------------------------------------

  /** No waiting control is more urgent, and none as urgent was admitted earlier. */
  ghost predicate FirstControl(q: Queues, c: PendingCommand) {
    c in q.activeControlCommands && forall d :: d in q.activeControlCommands ==> ControlsBefore(c, d)
  }

  lemma {:induction false} ControlTakenFirst(q: Queues)
    ensures var control := PendingActiveControlCommand(q);
            && (control.None? <==> q.activeControlCommands == [])
            && (control.Some? ==> FirstControl(q, control.value))
  {
    var sorted := StableSort(q.activeControlCommands, ControlsBefore);
    SortIsPermutation(q.activeControlCommands, ControlsBefore);
    SortIsSorted(q.activeControlCommands, ControlsBefore);
    SameElements(sorted, q.activeControlCommands);
    if sorted != [] {
      assert sorted[0] in sorted;
      forall d | d in sorted ensures ControlsBefore(sorted[0], d) {
        var i :| 0 <= i < |sorted| && sorted[i] == d;
        assert i > 0 ==> ControlsBefore(sorted[0], sorted[i]);
      }
    }
  }

  /** A submission that joins the running turn. */
  predicate Joins(c: PendingCommand) {
    c.command.SubmitMessage? && c.command.disposition != Interrupt
  }

  /**
   * While a command is active, what dispatch does is named by the most urgent waiting control: stop,
   * cancel, promote, then interrupt and steer in admission order; it waits only without a control, or
   * when that control is a submission to join and no run is open yet.
   */
  ghost predicate DecidesForActive(q: Queues, decision: Decision)
    requires q.active.Some?
  {
    var active := q.active.value;
    match decision
    case DispatchStop(c, a) => a == active && FirstControl(q, c) && c.command.StopTurn?
    case DispatchCancelPendingMessage(c, a) => a == Some(active) && FirstControl(q, c)
      && c.command.CancelPendingMessage?
    case DispatchPromotePendingMessage(c, a) => a == Some(active) && FirstControl(q, c)
      && c.command.PromotePendingMessage?
    case DispatchInterrupt(c, a) => a == active && FirstControl(q, c) && IsInterrupt(c)
    case DispatchSteer(c, a) => a == active && FirstControl(q, c) && Joins(c) && active.runId.Some?
    case BlockedByActiveCommand(a) =>
      && a == active
      && (|| q.activeControlCommands == []
          || exists c :: FirstControl(q, c) && (c.command.ResumePendingMessages? || (Joins(c) && active.runId.None?)))
    case _ => false
  }

  lemma {:induction false} ActiveDispatchOrder(q: Queues)
    requires q.active.Some?
    ensures DecidesForActive(q, DecideDispatch(q))
  {
    ControlTakenFirst(q);
    var control := PendingActiveControlCommand(q);
    if control.Some? {
      assert FirstControl(q, control.value);
    }
  }

  // ---------------------------------------------------------------------------
  // Starting the next command
  // ---------------------------------------------------------------------------

  ghost predicate HasPending(pending: seq<PendingCommand>, id: CommandId) {
    exists c :: c in pending && c.commandId == id
  }

  ghost predicate OwnedBy(pending: seq<PendingCommand>, m: PendingUserMessage) {
    exists c :: c in pending && Owns(c, m)
  }

  /** The command runs the earliest owned message, through that message's own command when it still waits. */
  ghost predicate RunsEarliestOwned(c: PendingCommand, steers: seq<PendingUserMessage>, pending: seq<PendingCommand>) {
    exists i :: 0 <= i < |steers| && RunsAt(c, steers, pending, i)
  }

  ghost predicate RunsAt(c: PendingCommand, steers: seq<PendingUserMessage>, pending: seq<PendingCommand>, i: nat)
    requires i < |steers|
  {
    && (if HasPending(pending, steers[i].commandId)
      then c.commandId == steers[i].commandId
      else Resumes(c, steers[i].messageId))
    && forall j :: 0 <= j < i ==> !OwnedBy(pending, steers[j])
  }

  lemma {:induction false} EarliestOwner(steers: seq<PendingUserMessage>, pending: seq<PendingCommand>)
    ensures var owner := FirstOwner(steers, pending);
            owner.Some? ==> owner.value in pending && RunsEarliestOwned(owner.value, steers, pending)
  {
    var owner := FirstOwner(steers, pending);
    if owner.Some? {
      PendingByIdFinds(pending, steers[0].commandId);
      if OwnedBy(pending, steers[0]) {
        assert RunsAt(owner.value, steers, pending, 0);
      } else {
        EarliestOwner(steers[1..], pending);
        var i :| 0 <= i < |steers[1..]| && RunsAt(owner.value, steers[1..], pending, i);
        assert forall j :: 0 < j < i + 1 ==> steers[j] == steers[1..][j - 1];
        assert RunsAt(owner.value, steers, pending, i + 1);
      }
    }
  }

  /** The command is the one of the earliest queued message whose command still waits. */
  ghost predicate StartsEarliest(c: PendingCommand, queue: seq<PendingUserMessage>, pending: seq<PendingCommand>) {
    exists i :: 0 <= i < |queue| && c.commandId == queue[i].commandId && NoneBefore(queue, pending, i)
  }

  ghost predicate NoneBefore(queue: seq<PendingUserMessage>, pending: seq<PendingCommand>, i: nat)
    requires i <= |queue|
  {
    forall j :: 0 <= j < i ==> !HasPending(pending, queue[j].commandId)
  }

  lemma {:induction false} EarliestOrigin(queue: seq<PendingUserMessage>, pending: seq<PendingCommand>)
    ensures var origin := FirstOrigin(queue, pending);
            && (origin.None? <==> NoneBefore(queue, pending, |queue|))
            && (origin.Some? ==> origin.value in pending && StartsEarliest(origin.value, queue, pending))
  {
    if queue != [] {
      PendingByIdFinds(pending, queue[0].commandId);
      EarliestOrigin(queue[1..], pending);
      var origin, rest := FirstOrigin(queue, pending), queue[1..];
      if HasPending(pending, queue[0].commandId) {
        assert NoneBefore(queue, pending, 0);
      } else {
        assert forall j :: 0 < j < |queue| ==> queue[j] == rest[j - 1];
        if origin.Some? {
          var i :| 0 <= i < |rest| && origin.value.commandId == rest[i].commandId && NoneBefore(rest, pending, i);
          assert NoneBefore(queue, pending, i + 1);
        }
      }
    }
  }

  /** The first pending command with the property. */
  ghost predicate FirstWith(pending: seq<PendingCommand>, p: PendingCommand -> bool, c: PendingCommand) {
    exists i :: 0 <= i < |pending| && pending[i] == c && p(c) && NoneWith(pending[..i], p)
  }

  ghost predicate NoneWith(pending: seq<PendingCommand>, p: PendingCommand -> bool) {
    forall c :: c in pending ==> !p(c)
  }

  lemma {:induction false} FindIsFirst(pending: seq<PendingCommand>, p: PendingCommand -> bool)
    ensures Find(pending, p).Some? ==> FirstWith(pending, p, Find(pending, p).value)
  {
    var found := Find(pending, p);
    if found.Some? {
      if p(pending[0]) {
        assert NoneWith(pending[..0], p);
      } else {
        FindIsFirst(pending[1..], p);
        var i :| 0 <= i < |pending[1..]| && pending[1..][i] == found.value && NoneWith(pending[1..][..i], p);
        assert pending[..i + 1] == [pending[0]] + pending[1..][..i];
        assert NoneWith(pending[..i + 1], p);
      }
    }
  }

  /**
   * What an idle session runs next: an owner of the earliest owned steer while steers wait, else the first
   * interrupt, else the command of the earliest queued message, else the first resume command or
   * submission none of whose messages are paused.
   */
  ghost predicate IdleOrder(q: Queues, choice: IdleChoice) {
    if q.pendingSteers != [] then
      match choice
      case Next(c) => c in q.pendingCommands && RunsEarliestOwned(c, q.pendingSteers, q.pendingCommands)
      case OrphanPendingMessages => forall m :: m in q.pendingSteers ==> !OwnedBy(q.pendingCommands, m)
      case Nothing => false
    else
      match choice
      case Next(c) =>
        if NoneWith(q.pendingCommands, IsInterrupt) then
          if NoneBefore(q.pendingQueue, q.pendingCommands, |q.pendingQueue|) then
            FirstWith(q.pendingCommands, StartableBeside(q.pausedQueue), c)
          else c in q.pendingCommands && StartsEarliest(c, q.pendingQueue, q.pendingCommands)
        else FirstWith(q.pendingCommands, IsInterrupt, c)
      case Nothing =>
        && NoneWith(q.pendingCommands, IsInterrupt)
        && NoneBefore(q.pendingQueue, q.pendingCommands, |q.pendingQueue|)
        && NoneWith(q.pendingCommands, StartableBeside(q.pausedQueue))
      case OrphanPendingMessages => false
  }

  lemma {:induction false} IdleDispatchOrder(q: Queues)
    ensures IdleOrder(q, NextIdleCommand(q))
  {
    FirstOwnerOwns(q.pendingSteers, q.pendingCommands);
    EarliestOwner(q.pendingSteers, q.pendingCommands);
    EarliestOrigin(q.pendingQueue, q.pendingCommands);
    FindIsFirst(q.pendingCommands, IsInterrupt);
    FindIsFirst(q.pendingCommands, StartableBeside(q.pausedQueue));
  }

  /** Without an active command, an urgent control is handled first; else the idle order decides. */
  ghost predicate DecidesForIdle(q: Queues, decision: Decision) {
    match decision
    case DispatchCancelPendingMessage(c, a) => a.None? && FirstControl(q, c) && c.command.CancelPendingMessage?
    case DispatchPromotePendingMessage(c, a) => a.None? && FirstControl(q, c) && c.command.PromotePendingMessage?
    case StartCommand(c) => (FirstControl(q, c) && c.command.StopTurn?) || IdleOrder(q, Next(c))
    case NoPendingCommand => IdleOrder(q, Nothing)
    case InvariantViolation(ids) => IdleOrder(q, OrphanPendingMessages) && ids == MapSeq(q.pendingSteers, IdOf)
    case _ => false
  }

  lemma {:induction false} DispatchWhenIdle(q: Queues)
    requires q.active.None?
    ensures DecidesForIdle(q, DecideDispatch(q))
  {
    ControlTakenFirst(q);
    IdleDispatchOrder(q);
  }

  // ---------------------------------------------------------------------------
  // A grant against the queues
  // ---------------------------------------------------------------------------

  /** The work names the message: as a listed input, a resumed message, or one of the command's own. */
  predicate NamedBy(commands: Commands, work: Work, m: PendingUserMessage) {
    match work
    case RecoveryWork(_, _, inputs) => m.messageId in inputs
    case CommandWork(commandId) =>
      var command := CommandBody(commands, commandId);
      if command.Some? && command.value.ResumePendingMessages? then m.messageId in command.value.messageIds
      else m.commandId == commandId
  }

  lemma {:induction false} NamedCandidates(messages: Messages, commands: Commands, work: Work, m: PendingUserMessage)
    requires MessagesKeyed(messages)
    requires messages.Has(m.messageId) && ToPendingUserMessage(messages.Get(m.messageId).value) == Some(m)
    ensures m.messageId in Candidates(messages, commands, work) <==> NamedBy(commands, work, m)
  {
    var command := CommandBody(commands, work.commandId);
    if work.CommandWork? && !(command.Some? && command.value.ResumePendingMessages?) {
      var ids := FilterMap(messages.Values(), AuthoredBy(work.commandId));
      var r := messages.Get(m.messageId).value;
      assert r in messages.Values();
      if m.messageId in ids {
        var other :| other in messages.Values() && AuthoredBy(work.commandId)(other) == Some(m.messageId);
        var k := ValueHasKey(messages, other);
      }
      if m.commandId == work.commandId {
        assert AuthoredBy(work.commandId)(r) == Some(m.messageId);
      }
    }
  }

  /** The inputs of a reservation are exactly the queued and steering messages its work names. */
  lemma {:induction false} InputsAreQueuedMessages(s: State, work: Work, id: MessageId)
    requires MessagesKeyed(s.replay.messages) && s == WithQueues(s.replay)
    ensures id in RunSchedulingInputMessageIds(s.replay.messages, s.replay.commands, work)
            <==> exists m ::
              m in s.queues.pendingQueue + s.queues.pendingSteers && m.messageId == id
              && NamedBy(s.replay.commands, work, m)
  {
    var messages, commands := s.replay.messages, s.replay.commands;
    var inputs := RunSchedulingInputMessageIds(messages, commands, work);
    if id in inputs {
      var m := ToPendingUserMessage(messages.Get(id).value).value;
      WaitingMembership(messages, m);
      NamedCandidates(messages, commands, work, m);
      assert m in s.queues.pendingQueue + s.queues.pendingSteers;
    }
    if m :| m in s.queues.pendingQueue + s.queues.pendingSteers && m.messageId == id && NamedBy(commands, work, m) {
      WaitingMembership(messages, m);
      NamedCandidates(messages, commands, work, m);
    }
  }

  /** A queued or steering message the open request names. */
  ghost predicate Awaited(s: State, id: MessageId)
    requires s.replay.request.Some?
  {
    exists m :: && m in s.queues.pendingQueue + s.queues.pendingSteers && m.messageId == id
                && NamedBy(s.replay.commands, s.replay.request.value.work, m)
  }

  /** Controls that may wait beside a grant: promotions, and cancellations of messages the run does not take. */
  ghost predicate Harmless(s: State, c: PendingCommand)
    requires s.replay.request.Some?
  {
    c.command.PromotePendingMessage? || (c.command.CancelPendingMessage? && !Awaited(s, c.command.messageId))
  }

  lemma {:induction false} GrantedBesideControl(s: State, id: RequestId, c: PendingCommand)
    requires Keyed(s.replay) && s == WithQueues(s.replay) && CanGrantRun(s, id)
    requires c in s.queues.activeControlCommands && ControlsWaiting(c, Some(s.replay.request.value.work.commandId))
    requires !c.command.ResumePendingMessages?
    ensures Harmless(s, c)
  {
    var work := s.replay.request.value.work;
    var inputs := RunSchedulingInputMessageIds(s.replay.messages, s.replay.commands, work);
    assert !BlocksGrant(c, s.replay.commands.Get(work.commandId).value.commandId, inputs);
    if c.command.CancelPendingMessage? {
      InputsAreQueuedMessages(s, work, c.command.messageId);
    }
  }

  lemma {:induction false} NoResumeControls(s: State, c: PendingCommand)
    requires s == WithQueues(s.replay) && c in s.queues.activeControlCommands
    ensures !c.command.ResumePendingMessages?
  {
    assert IsActiveControlCommand(c, PendingUserMessages(s.replay.messages.Values()));
  }

  /**
   * A run is granted only when no run is open and nothing waiting would change it: the first control that
   * may is a promotion or cancels a message the run does not take.
   */
  lemma {:induction false} GrantLeavesNothingUrgent(s: State, id: RequestId)
    requires Keyed(s.replay) && s == WithQueues(s.replay) && CanGrantRun(s, id)
    ensures forall run :: run in s.replay.runs.Values() ==> run.terminal.Some?
    ensures WaitingRunControl(s).Some? ==> Harmless(s, WaitingRunControl(s).value)
  {
    WaitingRunControlIsFirst(s);
    var control := WaitingRunControl(s);
    if control.Some? {
      NoResumeControls(s, control.value);
      GrantedBesideControl(s, id, control.value);
    }
  }

  /** A granted command still has a message to run, or is a submission whose messages the folded state does not hold. */
  lemma {:induction false} GrantedCommandHasInput(s: State, id: RequestId)
    requires Keyed(s.replay) && s == WithQueues(s.replay) && CanGrantRun(s, id)
    requires s.replay.request.value.work.CommandWork?
    ensures var work := s.replay.request.value.work;
            || (exists m :: Awaited(s, m))
            || (&& s.replay.commands.Get(work.commandId).value.command.value.SubmitMessage?
                && !exists m :: m in s.replay.messages.Values() && WrittenFor(m, work.commandId))
  {
    var work := s.replay.request.value.work;
    var inputs := RunSchedulingInputMessageIds(s.replay.messages, s.replay.commands, work);
    if inputs != [] {
      InputsAreQueuedMessages(s, work, inputs[0]);
      assert inputs[0] in inputs && Awaited(s, inputs[0]);
    }
  }

  predicate WrittenFor(m: MessageRecord, commandId: CommandId) {
    m.meta.Authored() && m.meta.commandId == commandId
  }

  predicate RecordsMessageOf(e: Committed, commandId: CommandId) {
    NewMessage(e).Some? && WrittenFor(NewMessage(e).value, commandId)
  }

  /** What can take a recorded message away: a rebase, or a message under the same id. */
  predicate MayReplace(e: Committed, id: MessageId) {
    e.event.payload.ContextRebased? || (NewMessage(e).Some? && NewMessage(e).value.meta.messageId == id)
  }

  /** The command's message is in the map, at whatever stage. */
  predicate Holds(m: Messages, id: MessageId, commandId: CommandId) {
    m.Has(id) && WrittenFor(m.Get(id).value, commandId)
  }

  lemma {:induction false} ConsumingHolds(
      m: Messages, ids: seq<MessageId>, at: Seq, turnId: TurnId, id: MessageId, commandId: CommandId)
    requires Holds(m, id, commandId)
    ensures Holds(ConsumeMessages(m, ids, at, turnId), id, commandId)
  {
    if ids != [] {
      ConsumingHolds(m, ids[..|ids| - 1], at, turnId, id, commandId);
    }
  }

  lemma {:induction false} PausingHolds(
      m: Messages, ids: seq<MessageId>, at: Seq, pauser: CommandId, id: MessageId, commandId: CommandId)
    requires Holds(m, id, commandId)
    ensures Holds(PauseMessages(m, ids, at, pauser), id, commandId)
  {
    if ids != [] {
      PausingHolds(m, ids[..|ids| - 1], at, pauser, id, commandId);
    }
  }

  lemma {:induction false} StillHolds(m: Messages, e: Committed, id: MessageId, commandId: CommandId)
    requires Holds(m, id, commandId) && !MayReplace(e, id)
    ensures Holds(ApplyMessages(m, e), id, commandId)
  {
    var p := e.event.payload;
    if p.TurnStarted? {
      ConsumingHolds(m, p.inputMessageIds, e.at, p.turnId, id, commandId);
    } else if p.MessagesPaused? {
      PausingHolds(m, p.messageIds, e.at, p.pausedByCommandId, id, commandId);
    }
  }

  ghost predicate TakenAway(log: seq<Committed>, i: nat, id: MessageId) {
    exists j :: i < j < |log| && MayReplace(log[j], id)
  }

  /** A recorded message stays until something can take it away. */
  lemma {:induction false} RecordedStays(log: seq<Committed>, i: nat, id: MessageId, commandId: CommandId)
    requires i < |log| && RecordsMessageOf(log[i], commandId) && NewMessage(log[i]).value.meta.messageId == id
    ensures Holds(FoldMessages(Empty, log), id, commandId) || TakenAway(log, i, id)
  {
    var front, last := log[..|log| - 1], log[|log| - 1];
    if i == |front| {
      MessageStored(FoldMessages(Empty, front), Empty, last);
    } else {
      RecordedStays(front, i, id, commandId);
      if TakenAway(front, i, id) {
        var j :| i < j < |front| && MayReplace(front[j], id);
        assert MayReplace(log[j], id);
      } else if MayReplace(last, id) {
        assert MayReplace(log[|front|], id);
      } else {
        StillHolds(FoldMessages(Empty, front), last, id, commandId);
      }
    }
  }

  /** Every message the log records for the command was taken away again. */
  ghost predicate AllTakenAway(log: seq<Committed>, commandId: CommandId) {
    forall i :: 0 <= i < |log| && RecordsMessageOf(log[i], commandId) ==>
      TakenAway(log, i, NewMessage(log[i]).value.meta.messageId)
  }

  lemma {:induction false} NoneHeldAllTakenAway(log: seq<Committed>, commandId: CommandId)
    requires !exists m :: m in FoldMessages(Empty, log).Values() && WrittenFor(m, commandId)
    ensures AllTakenAway(log, commandId)
  {
    var messages := FoldMessages(Empty, log);
    forall i | 0 <= i < |log| && RecordsMessageOf(log[i], commandId)
      ensures TakenAway(log, i, NewMessage(log[i]).value.meta.messageId)
    {
      var id := NewMessage(log[i]).value.meta.messageId;
      RecordedStays(log, i, id, commandId);
      assert messages.Get(id).Some? ==> messages.Get(id).value in messages.Values();
    }
  }

  /**
   * Over any log: a command granted without a waiting message is a submission, and a rebase or a reused id
   * took away every message the log recorded for it. Without either, it never recorded one.
   */
  lemma {:induction false} GrantWithoutInput(log: seq<Committed>, id: RequestId)
    requires CanGrantRun(Reduce(log), id) && Reduce(log).replay.request.value.work.CommandWork?
    requires !exists m :: Awaited(Reduce(log), m)
    ensures AllTakenAway(log, Reduce(log).replay.request.value.work.commandId)
  {
    FoldKeepsKeys(log);
    GrantedCommandHasInput(Reduce(log), id);
    FoldByMap(GENESIS, log);
    NoneHeldAllTakenAway(log, Reduce(log).replay.request.value.work.commandId);
  }

  // ---------------------------------------------------------------------------
  // A grant can be left without a message
  // ---------------------------------------------------------------------------

  /** A submission to the queue, a run requested for it, and a rebase past the message. */
  predicate RebasedWhileRequested(admitted: Committed, submitted: Committed, requested: Committed, rebased: Committed) {
    var p, q, n, b := admitted.event.payload, submitted.event.payload, requested.event.payload, rebased.event.payload;
    && p.CommandAdmitted? && p.command.SubmitMessage?
    && q.UserMessageSubmitted? && q.commandId == p.command.commandId
    && n.RunSchedulingRequested? && n.work == CommandWork(p.command.commandId)
    && b.ContextRebased? && submitted.at < b.retainedFromContextSeq
  }

  /** The command's record right after its admission. */
  function AdmittedRecord(e: Committed): CommandRecord
    requires e.event.payload.CommandAdmitted?
  {
    var command := e.event.payload.command;
    CommandRecord(command.commandId, Some(command), Some(e.at), Some(e.event.trace), None, None)
  }

  lemma {:induction false} OnlyPositionAndCommands(r: Replay, e: Committed)
    requires r == GENESIS && e.event.payload.CommandAdmitted?
    ensures var next := Apply(r, e);
            && next.commands == Empty.Set(e.event.payload.command.commandId, AdmittedRecord(e))
            && next.messages == Empty && next.runs == Empty && next.request == None
  {
    ByKind.OnlyCommands(r, e);
  }

  lemma {:induction false} OnlyMessageAdded(r: Replay, e: Committed)
    requires e.event.payload.UserMessageSubmitted? && r.messages == Empty
    ensures var next := Apply(r, e);
            && next.messages == Empty.Set(e.event.payload.messageId, NewMessage(e).value)
            && next.commands == r.commands && next.runs == r.runs && next.request == r.request
  {
    ByKind.OnlyNewMessage(r, e);
    MessageStored(r.messages, r.toolCalls, e);
  }

  lemma {:induction false} OnlyRequestAdded(r: Replay, e: Committed)
    requires e.event.payload.RunSchedulingRequested?
    ensures var next := Apply(r, e);
            && next.request == Some(RequestRecord(e.event.payload.requestId, e.event.payload.work, e.at, None))
            && next.commands == r.commands && next.runs == r.runs && next.messages == r.messages
  {
    ByKind.OnlyScheduling(r, e);
  }

  lemma {:induction false} OpenCommandKept(c: CommandRecord, from: Seq)
    requires c.terminal.None?
    ensures PruneCommands(Empty.Set(c.commandId, c), from) == Empty.Set(c.commandId, c)
  {
    var none: OMap<CommandId, CommandRecord> := Empty;
    var one: OMap<CommandId, CommandRecord> := Entry(c.commandId, c, none);
    assert none.Filter(KeptCommands(from)) == none && KeptCommands(from)(c.commandId, c);
    assert one.Filter(KeptCommands(from)) == one && none.Set(c.commandId, c) == one;
  }

  lemma {:induction false} RebaseTakesTheMessage(
      r: Replay, e: Committed, id: MessageId, m: MessageRecord, c: CommandRecord)
    requires e.event.payload.ContextRebased?
    requires r.messages == Empty.Set(id, m) && m.meta.User? && m.meta.at < e.event.payload.retainedFromContextSeq
    requires r.runs == Empty && r.commands == Empty.Set(c.commandId, c) && c.terminal.None?
    ensures var next := Apply(r, e);
            next.messages == Empty && next.runs == Empty && next.commands == r.commands && next.request == r.request
  {
    var from := e.event.payload.retainedFromContextSeq;
    ByKind.ApplyRebased(r, e);
    NoneLeft(id, m, from);
    assert PruneMessages(r.messages, from).Values() == [] ==> PruneMessages(r.messages, from) == Empty;
    OpenCommandKept(c, from);
  }

  lemma {:induction false} OneCommandIsGranted(r: Replay, id: RequestId, c: CommandRecord)
    requires r.messages == Empty && r.runs == Empty && r.commands == Empty.Set(c.commandId, c)
    requires c.command.Some? && c.command.value.SubmitMessage? && c.startedSeq.None? && c.terminal.None?
    requires c.command.value.commandId == c.commandId
    requires r.request.Some? && r.request.value.requestId == id && r.request.value.work == CommandWork(c.commandId)
    ensures CanGrantRun(WithQueues(r), id) && !exists m :: Awaited(WithQueues(r), m)
  {
    var q := WithQueues(r).queues;
    assert r.commands == Entry(c.commandId, c, Empty) && r.messages.Values() == [] && r.runs.Values() == [];
    assert PendingUserMessages([]) == [] && q.pendingQueue == [] && q.pendingSteers == [];
    assert RunSchedulingInputMessageIds(r.messages, r.commands, r.request.value.work) == [];
    forall control | control in q.activeControlCommands ensures control.commandId == c.commandId {
      PendingCommandMembership(r.commands, control);
    }
  }

  /** Such a request is granted, and no message is left for its run. */
  lemma {:induction false} GrantedWithoutItsMessage(
      admitted: Committed, submitted: Committed, requested: Committed, rebased: Committed)
    requires RebasedWhileRequested(admitted, submitted, requested, rebased)
    ensures var s := WithQueues(Apply(Apply(Apply(Apply(GENESIS, admitted), submitted), requested), rebased));
            CanGrantRun(s, requested.event.payload.requestId) && !exists m :: Awaited(s, m)
  {
    var c := AdmittedRecord(admitted);
    var r1 := Apply(GENESIS, admitted);
    var r2 := Apply(r1, submitted);
    var r3 := Apply(r2, requested);
    OnlyPositionAndCommands(GENESIS, admitted);
    OnlyMessageAdded(r1, submitted);
    OnlyRequestAdded(r2, requested);
    RebaseTakesTheMessage(r3, rebased, submitted.event.payload.messageId, NewMessage(submitted).value, c);
    OneCommandIsGranted(Apply(r3, rebased), requested.event.payload.requestId, c);
  }
}
