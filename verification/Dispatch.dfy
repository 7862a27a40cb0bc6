/** Which command runs next, and why no waiting steer is ever left without one. */
module Dispatch {
  import opened Collections
  import opened Events
  import opened Records
  import opened CommandQueues
  import opened ReducedState
  import opened ReplayInvariants
  import opened QueueProperties

  datatype Decision =
    | BlockedByActiveCommand(active: ActiveCommand)
    | DispatchStop(command: PendingCommand, active: ActiveCommand)
    | DispatchSteer(command: PendingCommand, active: ActiveCommand)
    | DispatchInterrupt(command: PendingCommand, active: ActiveCommand)
    | DispatchCancelPendingMessage(command: PendingCommand, activeIfAny: Option<ActiveCommand>)
    | DispatchPromotePendingMessage(command: PendingCommand, activeIfAny: Option<ActiveCommand>)
    | NoPendingCommand
    | InvariantViolation(messageIds: seq<MessageId>)
    | StartCommand(command: PendingCommand)

  function ControlPriority(c: Command): nat {
    match c
    case StopTurn(_, _) => 0
    case CancelPendingMessage(_, _, _) => 1
    case PromotePendingMessage(_, _, _) => 2
    case SubmitMessage(_, _, _, _) => 3
    case ResumePendingMessages(_, _, _) => 4
  }

  predicate ControlsBefore(a: PendingCommand, b: PendingCommand) {
    var p, q := ControlPriority(a.command), ControlPriority(b.command);
    p < q || (p == q && a.admittedSeq <= b.admittedSeq)
  }

  function PendingActiveControlCommand(q: Queues): Option<PendingCommand> {
    var sorted := StableSort(q.activeControlCommands, ControlsBefore);
    if sorted == [] then None else Some(sorted[0])
  }

  /** The pending command a map keyed by id would hold. */
  function PendingById(pending: seq<PendingCommand>, id: CommandId): Option<PendingCommand> {
    if pending == [] then None
    else if pending[|pending| - 1].commandId == id then Some(pending[|pending| - 1])
    else PendingById(pending[..|pending| - 1], id)
  }

  predicate Resumes(c: PendingCommand, id: MessageId) {
    c.command.ResumePendingMessages? && id in c.command.messageIds
  }

  function ResumerOf(id: MessageId): PendingCommand -> bool {
    (c: PendingCommand) => Resumes(c, id)
  }

  /** The first steer that has an owner decides; its own command comes before a resuming one. */
  function FirstOwner(steers: seq<PendingUserMessage>, pending: seq<PendingCommand>): Option<PendingCommand> {
    if steers == [] then None
    else
      var origin := PendingById(pending, steers[0].commandId);
      if origin.Some? then origin
      else
        var resume := Find(pending, ResumerOf(steers[0].messageId));
        if resume.Some? then resume else FirstOwner(steers[1..], pending)
  }

  function FirstOrigin(queue: seq<PendingUserMessage>, pending: seq<PendingCommand>): Option<PendingCommand> {
    if queue == [] then None
    else
      var origin := PendingById(pending, queue[0].commandId);
      if origin.Some? then origin else FirstOrigin(queue[1..], pending)
  }

  predicate IsInterrupt(c: PendingCommand) {
    c.command.SubmitMessage? && c.command.disposition == Interrupt
  }

  function StartableBeside(paused: seq<PendingUserMessage>): PendingCommand -> bool {
    (c: PendingCommand) =>
      || c.command.ResumePendingMessages?
      || (c.command.SubmitMessage? && !exists m :: m in paused && m.commandId == c.commandId)
  }

  datatype IdleChoice = Nothing | OrphanPendingMessages | Next(command: PendingCommand)

  function Chosen(c: Option<PendingCommand>): IdleChoice {
    if c.Some? then Next(c.value) else Nothing
  }

  function NextIdleCommand(q: Queues): IdleChoice {
    var owner := FirstOwner(q.pendingSteers, q.pendingCommands);
    if owner.Some? then Next(owner.value)
    else if q.pendingSteers != [] then OrphanPendingMessages
    else
      var interrupt := Find(q.pendingCommands, IsInterrupt);
      if interrupt.Some? then Next(interrupt.value)
      else
        var origin := FirstOrigin(q.pendingQueue, q.pendingCommands);
        if origin.Some? then Next(origin.value)
        else Chosen(Find(q.pendingCommands, StartableBeside(q.pausedQueue)))
  }

  function DecideDispatch(q: Queues): Decision {
    var control := PendingActiveControlCommand(q);
    if q.active.Some? then
      var active := q.active.value;
      if control.None? then BlockedByActiveCommand(active)
      else
        var c := control.value;
        match c.command
        case StopTurn(_, _) => DispatchStop(c, active)
        case CancelPendingMessage(_, _, _) => DispatchCancelPendingMessage(c, Some(active))
        case PromotePendingMessage(_, _, _) => DispatchPromotePendingMessage(c, Some(active))
        case ResumePendingMessages(_, _, _) => BlockedByActiveCommand(active)
        case SubmitMessage(_, _, disposition, _) =>
          if disposition == Interrupt then DispatchInterrupt(c, active)
          else if active.runId.None? then BlockedByActiveCommand(active)
          else DispatchSteer(c, active)
    else if control.Some? && control.value.command.CancelPendingMessage?
      then DispatchCancelPendingMessage(control.value, None)
    else if control.Some? && control.value.command.PromotePendingMessage?
      then DispatchPromotePendingMessage(control.value, None)
    else if control.Some? && control.value.command.StopTurn? then StartCommand(control.value)
    else
      match NextIdleCommand(q)
      case OrphanPendingMessages => InvariantViolation(MapSeq(q.pendingSteers, IdOf))
      case Nothing => NoPendingCommand
      case Next(c) => StartCommand(c)
  }

  // ---------------------------------------------------------------------------
  // When dispatch reports a violation
  // ---------------------------------------------------------------------------

  ghost predicate Owns(c: PendingCommand, m: PendingUserMessage) {
    c.commandId == m.commandId || Resumes(c, m.messageId)
  }

  /** Some pending command will run the message: its own, or one resuming it. */
  ghost predicate Owned(q: Queues, m: PendingUserMessage) {
    exists c :: c in q.pendingCommands && Owns(c, m)
  }

  ghost predicate AllSteersOwned(q: Queues) {
    forall m :: m in q.pendingSteers ==> Owned(q, m)
  }

  lemma {:induction false} PendingByIdFinds(pending: seq<PendingCommand>, id: CommandId)
    ensures PendingById(pending, id).Some? <==> exists c :: c in pending && c.commandId == id
    ensures PendingById(pending, id).Some? ==>
            PendingById(pending, id).value in pending
            && PendingById(pending, id).value.commandId == id
  {
    if pending != [] {
      PendingByIdFinds(pending[..|pending| - 1], id);
      assert pending == pending[..|pending| - 1] + [pending[|pending| - 1]];
    }
  }

  lemma {:induction false} FirstOwnerOwns(steers: seq<PendingUserMessage>, pending: seq<PendingCommand>)
    ensures FirstOwner(steers, pending).None? <==> forall m, c :: m in steers && c in pending ==> !Owns(c, m)
    ensures FirstOwner(steers, pending).Some? ==>
              FirstOwner(steers, pending).value in pending && exists m ::
                m in steers
                && Owns(FirstOwner(steers, pending).value, m)
  {
    if steers != [] {
      PendingByIdFinds(pending, steers[0].commandId);
      FirstOwnerOwns(steers[1..], pending);
      assert steers[0] in steers;
      assert forall m :: m in steers <==> m == steers[0] || m in steers[1..];
    }
  }

  predicate OrdinaryControl(c: PendingCommand) {
    c.command.SubmitMessage? || c.command.ResumePendingMessages?
  }

  /** The control taken first is ordinary only when every control is. */
  lemma {:induction false} FirstControlIsLeast(q: Queues)
    ensures var control := PendingActiveControlCommand(q);
            (control.None? || OrdinaryControl(control.value)) <==>
              forall c :: c in q.activeControlCommands ==> OrdinaryControl(c)
  {
    var sorted := StableSort(q.activeControlCommands, ControlsBefore);
    SortIsPermutation(q.activeControlCommands, ControlsBefore);
    SortIsSorted(q.activeControlCommands, ControlsBefore);
    SameElements(sorted, q.activeControlCommands);
    if sorted != [] {
      assert sorted[0] in sorted;
      forall c | c in sorted ensures ControlPriority(sorted[0].command) <= ControlPriority(c.command) {
        var i :| 0 <= i < |sorted| && sorted[i] == c;
        assert i > 0 ==> ControlsBefore(sorted[0], sorted[i]);
      }
    }
  }

  /** No owner is found for the first steer only when none of the steers has one. */
  lemma {:induction false} OrphansExactly(q: Queues)
    ensures NextIdleCommand(q) == OrphanPendingMessages <==>
            q.pendingSteers != [] && forall m :: m in q.pendingSteers ==> !Owned(q, m)
  {
    FirstOwnerOwns(q.pendingSteers, q.pendingCommands);
  }

  /**
   * A violation is reported exactly when nothing is active, no control takes precedence and no waiting
   * steer has an owner.
   */
  lemma {:induction false} ViolationExactly(q: Queues)
    ensures DecideDispatch(q).InvariantViolation?
            <==> && q.active.None?
                 && q.pendingSteers != []
                 && (forall m :: m in q.pendingSteers ==> !Owned(q, m))
                 && (forall c :: c in q.activeControlCommands ==> OrdinaryControl(c))
  {
    FirstControlIsLeast(q);
    OrphansExactly(q);
  }

  // ---------------------------------------------------------------------------
  // Promotion keeps every steer owned
  // ---------------------------------------------------------------------------

  predicate ReservedByRecovery(request: Option<RequestRecord>, id: MessageId) {
    request.Some? && request.value.work.RecoveryWork? && id in request.value.work.inputMessageIds
  }

  predicate PromotionNeedsResumeCommand(s: State, id: MessageId) {
    var target := s.replay.messages.Get(id);
    && (s.queues.active.None? || s.queues.active.value.runId.None?)
    && target.Some? && target.value.meta.Authored()
    && !ReservedByRecovery(s.replay.request, id)
    && !exists c :: c in s.queues.pendingCommands && (c.commandId == target.value.meta.commandId || Resumes(c, id))
  }

  /** The promotion the control command checked for: a waiting queue message or paused steering. */
  predicate CanPromote(r: Replay, id: MessageId) {
    r.messages.Has(id) && r.messages.Get(id).value.meta.Waiting() && Promotable(r.messages.Get(id).value.meta)
  }

  /** The batch a promotion commits after its control command started. */
  function PromotionBatch(s: State, control: CommandId, id: MessageId, resumeId: CommandId): seq<Payload> {
    [UserMessagePromoted(control, id)]
    + (if PromotionNeedsResumeCommand(s, id)
      then [CommandAdmitted(ResumePendingMessages(resumeId, None, [id]))]
      else [])
    + [CommandClosed(control, Completed(None))]
  }

  ghost predicate Carries(batch: seq<Committed>, payloads: seq<Payload>) {
    |batch| == |payloads| && forall i :: 0 <= i < |batch| ==> batch[i].event.payload == payloads[i]
  }

  /** What a promotion batch does to the records dispatch looks at. */
  ghost predicate PromotedTo(
      s: State, messages: Messages, commands: Commands, control: CommandId, id: MessageId, resumeId: CommandId,
      batch: seq<Committed>)
    requires |batch| >= 2
  {
    && s.replay.messages.Has(id) && Promotable(s.replay.messages.Get(id).value.meta)
    && messages == s.replay.messages.Set(id, Promoted(s.replay.messages.Get(id).value, batch[0].at))
    && (forall c :: c != control && c != resumeId ==> commands.Get(c) == s.replay.commands.Get(c))
    && (PromotionNeedsResumeCommand(s, id) && control != resumeId && !s.replay.commands.Has(resumeId) ==>
          commands.Get(resumeId) == Some(Resumption(resumeId, id, batch[1])))
  }

  /** The record of a resume command just admitted. */
  function Resumption(resumeId: CommandId, id: MessageId, e: Committed): CommandRecord {
    CommandRecord(resumeId, Some(ResumePendingMessages(resumeId, None, [id])), Some(e.at), Some(e.event.trace), None,
      None)
  }

  predicate IsPromotion(e: Committed, id: MessageId) {
    e.event.payload.UserMessagePromoted? && e.event.payload.messageId == id
  }

  predicate IsResumption(e: Committed, resumeId: CommandId, id: MessageId) {
    e.event.payload == CommandAdmitted(ResumePendingMessages(resumeId, None, [id]))
  }

  predicate IsClose(e: Committed, control: CommandId) {
    e.event.payload == CommandClosed(control, Completed(None))
  }

  lemma {:induction false} CommandsLeaveMessages(m: Messages, e: Committed)
    requires e.event.payload.CommandAdmitted? || e.event.payload.CommandClosed?
    ensures ApplyMessages(m, e) == m
  {
  }

  /** Of the events of a promotion only the first concerns messages. */
  lemma {:induction false} PromotedMessages(m: Messages, a: Committed, b: Committed, c: Committed, id: MessageId)
    requires IsPromotion(a, id) && m.Has(id) && Promotable(m.Get(id).value.meta)
    requires b.event.payload.CommandAdmitted? || b.event.payload.CommandClosed?
    requires c.event.payload.CommandClosed?
    ensures FoldMessages(m, [a, b]) == FoldMessages(m, [a, b, c]) == m.Set(id, Promoted(m.Get(id).value, a.at))
  {
    UnfoldMessages(m, a, b, c);
    CommandsLeaveMessages(ApplyMessages(m, a), b);
    CommandsLeaveMessages(ApplyMessages(m, a), c);
  }

  lemma {:induction false} ClosedCommands(m: Commands, a: Committed, b: Committed, control: CommandId, id: MessageId)
    requires IsPromotion(a, id) && IsClose(b, control)
    ensures forall c :: c != control ==> FoldCommands(m, [a, b]).Get(c) == m.Get(c)
  {
    UnfoldCommands(m, a, b, b);
    assert ApplyCommands(m, a) == m;
  }

  lemma {:induction false} ResumedCommands(
      m: Commands, a: Committed, b: Committed, c: Committed, control: CommandId, id: MessageId, resumeId: CommandId)
    requires IsPromotion(a, id) && IsResumption(b, resumeId, id) && IsClose(c, control)
    ensures forall x :: x != control && x != resumeId ==> FoldCommands(m, [a, b, c]).Get(x) == m.Get(x)
    ensures control != resumeId && !m.Has(resumeId) ==>
            FoldCommands(m, [a, b, c]).Get(resumeId) == Some(Resumption(resumeId, id, b))
  {
    UnfoldCommands(m, a, b, c);
    assert ApplyCommands(m, a) == m;
  }

  lemma {:induction false} PromotionWithoutResume(
      s: State, batch: seq<Committed>, control: CommandId, id: MessageId, resumeId: CommandId)
    requires CanPromote(s.replay, id) && !PromotionNeedsResumeCommand(s, id)
    requires |batch| == 2 && IsPromotion(batch[0], id) && IsClose(batch[1], control)
    ensures PromotedTo(s, FoldMessages(s.replay.messages, batch), FoldCommands(s.replay.commands, batch), control, id,
            resumeId, batch)
  {
    assert batch == [batch[0], batch[1]];
    PromotedMessages(s.replay.messages, batch[0], batch[1], batch[1], id);
    ClosedCommands(s.replay.commands, batch[0], batch[1], control, id);
  }

  lemma {:induction false} PromotionWithResume(
      s: State, batch: seq<Committed>, control: CommandId, id: MessageId, resumeId: CommandId)
    requires CanPromote(s.replay, id) && PromotionNeedsResumeCommand(s, id)
    requires |batch| == 3 && IsPromotion(batch[0], id) && IsResumption(batch[1], resumeId, id)
             && IsClose(batch[2], control)
    ensures PromotedTo(s, FoldMessages(s.replay.messages, batch), FoldCommands(s.replay.commands, batch), control, id,
            resumeId, batch)
  {
    assert batch == [batch[0], batch[1], batch[2]];
    PromotedMessages(s.replay.messages, batch[0], batch[1], batch[2], id);
    ResumedCommands(s.replay.commands, batch[0], batch[1], batch[2], control, id, resumeId);
  }

  lemma {:induction false} PromotionEffect(
      s: State, batch: seq<Committed>, control: CommandId, id: MessageId, resumeId: CommandId)
    requires CanPromote(s.replay, id)
    requires Carries(batch, PromotionBatch(s, control, id, resumeId))
    ensures PromotedTo(s, FoldMessages(s.replay.messages, batch), FoldCommands(s.replay.commands, batch), control, id,
            resumeId, batch)
  {
    if PromotionNeedsResumeCommand(s, id) {
      PromotionWithResume(s, batch, control, id, resumeId);
    } else {
      PromotionWithoutResume(s, batch, control, id, resumeId);
    }
  }

  /** A promotion is under way: its control command started, and the id of the resume command is new. */
  ghost predicate Promoting(s: State, n: State, control: CommandId, resumeId: CommandId) {
    && Keyed(s.replay) && s == WithQueues(s.replay)
    && Keyed(n.replay) && n == WithQueues(n.replay)
    && s.replay.commands.Has(control) && s.replay.commands.Get(control).value.startedSeq.Some?
    && !s.replay.commands.Has(resumeId)
  }

  /** The promoted steer belongs to the resume command admitted for it. */
  lemma {:induction false} ResumedSteerOwned(s: State, n: State, m: PendingUserMessage, control: CommandId,
    id: MessageId, resumeId: CommandId,
                                             batch: seq<Committed>)
    requires Promoting(s, n, control, resumeId) && |batch| >= 2
    requires PromotedTo(s, n.replay.messages, n.replay.commands, control, id, resumeId, batch)
             && PromotionNeedsResumeCommand(s, id)
    requires m.messageId == id
    ensures Owned(n.queues, m)
  {
    var c := PendingCommand(resumeId, ResumePendingMessages(resumeId, None, [id]), batch[1].at,
      Some(batch[1].event.trace));
    PendingCommandMembership(n.replay.commands, c);
    assert Resumes(c, id);
  }

  /** The promoted steer belongs to the pending command that made a resume command needless. */
  lemma {:induction false} PromotedSteerOwned(s: State, n: State, m: PendingUserMessage, control: CommandId,
    id: MessageId, resumeId: CommandId,
                                              batch: seq<Committed>)
    requires Promoting(s, n, control, resumeId) && |batch| >= 2
    requires s.queues.active.None? || s.queues.active.value.runId.None?
    requires s.replay.request.None? || s.replay.request.value.work.CommandWork?
    requires PromotedTo(s, n.replay.messages, n.replay.commands, control, id, resumeId, batch)
             && !PromotionNeedsResumeCommand(s, id)
    requires m.messageId == id && m in n.queues.pendingSteers
    ensures Owned(n.queues, m)
  {
    SteerMembership(n.replay.messages, m);
    var target := s.replay.messages.Get(id).value;
    var c :| c in s.queues.pendingCommands && (c.commandId == target.meta.commandId || Resumes(c, id));
    StillPending(s, n, c, control, resumeId);
    assert Owns(c, m);
  }

  /** Any other steer keeps the owner it had. */
  lemma {:induction false} OtherSteerOwned(s: State, n: State, m: PendingUserMessage, control: CommandId, id: MessageId,
    resumeId: CommandId,
                                           batch: seq<Committed>)
    requires Promoting(s, n, control, resumeId) && |batch| >= 2
    requires PromotedTo(s, n.replay.messages, n.replay.commands, control, id, resumeId, batch)
             && AllSteersOwned(s.queues)
    requires m.messageId != id && m in n.queues.pendingSteers
    ensures Owned(n.queues, m)
  {
    SteerMembership(n.replay.messages, m);
    SteerMembership(s.replay.messages, m);
    var c :| c in s.queues.pendingCommands && Owns(c, m);
    StillPending(s, n, c, control, resumeId);
  }

  /**
   * With no run and no recovery reservation open, a promotion keeps every waiting steer owned, so
   * dispatch reports no violation afterwards.
   */
  lemma {:induction false} PromotionKeepsSteersOwned(
      s: State, batch: seq<Committed>, control: CommandId, id: MessageId, resumeId: CommandId)
    requires Keyed(s.replay) && s == WithQueues(s.replay)
    requires CanPromote(s.replay, id)
    requires s.queues.active.None? || s.queues.active.value.runId.None?
    requires s.replay.request.None? || s.replay.request.value.work.CommandWork?
    requires s.replay.commands.Has(control) && s.replay.commands.Get(control).value.startedSeq.Some?
    requires !s.replay.commands.Has(resumeId)
    requires Carries(batch, PromotionBatch(s, control, id, resumeId))
    requires AllSteersOwned(s.queues)
    ensures AllSteersOwned(Fold(s, batch).queues)
    ensures !DecideDispatch(Fold(s, batch).queues).InvariantViolation?
  {
    var n := Fold(s, batch);
    PromotionEffect(s, batch, control, id, resumeId);
    FoldByMap(s.replay, batch);
    KeyedAfter(s, batch);
    forall m | m in n.queues.pendingSteers ensures Owned(n.queues, m) {
      if m.messageId != id {
        OtherSteerOwned(s, n, m, control, id, resumeId, batch);
      } else if PromotionNeedsResumeCommand(s, id) {
        ResumedSteerOwned(s, n, m, control, id, resumeId, batch);
      } else {
        PromotedSteerOwned(s, n, m, control, id, resumeId, batch);
      }
    }
    NoViolationWhenOwned(n.queues);
  }

  lemma {:induction false} NoViolationWhenOwned(q: Queues)
    requires AllSteersOwned(q)
    ensures !DecideDispatch(q).InvariantViolation?
  {
    ViolationExactly(q);
    assert q.pendingSteers != [] ==> q.pendingSteers[0] in q.pendingSteers;
  }

  lemma {:induction false} KeyedAfter(s: State, batch: seq<Committed>)
    requires Keyed(s.replay)
    ensures Keyed(Fold(s, batch).replay)
  {
    if batch != [] {
      KeyedAfter(s, batch[..|batch| - 1]);
      ApplyKeepsKeys(FoldReplay(s.replay, batch[..|batch| - 1]), batch[|batch| - 1]);
    }
  }

  /** A pending command is neither the started control command nor the one about to be admitted. */
  lemma {:induction false} StillPending(s: State, n: State, c: PendingCommand, control: CommandId, resumeId: CommandId)
    requires Promoting(s, n, control, resumeId)
    requires forall c :: c != control && c != resumeId ==> n.replay.commands.Get(c) == s.replay.commands.Get(c)
    requires c in s.queues.pendingCommands
    ensures c in n.queues.pendingCommands
  {
    PendingCommandMembership(s.replay.commands, c);
    PendingCommandMembership(n.replay.commands, c);
  }
}
