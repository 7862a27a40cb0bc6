/** Permission to start a waiting run, its revocation, and the durable answer for one request. */
module RunScheduling {
  import opened Collections
  import opened Events
  import opened Records
  import opened CommandQueues
  import opened ReducedState
  import opened ReplayInvariants
  import opened QueueProperties
  import opened Checkpoint

  // ---------------------------------------------------------------------------
  // Inputs of a reservation
  // ---------------------------------------------------------------------------

  function AuthoredBy(commandId: CommandId): MessageRecord -> Option<MessageId> {
    (m: MessageRecord) => if m.meta.Authored() && m.meta.commandId == commandId then Some(m.meta.messageId) else None
  }

  predicate Eligible(messages: Messages, id: MessageId) {
    messages.Has(id) && messages.Get(id).value.meta.Waiting()
      && messages.Get(id).value.meta.life.pausedByCommandId.None?
  }

  function EligibleIn(messages: Messages): MessageId -> bool {
    (id: MessageId) => Eligible(messages, id)
  }

  function CommandBody(commands: Commands, id: CommandId): Option<Command> {
    if commands.Has(id) then commands.Get(id).value.command else None
  }

  function Candidates(messages: Messages, commands: Commands, work: Work): seq<MessageId> {
    match work
    case RecoveryWork(_, _, inputs) => inputs
    case CommandWork(commandId) =>
      var command := CommandBody(commands, commandId);
      if command.Some? && command.value.ResumePendingMessages? then command.value.messageIds
      else FilterMap(messages.Values(), AuthoredBy(commandId))
  }

  /** Still unconsumed, uncancelled and unpaused inputs of the work a reservation holds. */
  function RunSchedulingInputMessageIds(messages: Messages, commands: Commands, work: Work): seq<MessageId> {
    Filter(Candidates(messages, commands, work), EligibleIn(messages))
  }

  // ---------------------------------------------------------------------------
  // Granting
  // ---------------------------------------------------------------------------

  predicate AnyOpenRun(runs: Runs) {
    exists run :: run in runs.Values() && run.terminal.None?
  }

  predicate BlocksGrant(c: PendingCommand, owner: CommandId, inputs: seq<MessageId>) {
    && c.commandId != owner
    && match c.command
       case StopTurn(_, _) => true
       case SubmitMessage(_, _, disposition, _) => disposition == Interrupt
       case CancelPendingMessage(_, _, id) => id in inputs
       case _ => false
  }

  predicate GrantableWork(r: Replay, work: Work, command: CommandRecord, inputs: seq<MessageId>)
    requires command.command.Some?
  {
    match work
    case CommandWork(_) =>
      && command.startedSeq.None?
      && (inputs != []
          || (command.command.value.SubmitMessage?
              && !exists m :: m in r.messages.Values() && m.meta.Authored() && m.meta.commandId == command.commandId))
    case RecoveryWork(_, interrupted, named) =>
      && command.startedSeq.Some?
      && r.runs.Has(interrupted)
      && r.runs.Get(interrupted).value.terminal.Some?
      && command.commandId in r.runs.Get(interrupted).value.commandIds
      && (named != [] ==> inputs != [])
  }

  /** Revalidate ownership and pending controls right before granting permission. */
  predicate CanGrantRun(s: State, id: RequestId) {
    var r := s.replay;
    && r.request.Some? && r.request.value.requestId == id
    && var work := r.request.value.work;
       r.commands.Has(work.commandId)
       && var command := r.commands.Get(work.commandId).value;
          && command.command.Some? && command.terminal.None?
          && !AnyOpenRun(r.runs)
          && var inputs := RunSchedulingInputMessageIds(r.messages, r.commands, work);
             && GrantableWork(r, work, command, inputs)
             && !exists c :: c in s.queues.activeControlCommands && BlocksGrant(c, command.commandId, inputs)
  }

  ghost predicate Requests(e: Committed, id: RequestId) {
    e.event.payload.RunSchedulingRequested? && e.event.payload.requestId == id
  }

  ghost predicate Closes(e: Committed, id: RequestId) {
    (e.event.payload.RunSchedulingGranted? || e.event.payload.RunSchedulingInvalidated?)
      && e.event.payload.requestId == id
  }

  /** A closed request is not the folded one until it is requested again, whatever else happens. */
  lemma {:induction false} ClosedStaysClosed(log: seq<Committed>, i: nat, id: RequestId)
    requires i < |log| && Closes(log[i], id)
    requires forall j :: i < j < |log| ==> !Requests(log[j], id)
    ensures var request := FoldReplay(GENESIS, log).request; request.Some? ==> request.value.requestId != id
  {
    var front := log[..|log| - 1];
    if i < |front| {
      ClosedStaysClosed(front, i, id);
    }
  }

  /**
   * Once granted or invalidated, a request never authorizes a run again, also when the state was
   * resumed from a checkpoint.
   */
  lemma {:induction false} PermissionAtMostOnce(log: seq<Committed>, i: nat, id: RequestId, split: nat)
    requires Dense(log, 0) && split <= |log|
    requires i < |log| && Closes(log[i], id)
    requires forall j :: i < j < |log| ==> !Requests(log[j], id)
    ensures !CanGrantRun(Reduce(log), id)
    ensures var p := Encode(Reduce(log[..split]));
            var decoded := Decode(p, Referenced(log, PointerSeqs(p)));
            decoded.Some? && !CanGrantRun(Fold(decoded.value, log[split..]), id)
  {
    ClosedStaysClosed(log, i, id);
    ResumeEqualsReplay(log, split);
  }

  /** Two authorized grants of one request need a second request in between. */
  lemma {:induction false} AuthorizedGrantsNeedRequests(log: seq<Committed>, i: nat, j: nat, id: RequestId)
    requires i < j < |log| && Closes(log[i], id)
    requires CanGrantRun(Reduce(log[..j]), id)
    ensures exists k :: i < k < j && Requests(log[k], id)
  {
    if forall k :: i < k < j ==> !Requests(log[k], id) {
      ClosedStaysClosed(log[..j], i, id);
    }
  }

  // ---------------------------------------------------------------------------
  // The answer read from the log
  // ---------------------------------------------------------------------------

  datatype RunStatus = Running | RunCompleted | RunFailed | RunInterrupted

  datatype RequestOutcome = Unknown | Waiting | Invalidated | Granted(runId: RunId, status: RunStatus)

  function StatusOf(outcome: Outcome): RunStatus {
    match outcome
    case Completed(_) => RunCompleted
    case Failed(_) => RunFailed
    case Aborted(_) => RunInterrupted
  }

  /** The last thing the log says about a request. */
  function OutcomeOf(log: seq<Committed>, id: RequestId): RequestOutcome {
    if log == [] then Unknown
    else
      var before := OutcomeOf(log[..|log| - 1], id);
      match log[|log| - 1].event.payload
      case RunSchedulingRequested(j, _) => if j == id then Waiting else before
      case RunSchedulingInvalidated(j) => if j == id then Invalidated else before
      case RunSchedulingGranted(j, run) => if j == id then Granted(run, Running) else before
      case RunClosed(run, outcome) =>
        if before.Granted? && before.runId == run then before.(status := StatusOf(outcome)) else before
      case _ => before
  }

  /** Scan the log up to the head, updating the outcome entry by entry. */
  method RunRequestOutcome(log: seq<Committed>, head: Seq, id: RequestId) returns (outcome: RequestOutcome)
    requires Dense(log, 0)
    ensures outcome == OutcomeOf(if head <= |log| then log[..head] else log, id)
  {
    outcome := Unknown;
    var i := 0;
    while i < |log| && log[i].at <= head
      invariant 0 <= i <= |log| && i <= head
      invariant outcome == OutcomeOf(log[..i], id)
    {
      assert log[..i + 1][..i] == log[..i];
      match log[i].event.payload {
        case RunSchedulingRequested(j, _) =>
          if j == id { outcome := Waiting; }
        case RunSchedulingInvalidated(j) =>
          if j == id { outcome := Invalidated; }
        case RunSchedulingGranted(j, run) =>
          if j == id { outcome := Granted(run, Running); }
        case RunClosed(run, ended) =>
          if outcome.Granted? && outcome.runId == run { outcome := outcome.(status := StatusOf(ended)); }
        case _ =>
      }
      i := i + 1;
    }
    assert i == if head <= |log| then head else |log|;
    assert log[..|log|] == log;
  }

  ghost predicate Schedules(e: Committed, id: RequestId) {
    Requests(e, id) || Closes(e, id)
  }

  /** How the run ended: the last closing event of the run decides. */
  function CloseStatus(log: seq<Committed>, run: RunId): RunStatus {
    if log == [] then Running
    else
      match log[|log| - 1].event.payload
      case RunClosed(closed, outcome) => if closed == run then StatusOf(outcome) else CloseStatus(log[..|log| - 1], run)
      case _ => CloseStatus(log[..|log| - 1], run)
  }

  /** `i` is the last scheduling event of the request. */
  ghost predicate LastSchedule(log: seq<Committed>, i: nat, id: RequestId) {
    i < |log| && Schedules(log[i], id) && forall j :: i < j < |log| ==> !Schedules(log[j], id)
  }

  /** What the last scheduling event of a request says, with the run's last close after it. */
  function Answer(p: Payload, rest: seq<Committed>): RequestOutcome {
    match p
    case RunSchedulingGranted(_, run) => Granted(run, CloseStatus(rest, run))
    case RunSchedulingInvalidated(_) => Invalidated
    case _ => Waiting
  }

  lemma {:induction false} OutcomeUnknownExactly(log: seq<Committed>, id: RequestId)
    ensures OutcomeOf(log, id).Unknown? <==> forall j :: 0 <= j < |log| ==> !Schedules(log[j], id)
  {
    if log != [] {
      OutcomeUnknownExactly(log[..|log| - 1], id);
    }
  }

  /**
   * The answer is decided by the last scheduling event of the request and, when granted, the run's last
   * close after it.
   */
  lemma {:induction false} OutcomeIsLastSchedule(log: seq<Committed>, i: nat, id: RequestId)
    requires LastSchedule(log, i, id)
    ensures OutcomeOf(log, id) == Answer(log[i].event.payload, log[i + 1..])
  {
    var front, e := log[..|log| - 1], log[|log| - 1];
    if i < |front| {
      assert LastSchedule(front, i, id);
      OutcomeIsLastSchedule(front, i, id);
      assert log[i + 1..][..|log[i + 1..]| - 1] == front[i + 1..];
      assert !Schedules(e, id);
    } else {
      assert log[i + 1..] == [];
    }
  }

  /** The request most recently made, of any id. */
  function LastRequested(log: seq<Committed>): Option<RequestId> {
    if log == [] then None
    else if log[|log| - 1].event.payload.RunSchedulingRequested? then Some(log[|log| - 1].event.payload.requestId)
    else LastRequested(log[..|log| - 1])
  }

  /** The request the fold holds, on its own. */
  function OpenRequest(log: seq<Committed>): Option<RequestRecord> {
    if log == [] then None else ApplyRequest(OpenRequest(log[..|log| - 1]), log[|log| - 1])
  }

  predicate IsRequest(request: Option<RequestRecord>, id: RequestId) {
    request.Some? && request.value.requestId == id
  }

  lemma {:induction false} OpenRequestIsFolded(log: seq<Committed>)
    ensures FoldReplay(GENESIS, log).request == OpenRequest(log)
  {
    if log != [] {
      OpenRequestIsFolded(log[..|log| - 1]);
    }
  }

  lemma {:induction false} OpenRequestExactly(log: seq<Committed>, id: RequestId)
    ensures IsRequest(OpenRequest(log), id) <==> OutcomeOf(log, id).Waiting? && LastRequested(log) == Some(id)
  {
    if log != [] {
      OpenRequestExactly(log[..|log| - 1], id);
    }
  }

  /**
   * Whatever the log, the folded request is the given one exactly when the scan says waiting and no
   * other request followed.
   */
  lemma {:induction false} FoldedRequestExactly(log: seq<Committed>, id: RequestId)
    ensures IsRequest(FoldReplay(GENESIS, log).request, id) <==>
            OutcomeOf(log, id).Waiting? && LastRequested(log) == Some(id)
  {
    OpenRequestIsFolded(log);
    OpenRequestExactly(log, id);
  }

  /** Requests open only when none is open. */
  ghost predicate OneAtATime(log: seq<Committed>) {
    forall i {:trigger log[..i]} :: 0 <= i < |log| && log[i].event.payload.RunSchedulingRequested? ==>
      OpenRequest(log[..i]).None?
  }

  lemma {:induction false} WaitingExactlyWhenOpen(log: seq<Committed>, id: RequestId)
    requires OneAtATime(log)
    ensures OutcomeOf(log, id).Waiting? <==> IsRequest(OpenRequest(log), id)
  {
    if log != [] {
      var front := log[..|log| - 1];
      assert forall i :: 0 <= i < |front| ==> front[..i] == log[..i];
      WaitingExactlyWhenOpen(front, id);
      assert log[..|front|] == front;
    }
  }

  /** Under that discipline the scan answers waiting exactly when the folded state holds the request. */
  lemma {:induction false} WaitingExactlyWhenFolded(log: seq<Committed>, id: RequestId)
    requires OneAtATime(log)
    ensures OutcomeOf(log, id).Waiting? <==> IsRequest(FoldReplay(GENESIS, log).request, id)
  {
    OpenRequestIsFolded(log);
    WaitingExactlyWhenOpen(log, id);
  }

  /** Without it the two disagree: a second request replaces the first, which the scan still calls waiting. */
  lemma {:induction false} OverlappingRequestsDisagree(a: Committed, b: Committed)
    requires a.event.payload == RunSchedulingRequested("r1", CommandWork("c1"))
    requires b.event.payload == RunSchedulingRequested("r2", CommandWork("c2"))
    ensures OutcomeOf([a, b], "r1").Waiting?
    ensures FoldReplay(GENESIS, [a, b]).request.value.requestId == "r2"
  {
    assert [a, b][..1] == [a];
    assert [a][..0] == [];
  }

  // ---------------------------------------------------------------------------
  // Controls of a waiting run
  // ---------------------------------------------------------------------------

  predicate ControlsWaiting(c: PendingCommand, owner: Option<CommandId>) {
    Some(c.commandId) != owner && (c.command.SubmitMessage? ==> c.command.disposition == Interrupt)
  }

  function ControlsWaitingFor(owner: Option<CommandId>): PendingCommand -> bool {
    (c: PendingCommand) => ControlsWaiting(c, owner)
  }

  function WaitingPriority(c: Command): nat {
    match c
    case StopTurn(_, _) => 0
    case CancelPendingMessage(_, _, _) => 1
    case PromotePendingMessage(_, _, _) => 2
    case _ => 3
  }

  predicate WaitingBefore(a: PendingCommand, b: PendingCommand) {
    var p, q := WaitingPriority(a.command), WaitingPriority(b.command);
    p < q || (p == q && a.admittedSeq <= b.admittedSeq)
  }

  function WaitingRunControl(s: State): Option<PendingCommand> {
    var owner := if s.replay.request.Some? then Some(s.replay.request.value.work.commandId) else None;
    var sorted := StableSort(Filter(s.queues.activeControlCommands, ControlsWaitingFor(owner)), WaitingBefore);
    if sorted == [] then None else Some(sorted[0])
  }

  /**
   * The control taken is the first in priority order, and there is none exactly when no control may
   * change the waiting run.
   */
  lemma {:induction false} WaitingRunControlIsFirst(s: State)
    ensures var owner := if s.replay.request.Some? then Some(s.replay.request.value.work.commandId) else None;
            var r := WaitingRunControl(s);
            && (r.None? <==> forall c :: c in s.queues.activeControlCommands ==> !ControlsWaiting(c, owner))
            && (r.Some? ==> r.value in s.queues.activeControlCommands && ControlsWaiting(r.value, owner))
            && (r.Some? ==> forall c :: c in s.queues.activeControlCommands && ControlsWaiting(c, owner) ==>
              WaitingBefore(r.value, c))
  {
    var owner := if s.replay.request.Some? then Some(s.replay.request.value.work.commandId) else None;
    var controls := Filter(s.queues.activeControlCommands, ControlsWaitingFor(owner));
    var sorted := StableSort(controls, WaitingBefore);
    SortIsPermutation(controls, WaitingBefore);
    SortIsSorted(controls, WaitingBefore);
    SameElements(sorted, controls);
    forall c | c in s.queues.activeControlCommands && ControlsWaiting(c, owner)
      ensures sorted != [] && WaitingBefore(sorted[0], c)
    {
      assert c in controls && c in sorted;
      var i :| 0 <= i < |sorted| && sorted[i] == c;
      assert i > 0 ==> WaitingBefore(sorted[0], sorted[i]);
    }
    if sorted != [] {
      assert sorted[0] in sorted && sorted[0] in controls;
    }
  }

  datatype CancellationPlan = CancellationPlan(
    requestId: RequestId,
    cancelCommandId: Option<CommandId>,
    replacementWork: Option<Work>)

  function OtherThan(id: MessageId): MessageId -> bool {
    (other: MessageId) => other != id
  }

  /** Keep a recovery reservation's other inputs when one of them is cancelled. */
  function PlanRunSchedulingCancellation(r: Replay, id: MessageId): Option<CancellationPlan> {
    if r.request.None? then None
    else
      var request := r.request.value;
      var inputs := RunSchedulingInputMessageIds(r.messages, r.commands, request.work);
      if id !in inputs then None
      else if request.work.CommandWork? then Some(CancellationPlan(request.requestId, None, None))
      else
        var remaining := Filter(inputs, OtherThan(id));
        if remaining == [] then Some(CancellationPlan(request.requestId, Some(request.work.commandId), None))
        else Some(CancellationPlan(request.requestId, None, Some(request.work.(inputMessageIds := remaining))))
  }

  /** Changing a message's lifecycle changes no command's list of messages. */
  lemma {:induction false} AuthoredByStable(
      m: OMap<MessageId, MessageRecord>, id: MessageId, r: MessageRecord, commandId: CommandId)
    requires m.Has(id) && AuthoredBy(commandId)(r) == AuthoredBy(commandId)(m.Get(id).value)
    ensures FilterMap(m.Set(id, r).Values(), AuthoredBy(commandId)) == FilterMap(m.Values(), AuthoredBy(commandId))
  {
    var f := AuthoredBy(commandId);
    if m.key == id {
      assert m.Set(id, r).Values()[1..] == m.rest.Values() == m.Values()[1..];
    } else {
      AuthoredByStable(m.rest, id, r, commandId);
      assert m.Set(id, r).Values()[1..] == m.rest.Set(id, r).Values();
      assert m.Values()[1..] == m.rest.Values();
    }
  }

  /** The message is out of play and every other one is as it was. */
  ghost predicate OnlyCancelled(messages: Messages, after: Messages, id: MessageId) {
    && !Eligible(after, id)
    && (forall x :: x != id ==> after.Get(x) == messages.Get(x))
    && (after == messages
        || (&& messages.Has(id) && messages.Get(id).value.meta.Authored()
            && exists r: MessageRecord :: && after == messages.Set(id, r) && r.meta.Authored()
                                          && r.meta.messageId == messages.Get(id).value.meta.messageId
                                          && r.meta.commandId == messages.Get(id).value.meta.commandId))
  }

  lemma {:induction false} CancelEffect(messages: Messages, e: Committed)
    requires e.event.payload.UserMessageCancelled?
    ensures OnlyCancelled(messages, ApplyMessages(messages, e), e.event.payload.messageId)
  {
    var UserMessageCancelled(canceller, id, reason) := e.event.payload;
    if messages.Has(id) && messages.Get(id).value.meta.Authored() {
      var was := messages.Get(id).value;
      var r := Reaged(was, was.meta.life.(cancelledSeq := Some(e.at), cancelledByCommandId := Some(canceller),
                                          cancellationReason := Some(reason)));
      assert ApplyMessages(messages, e) == messages.Set(id, r);
    }
  }

  lemma {:induction false} CandidatesAfterCancel(
      messages: Messages, after: Messages, commands: Commands, id: MessageId, work: Work)
    requires OnlyCancelled(messages, after, id)
    ensures Candidates(after, commands, work) == Candidates(messages, commands, work)
  {
    if after != messages && work.CommandWork? {
      var r: MessageRecord :| && after == messages.Set(id, r) && r.meta.Authored()
                              && r.meta.messageId == messages.Get(id).value.meta.messageId
                              && r.meta.commandId == messages.Get(id).value.meta.commandId;
      AuthoredByStable(messages, id, r, work.commandId);
    }
  }

  /** Cancelling a message takes it out of the inputs of any work and leaves the others in order. */
  lemma {:induction false} CancelRemovesOnlyItself(
      messages: Messages, after: Messages, commands: Commands, id: MessageId, work: Work)
    requires OnlyCancelled(messages, after, id)
    ensures RunSchedulingInputMessageIds(after, commands, work)
            == Filter(RunSchedulingInputMessageIds(messages, commands, work), OtherThan(id))
  {
    CandidatesAfterCancel(messages, after, commands, id, work);
    var candidates := Candidates(messages, commands, work);
    forall x | x in candidates ensures EligibleIn(after)(x) == (EligibleIn(messages)(x) && OtherThan(id)(x)) {
      assert x != id ==> after.Get(x) == messages.Get(x);
    }
    FilterTwice(candidates, EligibleIn(messages), OtherThan(id), EligibleIn(after));
  }

  /**
   * A plan exists exactly when the message is an input of the open request, and once the message
   * is cancelled the replacement reserves every other input; without a replacement a recovery
   * reservation had no other input.
   */
  lemma {:induction false} CancellationKeepsOtherInputs(r: Replay, e: Committed)
    requires e.event.payload.UserMessageCancelled?
    ensures var id := e.event.payload.messageId;
            var plan := PlanRunSchedulingCancellation(r, id);
            && (plan.Some? <==>
              r.request.Some?
              && id in RunSchedulingInputMessageIds(r.messages, r.commands, r.request.value.work))
            && (plan.Some? ==>
                  var others := Filter(RunSchedulingInputMessageIds(r.messages, r.commands, r.request.value.work),
                    OtherThan(id));
                  && plan.value.requestId == r.request.value.requestId
                  && (plan.value.replacementWork.Some? <==> r.request.value.work.RecoveryWork? && others != [])
                  && (plan.value.cancelCommandId.Some? <==> r.request.value.work.RecoveryWork? && others == [])
                  && (plan.value.replacementWork.Some? ==>
                        RunSchedulingInputMessageIds(ApplyMessages(r.messages, e), r.commands,
                          plan.value.replacementWork.value) == others))
  {
    var id := e.event.payload.messageId;
    var plan := PlanRunSchedulingCancellation(r, id);
    if plan.Some? && plan.value.replacementWork.Some? {
      var inputs := RunSchedulingInputMessageIds(r.messages, r.commands, r.request.value.work);
      var replacement := plan.value.replacementWork.value;
      var others := Filter(inputs, OtherThan(id));
      CancelEffect(r.messages, e);
      CancelRemovesOnlyItself(r.messages, ApplyMessages(r.messages, e), r.commands, id, replacement);
      FilterAll(others, EligibleIn(r.messages));
      FilterAll(others, OtherThan(id));
    }
  }

  /** The messages a stop or interrupt of a waiting run pauses. */
  function PlanWaitingRunInterruption(s: State, control: CommandId): seq<MessageId> {
    MapSeq(Filter(s.queues.pendingQueue + s.queues.pendingSteers, NotFrom(control)), IdOf)
  }

  lemma {:induction false} PauseEffect(m: Messages, ids: seq<MessageId>, at: Seq, pauser: CommandId, id: MessageId)
    ensures var n := PauseMessages(m, ids, at, pauser);
            && (id !in ids ==> n.Get(id) == m.Get(id))
            && (n.Has(id) <==> m.Has(id))
            && (m.Has(id) && m.Get(id).value.meta.Waiting() ==>
                  n.Get(id).value.meta.Waiting() && n.Get(id).value.meta.commandId == m.Get(id).value.meta.commandId)
            && (m.Has(id) && !m.Get(id).value.meta.Waiting() ==> n.Get(id) == m.Get(id))
            && (id in ids && m.Has(id) && m.Get(id).value.meta.Waiting() ==>
              n.Get(id).value.meta.life.pausedByCommandId == Some(pauser))
  {
    if ids != [] {
      PauseEffect(m, ids[..|ids| - 1], at, pauser, id);
      assert ids == ids[..|ids| - 1] + [ids[|ids| - 1]];
    }
  }

  lemma {:induction false} AfterPause(s: State, e: Committed)
    requires e.event.payload.MessagesPaused?
    ensures var after := ApplyMessages(s.replay.messages, e);
            && after == PauseMessages(s.replay.messages, e.event.payload.messageIds, e.at,
              e.event.payload.pausedByCommandId)
            && Fold(s, [e]).queues.pendingQueue == Filter(PendingUserMessages(after.Values()), IsPendingQueue)
            && Fold(s, [e]).queues.pendingSteers == Filter(PendingUserMessages(after.Values()), IsPendingSteer)
  {
    FoldSnoc(s.replay, [], e);
    assert [] + [e] == [e];
  }

  /** After the pause every message still queued or steering belongs to the interrupting command itself. */
  lemma {:induction false} InterruptionPausesTheRest(s: State, e: Committed, control: CommandId)
    requires MessagesKeyed(s.replay.messages) && s == WithQueues(s.replay)
    requires e.event.payload == MessagesPaused(PlanWaitingRunInterruption(s, control), control)
    ensures var q := Fold(s, [e]).queues;
            forall m :: m in q.pendingQueue + q.pendingSteers ==> m.commandId == control
  {
    AfterPause(s, e);
    ApplyKeepsMessageKeys(s.replay.messages, e);
    QueuedAreThoseOfControl(s, ApplyMessages(s.replay.messages, e), e.at, control);
  }

  lemma {:induction false} QueuedAreThoseOfControl(s: State, after: Messages, at: Seq, control: CommandId)
    requires MessagesKeyed(s.replay.messages) && MessagesKeyed(after) && s == WithQueues(s.replay)
    requires after == PauseMessages(s.replay.messages, PlanWaitingRunInterruption(s, control), at, control)
    ensures forall m :: m in Filter(PendingUserMessages(after.Values()), IsPendingQueue) ==> m.commandId == control
    ensures forall m :: m in Filter(PendingUserMessages(after.Values()), IsPendingSteer) ==> m.commandId == control
  {
    forall m | m in PendingUserMessages(after.Values()) && (IsPendingQueue(m) || IsPendingSteer(m))
      ensures m.commandId == control
    {
      WaitingMembership(after, m);
      PausesTheRest(s, after, at, control, m);
    }
  }

  function NotFrom(control: CommandId): PendingUserMessage -> bool {
    (m: PendingUserMessage) => m.commandId != control
  }

  lemma {:induction false} NamedForPause(s: State, control: CommandId, m: PendingUserMessage)
    requires m in s.queues.pendingQueue || m in s.queues.pendingSteers
    requires m.commandId != control
    ensures m.messageId in PlanWaitingRunInterruption(s, control)
  {
    var all := s.queues.pendingQueue + s.queues.pendingSteers;
    var others := Filter(all, NotFrom(control));
    assert m in others;
    var i :| 0 <= i < |others| && others[i] == m;
    assert PlanWaitingRunInterruption(s, control)[i] == IdOf(m);
  }

  lemma {:induction false} PausesTheRest(s: State, after: Messages, at: Seq, control: CommandId, m: PendingUserMessage)
    requires MessagesKeyed(s.replay.messages) && MessagesKeyed(after) && s == WithQueues(s.replay)
    requires after == PauseMessages(s.replay.messages, PlanWaitingRunInterruption(s, control), at, control)
    requires m in PendingUserMessages(after.Values()) && m.pausedByCommandId.None?
    ensures m.commandId == control
  {
    var before, ids := s.replay.messages, PlanWaitingRunInterruption(s, control);
    WaitingMembership(after, m);
    PauseEffect(before, ids, at, control, m.messageId);
    var was := ToPendingUserMessage(before.Get(m.messageId).value).value;
    WaitingMembership(before, was);
    if m.messageId !in ids && m.commandId != control {
      assert was == m;
      assert IsPendingQueue(was) || IsPendingSteer(was);
      NamedForPause(s, control, m);
    }
  }
}
