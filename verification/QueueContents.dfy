/** What each queue holds, read off the records, and what dispatch then does. */
module QueueContents {
  import opened Collections
  import opened Events
  import opened Records
  import opened CommandQueues
  import opened ReducedState
  import opened ReplayInvariants
  import opened QueueProperties
  import opened Dispatch
  import opened DispatchOrder

  // ---------------------------------------------------------------------------
  // Waiting messages
  // ---------------------------------------------------------------------------

  /** Written by a user and neither consumed nor cancelled. */
  predicate Waits(m: MessageRecord) {
    match m.meta
    case User(_, _, _, _, _, _, life) => life.consumedSeq.None? && life.cancelledSeq.None?
    case Steering(_, _, _, _, _, life) => life.consumedSeq.None? && life.cancelledSeq.None?
    case _ => false
  }

  /** A promoted message counts from its promotion. */
  function EffectAt(m: MessageRecord): Seq {
    match m.meta
    case User(_, _, _, at, _, _, life) => if life.promotedSeq.Some? then life.promotedSeq.value else at
    case Steering(_, _, _, _, at, life) => if life.promotedSeq.Some? then life.promotedSeq.value else at
    case _ => m.meta.at
  }

  predicate EffectBefore(a: MessageRecord, b: MessageRecord) {
    EffectAt(a) <= EffectAt(b)
  }

  /** What is not held by a pause: a steering message, or a user message that steers. */
  predicate Steers(m: MessageRecord) {
    match m.meta
    case User(_, _, _, _, _, disposition, life) => life.pausedByCommandId.None? && disposition == Some(Steer)
    case Steering(_, _, _, _, _, life) => life.pausedByCommandId.None?
    case _ => false
  }

  predicate IsHeld(m: MessageRecord) {
    m.meta.Authored() && m.meta.life.pausedByCommandId.Some?
  }

  function WaitsAs(kind: MessageRecord -> bool): MessageRecord -> bool {
    (m: MessageRecord) => Waits(m) && kind(m)
  }

  /** The waiting messages of a kind in the order they take effect. */
  function WaitingOfKind(messages: Messages, kind: MessageRecord -> bool): seq<MessageRecord> {
    StableSort(Filter(messages.Values(), WaitsAs(kind)), EffectBefore)
  }

  /** The entry shows the message. */
  predicate Shows(p: PendingUserMessage, m: MessageRecord) {
    && m.meta.Authored()
    && p.messageId == m.meta.messageId && p.commandId == m.meta.commandId && p.body == m.body
    && p.submittedSeq == m.meta.at && p.effectiveSeq == EffectAt(m)
    && p.disposition == (if Steers(m) then Steer else Queue)
    && p.targetRunId == (if m.meta.Steering? then Some(m.meta.runId) else None)
    && p.pausedByCommandId == m.meta.life.pausedByCommandId
  }

  ghost predicate ShowsEach(ps: seq<PendingUserMessage>, ms: seq<MessageRecord>) {
    |ps| == |ms| && forall i :: 0 <= i < |ps| ==> Shows(ps[i], ms[i])
  }

  function Entry(m: MessageRecord): PendingUserMessage {
    if ToPendingUserMessage(m).Some? then ToPendingUserMessage(m).value
    else PendingUserMessage("", "", m.body, 0, 0, Queue, None, None)
  }

  lemma {:induction false} EntryShows(m: MessageRecord)
    ensures ToPendingUserMessage(m) == if Waits(m) then Some(Entry(m)) else None
    ensures Waits(m) ==> Shows(Entry(m), m)
  {
  }

  function AnyKind(m: MessageRecord): bool {
    true
  }

  lemma {:induction false} KindWaits(messages: Messages, kind: MessageRecord -> bool, m: MessageRecord)
    requires m in WaitingOfKind(messages, kind)
    ensures m in messages.Values() && Waits(m) && kind(m)
  {
    var own := Filter(messages.Values(), WaitsAs(kind));
    SortIsPermutation(own, EffectBefore);
    SameElements(WaitingOfKind(messages, kind), own);
  }

  lemma {:induction false} EntriesInOrder(ms: seq<MessageRecord>)
    requires forall m :: m in ms ==> Waits(m)
    ensures StableSort(MapSeq(ms, Entry), EarlierEffect) == MapSeq(StableSort(ms, EffectBefore), Entry)
  {
    forall a, b | a in ms && b in ms ensures EarlierEffect(Entry(a), Entry(b)) == EffectBefore(a, b) {
      EntryShows(a);
      EntryShows(b);
    }
    SortMapped(ms, Entry, EffectBefore, EarlierEffect);
  }

  lemma {:induction false} WaitingInOrder(messages: Messages)
    ensures PendingUserMessages(messages.Values()) == MapSeq(WaitingOfKind(messages, AnyKind), Entry)
  {
    var vs := messages.Values();
    forall m ensures ToPendingUserMessage(m) == if WaitsAs(AnyKind)(m) then Some(Entry(m)) else None {
      assert AnyKind(m);
      EntryShows(m);
    }
    FilterMapped(vs, ToPendingUserMessage, WaitsAs(AnyKind), Entry);
    EntriesInOrder(Filter(vs, WaitsAs(AnyKind)));
  }

  lemma {:induction false} EffectOrderIsTotal()
    ensures TotalOrder(EffectBefore)
  {
  }

  lemma {:induction false} KindOfWaiting(messages: Messages, kind: MessageRecord -> bool)
    ensures Filter(WaitingOfKind(messages, AnyKind), kind) == WaitingOfKind(messages, kind)
  {
    var vs := messages.Values();
    EffectOrderIsTotal();
    FilterOfSort(Filter(vs, WaitsAs(AnyKind)), kind, EffectBefore);
    FilterTwice(vs, WaitsAs(AnyKind), kind, WaitsAs(kind));
  }

  /** Selecting entries selects messages. */
  lemma {:induction false} SelectedWaiting(
      messages: Messages, select: PendingUserMessage -> bool, kind: MessageRecord -> bool)
    requires forall m :: Waits(m) ==> select(Entry(m)) == kind(m)
    ensures ShowsEach(Filter(PendingUserMessages(messages.Values()), select), WaitingOfKind(messages, kind))
  {
    var all, own := WaitingOfKind(messages, AnyKind), WaitingOfKind(messages, kind);
    WaitingInOrder(messages);
    forall m | m in all ensures select(Entry(m)) == kind(m) {
      KindWaits(messages, AnyKind, m);
    }
    FilterOfMap(all, Entry, select, kind);
    KindOfWaiting(messages, kind);
    forall i | 0 <= i < |own| ensures Shows(MapSeq(own, Entry)[i], own[i]) {
      KindWaits(messages, kind, own[i]);
      EntryShows(own[i]);
    }
  }

  function QueuesFreely(m: MessageRecord): bool {
    !Steers(m) && !IsHeld(m)
  }

  /** The three message queues: what steers, what queues, and what a pause holds, each in order of effect. */
  lemma {:induction false} MessageQueuesExactly(commands: Commands, runs: Runs, messages: Messages)
    ensures var q := DeriveCommandQueues(commands, runs, messages);
            && ShowsEach(q.pendingSteers, WaitingOfKind(messages, Steers))
            && ShowsEach(q.pendingQueue, WaitingOfKind(messages, QueuesFreely))
            && ShowsEach(q.pausedQueue, WaitingOfKind(messages, IsHeld))
  {
    forall m | Waits(m)
      ensures IsPendingSteer(Entry(m)) == Steers(m) && IsPendingQueue(Entry(m)) == QueuesFreely(m)
      ensures IsPausedQueue(Entry(m)) == IsHeld(m)
    {
      EntryShows(m);
    }
    SelectedWaiting(messages, IsPendingSteer, Steers);
    SelectedWaiting(messages, IsPendingQueue, QueuesFreely);
    SelectedWaiting(messages, IsPausedQueue, IsHeld);
  }

  // ---------------------------------------------------------------------------
  // Steering for a run
  // ---------------------------------------------------------------------------

  function SteersRun(id: RunId): MessageRecord -> bool {
    (m: MessageRecord) => Waits(m) && m.meta.Steering? && m.meta.runId == id
  }

  predicate WrittenBefore(a: MessageRecord, b: MessageRecord) {
    a.meta.at <= b.meta.at
  }

  /** The entry of a steering message. */
  predicate Lists(p: PendingSteering, m: MessageRecord) {
    && m.meta.Steering?
    && p.messageId == m.meta.messageId && p.commandId == m.meta.commandId && p.runId == m.meta.runId
    && p.body == m.body && p.queuedSeq == m.meta.at
  }

  ghost predicate ListsEach(ps: seq<PendingSteering>, ms: seq<MessageRecord>) {
    |ps| == |ms| && forall i :: 0 <= i < |ps| ==> Lists(ps[i], ms[i])
  }

  function SteeringEntry(m: MessageRecord): PendingSteering {
    if m.meta.Steering? then ToPendingSteering(m) else PendingSteering("", "", "", m.body, 0)
  }

  /** The group of a run's messages; there is none when there are no messages. */
  function GroupOf(own: seq<MessageRecord>): Option<seq<PendingSteering>> {
    if own == [] then None else Some(MapSeq(own, SteeringEntry))
  }

  lemma {:induction false} GroupGrows(own: seq<MessageRecord>, m: MessageRecord)
    requires m.meta.Steering?
    ensures GroupOf(own + [m]) ==
            Some((if GroupOf(own).Some? then GroupOf(own).value else []) + [ToPendingSteering(m)])
  {
    MapOfAppend(own, [m], SteeringEntry);
    assert MapSeq([m], SteeringEntry) == [ToPendingSteering(m)];
    if own == [] {
      assert MapSeq(own, SteeringEntry) == [];
    }
  }

  lemma {:induction false} GroupedByRun(ms: seq<MessageRecord>, id: RunId)
    ensures GroupSteering(ms).Get(id) == GroupOf(Filter(ms, SteersRun(id)))
  {
    if ms != [] {
      var front, m := ms[..|ms| - 1], ms[|ms| - 1];
      var before := Filter(front, SteersRun(id));
      GroupedByRun(front, id);
      assert ms == front + [m];
      FilterOfAppend(front, [m], SteersRun(id));
      if SteersRun(id)(m) {
        assert Filter([m], SteersRun(id)) == [m];
        GroupGrows(before, m);
      } else {
        assert Filter([m], SteersRun(id)) == [] && before + [] == before;
      }
    }
  }

  /** A run's group: exactly the messages waiting to steer it, in the order they were written. */
  lemma {:induction false} SteeringGroupExactly(ms: seq<MessageRecord>, id: RunId)
    ensures var own := StableSort(Filter(ms, SteersRun(id)), WrittenBefore);
            var group := SteeringByRun(ms).Get(id);
            && (group.None? <==> own == [])
            && (group.Some? ==> ListsEach(group.value, own))
  {
    var own := Filter(ms, SteersRun(id));
    GroupedByRun(ms, id);
    SortIsPermutation(own, WrittenBefore);
    SameElements(StableSort(own, WrittenBefore), own);
    forall a, b | a in own && b in own
      ensures QueuedEarlier(SteeringEntry(a), SteeringEntry(b)) == WrittenBefore(a, b)
    {
    }
    SortMapped(own, SteeringEntry, WrittenBefore, QueuedEarlier);
    var sorted := StableSort(own, WrittenBefore);
    forall i | 0 <= i < |sorted| ensures Lists(MapSeq(sorted, SteeringEntry)[i], sorted[i]) {
      assert sorted[i] in sorted;
    }
  }

  // ---------------------------------------------------------------------------
  // Commands
  // ---------------------------------------------------------------------------

  /** Admitted with its body, neither started nor closed. */
  predicate Awaits(r: CommandRecord, c: PendingCommand) {
    && r.startedSeq.None? && r.terminal.None?
    && r.command == Some(c.command) && r.admittedSeq == Some(c.admittedSeq)
    && c.admissionTrace == r.admissionTrace && c.commandId == r.commandId
  }

  predicate IsWaiting(commands: Commands, c: PendingCommand) {
    commands.Has(c.commandId) && Awaits(commands.Get(c.commandId).value, c)
  }

  lemma {:induction false} PendingExactly(commands: Commands, c: PendingCommand)
    requires CommandsKeyed(commands)
    ensures c in PendingCommands(commands.Values()) <==> IsWaiting(commands, c)
  {
    PendingCommandMembership(commands, c);
  }

  function WrittenBy(id: CommandId): MessageRecord -> bool {
    (m: MessageRecord) => m.meta.Authored() && m.meta.commandId == id
  }

  /** The last of a command's waiting messages to take effect. */
  function LastMessage(messages: Messages, id: CommandId): Option<MessageRecord> {
    LastOf(WaitingOfKind(messages, WrittenBy(id)))
  }

  function EntryOf(id: CommandId): PendingUserMessage -> bool {
    (p: PendingUserMessage) => p.commandId == id
  }

  lemma {:induction false} WaitingOfIsLast(waiting: seq<PendingUserMessage>, id: CommandId)
    ensures WaitingOf(id, waiting) == LastOf(Filter(waiting, EntryOf(id)))
  {
    if waiting != [] {
      var front, last := waiting[..|waiting| - 1], waiting[|waiting| - 1];
      WaitingOfIsLast(front, id);
      assert waiting == front + [last];
      FilterOfAppend(front, [last], EntryOf(id));
    }
  }

  lemma {:induction false} LastMessageIsShown(messages: Messages, id: CommandId)
    ensures var entry := WaitingOf(id, PendingUserMessages(messages.Values()));
            && (entry.None? <==> LastMessage(messages, id).None?)
            && (entry.Some? ==> Shows(entry.value, LastMessage(messages, id).value))
  {
    forall m | Waits(m) ensures EntryOf(id)(Entry(m)) == WrittenBy(id)(m) {
      EntryShows(m);
    }
    WaitingOfIsLast(PendingUserMessages(messages.Values()), id);
    SelectedWaiting(messages, EntryOf(id), WrittenBy(id));
  }

  /** A submission interrupts, or steers by its last waiting message, its own disposition when it has none. */
  predicate SubmissionControls(messages: Messages, c: PendingCommand)
    requires c.command.SubmitMessage?
  {
    var last := LastMessage(messages, c.commandId);
    || c.command.disposition == Interrupt
    || (if last.Some? then Steers(last.value) else c.command.disposition == Steer)
  }

  /** How urgent a control is, none for a command that does not control a running one. */
  function Urgency(messages: Messages, c: PendingCommand): Option<nat> {
    match c.command
    case StopTurn(_, _) => Some(0)
    case CancelPendingMessage(_, _, _) => Some(1)
    case PromotePendingMessage(_, _, _) => Some(2)
    case SubmitMessage(_, _, _, _) => if SubmissionControls(messages, c) then Some(3) else None
    case ResumePendingMessages(_, _, _) => None
  }

  /** The control queue: the waiting stops, cancellations, promotions, and submissions that interrupt or steer. */
  lemma {:induction false} ControlsExactly(s: State, c: PendingCommand)
    requires s == WithQueues(s.replay) && CommandsKeyed(s.replay.commands)
    ensures c in s.queues.activeControlCommands
            <==> IsWaiting(s.replay.commands, c) && Urgency(s.replay.messages, c).Some?
  {
    PendingExactly(s.replay.commands, c);
    LastMessageIsShown(s.replay.messages, c.commandId);
  }

  /** The queued commands: the waiting submissions whose last waiting message queues, or that would queue themselves. */
  lemma {:induction false} QueuedExactly(s: State, c: PendingCommand)
    requires s == WithQueues(s.replay) && CommandsKeyed(s.replay.commands)
    ensures c in s.queues.queuedCommands <==>
              && IsWaiting(s.replay.commands, c) && c.command.SubmitMessage?
              && var last := LastMessage(s.replay.messages, c.commandId);
                 if last.Some? then !Steers(last.value) else c.command.disposition == Queue
  {
    PendingExactly(s.replay.commands, c);
    LastMessageIsShown(s.replay.messages, c.commandId);
  }

  /** The active command: one started and not closed, with an open run that lists it when there is one. */
  lemma {:induction false} ActiveExactly(s: State)
    requires s == WithQueues(s.replay) && Keyed(s.replay)
    ensures var active, commands, runs := s.queues.active, s.replay.commands.Values(), s.replay.runs.Values();
            && (active.None? <==> forall c :: c in commands ==> c.startedSeq.None? || c.terminal.Some?)
            && (active.Some? ==>
                  && (exists c :: c in commands && c.commandId == active.value.commandId && c.startedSeq.Some?
                                  && c.terminal.None?)
                  && match active.value.runId {
                       case None => forall r :: r in runs && active.value.commandId in r.commandIds ==> r.terminal.Some?
                       case Some(id) =>
                         exists r :: r in runs && r.runId == id && active.value.commandId in r.commandIds
                           && r.terminal.None?
                     })
  {
  }

  // ---------------------------------------------------------------------------
  // Dispatch over the records
  // ---------------------------------------------------------------------------

  ghost predicate Controls(s: State, c: PendingCommand) {
    IsWaiting(s.replay.commands, c) && Urgency(s.replay.messages, c).Some?
  }

  /** More urgent, or as urgent and admitted no later. */
  predicate NoLater(messages: Messages, c: PendingCommand, d: PendingCommand) {
    var p, q := Urgency(messages, c), Urgency(messages, d);
    p.Some? && q.Some? && (p.value < q.value || (p == q && c.admittedSeq <= d.admittedSeq))
  }

  /** The most urgent control, and of those the one admitted first. */
  ghost predicate Foremost(s: State, c: PendingCommand) {
    && Controls(s, c)
    && forall d :: Controls(s, d) ==> NoLater(s.replay.messages, c, d)
  }

  lemma {:induction false} UrgencyIsPriority(messages: Messages, c: PendingCommand, d: PendingCommand)
    requires Urgency(messages, c).Some? && Urgency(messages, d).Some?
    ensures ControlsBefore(c, d) <==> NoLater(messages, c, d)
  {
  }

  lemma {:induction false} ForemostIsFirst(s: State, c: PendingCommand)
    requires s == WithQueues(s.replay) && CommandsKeyed(s.replay.commands)
    ensures FirstControl(s.queues, c) <==> Foremost(s, c)
  {
    ControlsExactly(s, c);
    if Controls(s, c) {
      forall d
        ensures d in s.queues.activeControlCommands <==> Controls(s, d)
        ensures Controls(s, d) ==>
                  (ControlsBefore(c, d) <==> NoLater(s.replay.messages, c, d))
      {
        ControlsExactly(s, d);
        if Controls(s, d) {
          UrgencyIsPriority(s.replay.messages, c, d);
        }
      }
    }
  }

  /** Over the records: with an active command the foremost control decides, and nothing else. */
  lemma {:induction false} ActiveDispatchExactly(s: State)
    requires s == WithQueues(s.replay) && CommandsKeyed(s.replay.commands) && s.queues.active.Some?
    ensures var active, decision := s.queues.active.value, DecideDispatch(s.queues);
            if forall c :: !Controls(s, c) then decision == BlockedByActiveCommand(active)
            else
              exists c :: Foremost(s, c) &&
                decision == match c.command {
                  case StopTurn(_, _) => DispatchStop(c, active)
                  case CancelPendingMessage(_, _, _) => DispatchCancelPendingMessage(c, Some(active))
                  case PromotePendingMessage(_, _, _) => DispatchPromotePendingMessage(c, Some(active))
                  case ResumePendingMessages(_, _, _) => BlockedByActiveCommand(active)
                  case SubmitMessage(_, _, disposition, _) =>
                    if disposition == Interrupt then DispatchInterrupt(c, active)
                    else if active.runId.Some? then DispatchSteer(c, active)
                    else BlockedByActiveCommand(active)
                }
  {
    ControlTakenFirst(s.queues);
    var control := PendingActiveControlCommand(s.queues);
    if control.Some? {
      ForemostIsFirst(s, control.value);
      assert Foremost(s, control.value) && Controls(s, control.value);
    } else {
      forall c ensures !Controls(s, c) {
        ControlsExactly(s, c);
      }
    }
  }

  predicate Urgent(c: PendingCommand) {
    c.command.StopTurn? || c.command.CancelPendingMessage? || c.command.PromotePendingMessage?
  }

  function IdleSearch(q: Queues): Decision {
    match NextIdleCommand(q)
    case OrphanPendingMessages => InvariantViolation(MapSeq(q.pendingSteers, IdOf))
    case Nothing => NoPendingCommand
    case Next(c) => StartCommand(c)
  }

  function UrgentDecision(c: PendingCommand): Decision
    requires Urgent(c)
  {
    match c.command
    case StopTurn(_, _) => StartCommand(c)
    case CancelPendingMessage(_, _, _) => DispatchCancelPendingMessage(c, None)
    case PromotePendingMessage(_, _, _) => DispatchPromotePendingMessage(c, None)
  }

  lemma {:induction false} IdleDecision(q: Queues)
    requires q.active.None?
    ensures var control := PendingActiveControlCommand(q);
            DecideDispatch(q) ==
            if control.Some? && Urgent(control.value) then UrgentDecision(control.value) else IdleSearch(q)
  {
  }

  ghost predicate UrgentWaits(commands: Commands) {
    exists c :: IsWaiting(commands, c) && Urgent(c)
  }

  lemma {:induction false} UrgentControl(s: State)
    requires s == WithQueues(s.replay) && CommandsKeyed(s.replay.commands)
    ensures var control := PendingActiveControlCommand(s.queues);
            && (UrgentWaits(s.replay.commands) <==> control.Some? && Urgent(control.value))
            && (control.Some? ==> Foremost(s, control.value))
  {
    ControlTakenFirst(s.queues);
    var control := PendingActiveControlCommand(s.queues);
    if control.Some? {
      ForemostIsFirst(s, control.value);
    }
    if c :| IsWaiting(s.replay.commands, c) && Urgent(c) {
      ControlsExactly(s, c);
      assert Controls(s, c);
    }
  }

  /** Without an active command a stop is started, a cancellation or promotion handled; else the idle search decides. */
  lemma {:induction false} IdleDispatchExactly(s: State)
    requires s == WithQueues(s.replay) && CommandsKeyed(s.replay.commands) && s.queues.active.None?
    ensures if UrgentWaits(s.replay.commands) then
              exists c :: Foremost(s, c) && Urgent(c) && DecideDispatch(s.queues) == UrgentDecision(c)
            else DecideDispatch(s.queues) == IdleSearch(s.queues)
  {
    IdleDecision(s.queues);
    UrgentControl(s);
  }

  predicate WaitingStop(commands: Commands, c: PendingCommand) {
    IsWaiting(commands, c) && c.command.StopTurn?
  }

  lemma {:induction false} ForemostStop(s: State, c: PendingCommand, stop: PendingCommand)
    requires Foremost(s, c) && WaitingStop(s.replay.commands, stop)
    ensures WaitingStop(s.replay.commands, c) && c.admittedSeq <= stop.admittedSeq
  {
    assert Controls(s, stop);
  }

  /** A waiting stop is always taken next: the one admitted first stops the active command, or is started. */
  lemma {:induction false} StopGoesFirst(s: State, stop: PendingCommand) returns (c: PendingCommand)
    requires s == WithQueues(s.replay) && CommandsKeyed(s.replay.commands)
    requires WaitingStop(s.replay.commands, stop)
    ensures WaitingStop(s.replay.commands, c)
    ensures forall d :: WaitingStop(s.replay.commands, d) ==> c.admittedSeq <= d.admittedSeq
    ensures DecideDispatch(s.queues) ==
            if s.queues.active.Some? then DispatchStop(c, s.queues.active.value) else StartCommand(c)
  {
    UrgentControl(s);
    c := PendingActiveControlCommand(s.queues).value;
    forall d | WaitingStop(s.replay.commands, d)
      ensures WaitingStop(s.replay.commands, c) && c.admittedSeq <= d.admittedSeq
    {
      ForemostStop(s, c, d);
    }
    if s.queues.active.None? {
      IdleDecision(s.queues);
    }
  }
}
