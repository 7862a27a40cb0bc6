/** Scheduler queues derived from the folded command, run and message records. */
module CommandQueues {
  import opened Collections
  import opened Events
  import opened Records

  datatype PendingCommand = PendingCommand(commandId: CommandId, command: Command, admittedSeq: Seq,
    admissionTrace: Option<Json>)

  datatype PendingUserMessage = PendingUserMessage(
    messageId: MessageId,
    commandId: CommandId,
    body: MessageBody,
    submittedSeq: Seq,
    effectiveSeq: Seq,
    disposition: MessageDisposition,
    targetRunId: Option<RunId>,
    pausedByCommandId: Option<CommandId>)

  datatype PendingSteering = PendingSteering(messageId: MessageId, commandId: CommandId, runId: RunId,
    body: MessageBody, queuedSeq: Seq)

  datatype ActiveCommand = ActiveCommand(commandId: CommandId, runId: Option<RunId>)

  datatype Queues = Queues(
    active: Option<ActiveCommand>,
    pendingCommands: seq<PendingCommand>,
    queuedCommands: seq<PendingCommand>,
    activeControlCommands: seq<PendingCommand>,
    steeringByRun: OrderedMap<RunId, seq<PendingSteering>>,
    pendingQueue: seq<PendingUserMessage>,
    pendingSteers: seq<PendingUserMessage>,
    pausedQueue: seq<PendingUserMessage>)

  type Commands = OrderedMap<CommandId, CommandRecord>
  type Runs = OrderedMap<RunId, RunRecord>
  type Messages = OrderedMap<MessageId, MessageRecord>

  function DeriveCommandQueues(commands: Commands, runs: Runs, messages: Messages): Queues {
    var pending := PendingCommands(commands.Values());
    var waiting := PendingUserMessages(messages.Values());
    Queues(
      DeriveActiveCommand(commands.Values(), runs.Values()),
      pending,
      Filter(pending, c => IsQueuedCommand(c, waiting)),
      Filter(pending, c => IsActiveControlCommand(c, waiting)),
      SteeringByRun(messages.Values()),
      Filter(waiting, IsPendingQueue),
      Filter(waiting, IsPendingSteer),
      Filter(waiting, IsPausedQueue))
  }

  // ---------------------------------------------------------------------------
  // Commands
  // ---------------------------------------------------------------------------

  predicate IsPendingCommand(r: CommandRecord) {
    r.command.Some? && r.admittedSeq.Some? && r.startedSeq.None? && r.terminal.None?
  }

  function ToPendingCommand(r: CommandRecord): Option<PendingCommand> {
    if IsPendingCommand(r) then
      Some(PendingCommand(r.commandId, r.command.value, r.admittedSeq.value, r.admissionTrace))
    else None
  }

  predicate AdmittedEarlier(a: PendingCommand, b: PendingCommand) {
    a.admittedSeq <= b.admittedSeq
  }

  function PendingCommands(records: seq<CommandRecord>): seq<PendingCommand> {
    StableSort(FilterMap(records, ToPendingCommand), AdmittedEarlier)
  }

  /** The waiting message last in effective order for a command, as a map keyed by command keeps it. */
  function WaitingOf(commandId: CommandId, waiting: seq<PendingUserMessage>): Option<PendingUserMessage> {
    if waiting == [] then None
    else if waiting[|waiting| - 1].commandId == commandId then Some(waiting[|waiting| - 1])
    else WaitingOf(commandId, waiting[..|waiting| - 1])
  }

  predicate IsQueuedCommand(c: PendingCommand, waiting: seq<PendingUserMessage>) {
    && c.command.SubmitMessage?
    && var m := WaitingOf(c.commandId, waiting);
       if m.Some? then m.value.disposition == Queue else c.command.disposition == Queue
  }

  predicate IsActiveControlCommand(c: PendingCommand, waiting: seq<PendingUserMessage>) {
    match c.command
    case StopTurn(_, _) => true
    case CancelPendingMessage(_, _, _) => true
    case PromotePendingMessage(_, _, _) => true
    case ResumePendingMessages(_, _, _) => false
    case SubmitMessage(_, _, disposition, _) =>
      || disposition == Interrupt
      || var m := WaitingOf(c.commandId, waiting);
         if m.Some? then m.value.disposition == Steer else disposition == Steer
  }

  predicate IsActive(c: CommandRecord) {
    c.startedSeq.Some? && c.terminal.None?
  }

  function OpenRunOf(commandId: CommandId): RunRecord -> bool {
    (run: RunRecord) => commandId in run.commandIds && run.terminal.None?
  }

  function DeriveActiveCommand(commands: seq<CommandRecord>, runs: seq<RunRecord>): Option<ActiveCommand> {
    match Find(commands, IsActive)
    case None => None
    case Some(c) =>
      match Find(runs, OpenRunOf(c.commandId))
      case None => Some(ActiveCommand(c.commandId, None))
      case Some(run) => Some(ActiveCommand(c.commandId, Some(run.runId)))
  }

  // ---------------------------------------------------------------------------
  // Messages
  // ---------------------------------------------------------------------------

  /** Paused messages wait in the queue whatever they were; steering stays steering. */
  function EffectiveDisposition(m: MessageMeta): MessageDisposition
    requires m.Authored()
  {
    if m.life.pausedByCommandId.Some? then Queue
    else if m.Steering? then Steer
    else if m.disposition.Some? then m.disposition.value else Queue
  }

  function ToPendingUserMessage(m: MessageRecord): Option<PendingUserMessage> {
    var meta := m.meta;
    if meta.Waiting() then
      Some(PendingUserMessage(
             meta.messageId, meta.commandId, m.body, meta.at,
             if meta.life.promotedSeq.Some? then meta.life.promotedSeq.value else meta.at,
             EffectiveDisposition(meta),
             if meta.Steering? then Some(meta.runId) else None,
             meta.life.pausedByCommandId))
    else None
  }

  predicate EarlierEffect(a: PendingUserMessage, b: PendingUserMessage) {
    a.effectiveSeq <= b.effectiveSeq
  }

  function PendingUserMessages(messages: seq<MessageRecord>): seq<PendingUserMessage> {
    StableSort(FilterMap(messages, ToPendingUserMessage), EarlierEffect)
  }

  predicate IsPendingQueue(m: PendingUserMessage) {
    m.disposition == Queue && m.pausedByCommandId.None?
  }

  predicate IsPendingSteer(m: PendingUserMessage) {
    m.disposition == Steer
  }

  predicate IsPausedQueue(m: PendingUserMessage) {
    m.disposition == Queue && m.pausedByCommandId.Some?
  }

  predicate IsWaitingSteering(m: MessageRecord) {
    m.meta.Steering? && m.meta.Waiting()
  }

  function ToPendingSteering(m: MessageRecord): PendingSteering
    requires m.meta.Steering?
  {
    PendingSteering(m.meta.messageId, m.meta.commandId, m.meta.runId, m.body, m.meta.at)
  }

  /** Entries pushed onto their run's group in message order. */
  function GroupSteering(messages: seq<MessageRecord>): OrderedMap<RunId, seq<PendingSteering>> {
    if messages == [] then Empty
    else
      var before, m := GroupSteering(messages[..|messages| - 1]), messages[|messages| - 1];
      if IsWaitingSteering(m) then
        before.Set(m.meta.runId, EntriesOf(before, m.meta.runId) + [ToPendingSteering(m)])
      else before
  }

  function EntriesOf(groups: OrderedMap<RunId, seq<PendingSteering>>, runId: RunId): seq<PendingSteering> {
    if groups.Has(runId) then groups.Get(runId).value else []
  }

  predicate QueuedEarlier(a: PendingSteering, b: PendingSteering) {
    a.queuedSeq <= b.queuedSeq
  }

  /** Every group in queued order. */
  function SortGroups(groups: OMap<RunId, seq<PendingSteering>>): (r: OMap<RunId, seq<PendingSteering>>)
    ensures forall j {:trigger r.Get(j)} ::
              r.Get(j) == if groups.Has(j) then Some(StableSort(groups.Get(j).value, QueuedEarlier)) else None
    ensures groups.Unique() ==> r.Unique()
  {
    match groups
    case Empty => Empty
    case Entry(k, v, rest) => Entry(k, StableSort(v, QueuedEarlier), SortGroups(rest))
  }

  function SteeringByRun(messages: seq<MessageRecord>): OrderedMap<RunId, seq<PendingSteering>> {
    SortGroups(GroupSteering(messages))
  }

  lemma {:induction false} SortGroupsSnoc(a: OMap<RunId, seq<PendingSteering>>, k: RunId, v: seq<PendingSteering>)
    ensures SortGroups(Concat(a, Entry(k, v, Empty)))
            == Concat(SortGroups(a), Entry(k, StableSort(v, QueuedEarlier), Empty))
  {
    if a.Entry? {
      SortGroupsSnoc(a.rest, k, v);
    }
  }

  /** Group the waiting steering messages as they come, then sort each group. */
  method DerivePendingSteeringByRun(
      messages: seq<MessageRecord>) returns (grouped: OrderedMap<RunId, seq<PendingSteering>>)
    ensures grouped == SteeringByRun(messages)
  {
    grouped := Empty;
    for i := 0 to |messages|
      invariant grouped == GroupSteering(messages[..i])
    {
      var m := messages[i];
      assert messages[..i + 1][..|messages[..i + 1]| - 1] == messages[..i];
      if IsWaitingSteering(m) {
        grouped := grouped.Set(m.meta.runId, EntriesOf(grouped, m.meta.runId) + [ToPendingSteering(m)]);
      }
    }
    assert messages[..|messages|] == messages;
    var visiting: OMap<RunId, seq<PendingSteering>> := grouped;
    ghost var visited: OMap<RunId, seq<PendingSteering>> := Empty;
    while visiting.Entry?
      invariant GroupSteering(messages) == Concat(visited, visiting)
      invariant grouped == Concat(SortGroups(visited), visiting)
      decreases visiting
    {
      var entries := StableSort(visiting.value, QueuedEarlier);
      UniqueConcat(visited, visiting);
      SetBetween(SortGroups(visited), visiting, entries);
      ConcatSnoc(visited, visiting);
      SortGroupsSnoc(visited, visiting.key, visiting.value);
      ConcatSnoc(SortGroups(visited), Entry(visiting.key, entries, visiting.rest));
      grouped := grouped.Set(visiting.key, entries);
      visited := Concat(visited, Entry(visiting.key, visiting.value, Empty));
      visiting := visiting.rest;
    }
    ConcatNil(visited);
    ConcatNil(SortGroups(visited));
  }
}
