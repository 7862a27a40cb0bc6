/** What an idle session runs next, read off the records. */
module IdleDispatch {
  import opened Collections
  import opened Events
  import opened Records
  import opened CommandQueues
  import opened ReducedState
  import opened ReplayInvariants
  import opened QueueProperties
  import opened Dispatch
  import opened DispatchOrder
  import opened QueueContents

  // ---------------------------------------------------------------------------
  // Waiting commands
  // ---------------------------------------------------------------------------

  ghost predicate CommandWaits(commands: Commands, id: CommandId) {
    exists c :: IsWaiting(commands, c) && c.commandId == id
  }

  predicate IsResumer(c: PendingCommand, id: MessageId) {
    match c.command
    case ResumePendingMessages(_, _, ids) => id in ids
    case _ => false
  }

  function ResumerFor(id: MessageId): PendingCommand -> bool {
    (c: PendingCommand) => IsResumer(c, id)
  }

  predicate Interrupts(c: PendingCommand) {
    match c.command
    case SubmitMessage(_, _, Interrupt, _) => true
    case _ => false
  }

  /** A resume command, or a submission none of whose messages a pause holds. */
  ghost predicate Startable(messages: Messages, c: PendingCommand) {
    match c.command
    case ResumePendingMessages(_, _, _) => true
    case SubmitMessage(_, _, _, _) =>
      forall m :: m in messages.Values() && Waits(m) && IsHeld(m) ==> m.meta.commandId != c.commandId
    case _ => false
  }

  ghost function StartableFor(messages: Messages): PendingCommand -> bool {
    (c: PendingCommand) => Startable(messages, c)
  }

  /** Of the waiting commands with the property, one admitted first. */
  ghost predicate FirstWaiting(commands: Commands, p: PendingCommand -> bool, c: PendingCommand) {
    && IsWaiting(commands, c) && p(c)
    && forall d :: IsWaiting(commands, d) && p(d) ==> c.admittedSeq <= d.admittedSeq
  }

  ghost predicate NoneWaiting(commands: Commands, p: PendingCommand -> bool) {
    forall c :: IsWaiting(commands, c) ==> !p(c)
  }

  lemma {:induction false} EarliestFound(pending: seq<PendingCommand>, p: PendingCommand -> bool)
    requires SortedBy(pending, AdmittedEarlier)
    ensures var found := Find(pending, p);
            found.Some? ==> forall d :: d in pending && p(d) ==> found.value.admittedSeq <= d.admittedSeq
  {
    if pending != [] {
      EarliestFound(pending[1..], p);
      forall d | d in pending && p(pending[0]) ensures pending[0].admittedSeq <= d.admittedSeq {
        var j :| 0 <= j < |pending| && pending[j] == d;
        assert j > 0 ==> AdmittedEarlier(pending[0], pending[j]);
      }
    }
  }

  lemma {:induction false} PendingIsSorted(s: State)
    requires s == WithQueues(s.replay)
    ensures SortedBy(s.queues.pendingCommands, AdmittedEarlier)
  {
    SortIsSorted(FilterMap(s.replay.commands.Values(), ToPendingCommand), AdmittedEarlier);
  }

  lemma {:induction false} PendingInOrder(s: State, p: PendingCommand -> bool, q: PendingCommand -> bool)
    requires s == WithQueues(s.replay) && CommandsKeyed(s.replay.commands)
    requires forall c :: c in s.queues.pendingCommands ==> p(c) == q(c)
    ensures var found := Find(s.queues.pendingCommands, p);
            && (found.None? <==> NoneWaiting(s.replay.commands, q))
            && (found.Some? ==> FirstWaiting(s.replay.commands, q, found.value))
  {
    forall c ensures c in s.queues.pendingCommands <==> IsWaiting(s.replay.commands, c) {
      PendingExactly(s.replay.commands, c);
    }
    PendingIsSorted(s);
    EarliestFound(s.queues.pendingCommands, p);
  }

  // ---------------------------------------------------------------------------
  // Owners
  // ---------------------------------------------------------------------------

  /** A message is run by its own command while that waits, or else by the first that resumes it. */
  ghost predicate RunsMessage(commands: Commands, c: PendingCommand, m: MessageRecord)
    requires m.meta.Authored()
  {
    if CommandWaits(commands, m.meta.commandId) then IsWaiting(commands, c) && c.commandId == m.meta.commandId
    else FirstWaiting(commands, ResumerFor(m.meta.messageId), c)
  }

  ghost predicate HasRunner(commands: Commands, m: MessageRecord)
    requires m.meta.Authored()
  {
    CommandWaits(commands, m.meta.commandId) || !NoneWaiting(commands, ResumerFor(m.meta.messageId))
  }

  ghost predicate AllAuthored(ms: seq<MessageRecord>) {
    forall m :: m in ms ==> m.meta.Authored()
  }

  /** The command runs the first message that has one to run it. */
  ghost predicate RunsFirst(commands: Commands, c: PendingCommand, ms: seq<MessageRecord>)
    requires AllAuthored(ms)
  {
    exists i :: 0 <= i < |ms| && RunsMessage(commands, c, ms[i]) && forall j :: 0 <= j < i ==>
      !HasRunner(commands, ms[j])
  }

  /** The command is that of the first message whose command waits. */
  ghost predicate StartsFirst(commands: Commands, c: PendingCommand, ms: seq<MessageRecord>)
    requires AllAuthored(ms)
  {
    exists i :: && 0 <= i < |ms| && IsWaiting(commands, c) && c.commandId == ms[i].meta.commandId
                && forall j :: 0 <= j < i ==> !CommandWaits(commands, ms[j].meta.commandId)
  }

  lemma {:induction false} PendingByIdExactly(s: State, id: CommandId)
    requires s == WithQueues(s.replay) && CommandsKeyed(s.replay.commands)
    ensures var c := PendingById(s.queues.pendingCommands, id);
            && (c.Some? <==> CommandWaits(s.replay.commands, id))
            && (c.Some? ==> IsWaiting(s.replay.commands, c.value) && c.value.commandId == id)
  {
    PendingByIdFinds(s.queues.pendingCommands, id);
    forall c ensures c in s.queues.pendingCommands <==> IsWaiting(s.replay.commands, c) {
      PendingExactly(s.replay.commands, c);
    }
  }

  lemma {:induction false} OwnerOfOne(s: State, p: PendingUserMessage, m: MessageRecord)
    requires s == WithQueues(s.replay) && CommandsKeyed(s.replay.commands)
    requires Shows(p, m)
    ensures var pending := s.queues.pendingCommands;
            var origin := PendingById(pending, p.commandId);
            var owner := if origin.Some? then origin else Find(pending, ResumerOf(p.messageId));
            && (owner.Some? <==> HasRunner(s.replay.commands, m))
            && (owner.Some? ==> RunsMessage(s.replay.commands, owner.value, m))
  {
    PendingByIdExactly(s, p.commandId);
    PendingInOrder(s, ResumerOf(p.messageId), ResumerFor(p.messageId));
  }

  lemma {:induction false} RunsLater(commands: Commands, c: PendingCommand, m: MessageRecord, ms: seq<MessageRecord>)
    requires AllAuthored([m] + ms) && AllAuthored(ms)
    requires !HasRunner(commands, m) && RunsFirst(commands, c, ms)
    ensures RunsFirst(commands, c, [m] + ms)
  {
    var all := [m] + ms;
    var i :| 0 <= i < |ms| && RunsMessage(commands, c, ms[i]) && forall j :: 0 <= j < i ==> !HasRunner(commands, ms[j]);
    assert all[i + 1] == ms[i];
    forall j | 0 <= j < i + 1 ensures !HasRunner(commands, all[j]) {
      assert j > 0 ==> all[j] == ms[j - 1];
    }
  }

  lemma {:induction false} RunsNow(commands: Commands, c: PendingCommand, m: MessageRecord, ms: seq<MessageRecord>)
    requires AllAuthored([m] + ms) && RunsMessage(commands, c, m)
    ensures RunsFirst(commands, c, [m] + ms)
  {
    assert ([m] + ms)[0] == m;
  }

  lemma {:induction false} FirstOwnerExactly(s: State, ps: seq<PendingUserMessage>, ms: seq<MessageRecord>)
    requires s == WithQueues(s.replay) && CommandsKeyed(s.replay.commands)
    requires ShowsEach(ps, ms) && AllAuthored(ms)
    ensures var owner := FirstOwner(ps, s.queues.pendingCommands);
            && (owner.None? <==> forall m :: m in ms ==> !HasRunner(s.replay.commands, m))
            && (owner.Some? ==> RunsFirst(s.replay.commands, owner.value, ms))
  {
    if ps != [] {
      var owner, m, rest := FirstOwner(ps, s.queues.pendingCommands), ms[0], ms[1..];
      OwnerOfOne(s, ps[0], m);
      assert ms == [m] + rest;
      if HasRunner(s.replay.commands, m) {
        RunsNow(s.replay.commands, owner.value, m, rest);
      } else {
        FirstOwnerExactly(s, ps[1..], rest);
        if owner.Some? {
          RunsLater(s.replay.commands, owner.value, m, rest);
        }
      }
    }
  }

  lemma {:induction false} StartsLater(commands: Commands, c: PendingCommand, m: MessageRecord, ms: seq<MessageRecord>)
    requires AllAuthored([m] + ms) && AllAuthored(ms)
    requires !CommandWaits(commands, m.meta.commandId) && StartsFirst(commands, c, ms)
    ensures StartsFirst(commands, c, [m] + ms)
  {
    var all := [m] + ms;
    var i :| && 0 <= i < |ms| && IsWaiting(commands, c) && c.commandId == ms[i].meta.commandId
             && forall j :: 0 <= j < i ==> !CommandWaits(commands, ms[j].meta.commandId);
    assert all[i + 1] == ms[i];
    forall j | 0 <= j < i + 1 ensures !CommandWaits(commands, all[j].meta.commandId) {
      assert j > 0 ==> all[j] == ms[j - 1];
    }
  }

  lemma {:induction false} StartsNow(commands: Commands, c: PendingCommand, m: MessageRecord, ms: seq<MessageRecord>)
    requires AllAuthored([m] + ms) && IsWaiting(commands, c) && c.commandId == m.meta.commandId
    ensures StartsFirst(commands, c, [m] + ms)
  {
    assert ([m] + ms)[0] == m;
  }

  lemma {:induction false} FirstOriginExactly(s: State, ps: seq<PendingUserMessage>, ms: seq<MessageRecord>)
    requires s == WithQueues(s.replay) && CommandsKeyed(s.replay.commands)
    requires ShowsEach(ps, ms) && AllAuthored(ms)
    ensures var origin := FirstOrigin(ps, s.queues.pendingCommands);
            && (origin.None? <==> NoneStarts(s.replay.commands, ms))
            && (origin.Some? ==> StartsFirst(s.replay.commands, origin.value, ms))
  {
    if ps != [] {
      var origin, m, rest := FirstOrigin(ps, s.queues.pendingCommands), ms[0], ms[1..];
      PendingByIdExactly(s, ps[0].commandId);
      assert Shows(ps[0], m) && ms == [m] + rest;
      if CommandWaits(s.replay.commands, m.meta.commandId) {
        StartsNow(s.replay.commands, origin.value, m, rest);
      } else {
        FirstOriginExactly(s, ps[1..], rest);
        if origin.Some? {
          StartsLater(s.replay.commands, origin.value, m, rest);
        }
      }
    }
  }

  lemma {:induction false} StartableExactly(s: State, c: PendingCommand)
    requires s == WithQueues(s.replay) && MessagesKeyed(s.replay.messages)
    ensures StartableBeside(s.queues.pausedQueue)(c) <==> Startable(s.replay.messages, c)
  {
    var messages := s.replay.messages;
    forall p | p in s.queues.pausedQueue
      ensures messages.Has(p.messageId)
      ensures var m := messages.Get(p.messageId).value;
              m in messages.Values() && Waits(m) && IsHeld(m) && m.meta.commandId == p.commandId
    {
      WaitingMembership(messages, p);
      EntryShows(messages.Get(p.messageId).value);
    }
    forall m | m in messages.Values() && Waits(m) && IsHeld(m)
      ensures exists p :: p in s.queues.pausedQueue && p.commandId == m.meta.commandId
    {
      var k := ValueHasKey(messages, m);
      var p := QueueContents.Entry(m);
      EntryShows(m);
      WaitingMembership(messages, p);
      assert p in s.queues.pausedQueue;
    }
  }

  // ---------------------------------------------------------------------------
  // The search
  // ---------------------------------------------------------------------------

  lemma {:induction false} KindIsAuthored(messages: Messages, kind: MessageRecord -> bool)
    ensures AllAuthored(WaitingOfKind(messages, kind))
  {
    forall m | m in WaitingOfKind(messages, kind) ensures m.meta.Authored() {
      KindWaits(messages, kind, m);
    }
  }

  ghost predicate NoneStarts(commands: Commands, ms: seq<MessageRecord>)
    requires AllAuthored(ms)
  {
    forall m :: m in ms ==> !CommandWaits(commands, m.meta.commandId)
  }

  /** What the search should answer. */
  ghost predicate Answers(r: Replay, choice: IdleChoice, steers: seq<MessageRecord>, queue: seq<MessageRecord>)
    requires AllAuthored(steers) && AllAuthored(queue)
  {
    match choice
    case OrphanPendingMessages => steers != [] && forall m :: m in steers ==> !HasRunner(r.commands, m)
    case Next(c) =>
      if steers != [] then RunsFirst(r.commands, c, steers)
      else if !NoneWaiting(r.commands, Interrupts) then FirstWaiting(r.commands, Interrupts, c)
      else if !NoneStarts(r.commands, queue) then StartsFirst(r.commands, c, queue)
      else FirstWaiting(r.commands, StartableFor(r.messages), c)
    case Nothing =>
      && steers == [] && NoneWaiting(r.commands, Interrupts) && NoneStarts(r.commands, queue)
      && NoneWaiting(r.commands, StartableFor(r.messages))
  }

  /**
   * While steers wait: a command to run the first of them that has one, or the report that none has. Else the first
   * interrupt, else the command of the first queued message whose command waits, else the first startable command.
   */
  lemma {:induction false} IdleSearchExactly(s: State)
    requires s == WithQueues(s.replay) && Keyed(s.replay)
    ensures var steers := WaitingOfKind(s.replay.messages, Steers);
            var queue := WaitingOfKind(s.replay.messages, QueuesFreely);
            && AllAuthored(steers) && AllAuthored(queue)
            && Answers(s.replay, NextIdleCommand(s.queues), steers, queue)
  {
    var r, q := s.replay, s.queues;
    var steers, queue := WaitingOfKind(r.messages, Steers), WaitingOfKind(r.messages, QueuesFreely);
    KindIsAuthored(r.messages, Steers);
    KindIsAuthored(r.messages, QueuesFreely);
    MessageQueuesExactly(r.commands, r.runs, r.messages);
    FirstOwnerExactly(s, q.pendingSteers, steers);
    FirstOriginExactly(s, q.pendingQueue, queue);
    PendingInOrder(s, IsInterrupt, Interrupts);
    forall c ensures StartableBeside(q.pausedQueue)(c) == StartableFor(r.messages)(c) {
      StartableExactly(s, c);
    }
    PendingInOrder(s, StartableBeside(q.pausedQueue), StartableFor(r.messages));
    assert steers != [] ==> steers[0] in steers;
  }

  /** A promotion admits a resume command exactly when no run is open and nothing reserves or would run the message. */
  lemma {:induction false} NeedsResumeExactly(s: State, id: MessageId)
    requires s == WithQueues(s.replay) && Keyed(s.replay)
    ensures PromotionNeedsResumeCommand(s, id) <==>
              && (s.queues.active.None? || s.queues.active.value.runId.None?)
              && s.replay.messages.Has(id) && s.replay.messages.Get(id).value.meta.Authored()
              && !HasRunner(s.replay.commands, s.replay.messages.Get(id).value)
              && match s.replay.request {
                   case Some(RequestRecord(_, RecoveryWork(_, _, inputs), _, _)) => id !in inputs
                   case _ => true
                 }
  {
    if s.replay.messages.Has(id) {
      assert s.replay.messages.Get(id).value.meta.messageId == id;
    }
    forall c ensures c in s.queues.pendingCommands <==> IsWaiting(s.replay.commands, c) {
      PendingExactly(s.replay.commands, c);
    }
    forall c: PendingCommand ensures Resumes(c, id) <==> ResumerFor(id)(c) {
    }
  }
}
