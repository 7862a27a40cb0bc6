/** What the derived queues mean, and what a context rebase leaves of them. */
module QueueProperties {
  import opened Collections
  import opened Events
  import opened Records
  import opened CommandQueues
  import opened ReducedState
  import opened ReplayInvariants

  // ---------------------------------------------------------------------------
  // The message queues partition the waiting messages
  // ---------------------------------------------------------------------------

  /** The waiting messages of a replay, in message order. */
  function WaitingMessages(messages: Messages): seq<PendingUserMessage> {
    FilterMap(messages.Values(), ToPendingUserMessage)
  }

  function IdOf(m: PendingUserMessage): MessageId {
    m.messageId
  }

  lemma {:induction false} QueuesPartitionWaiting(commands: Commands, runs: Runs, messages: Messages)
    ensures var q := DeriveCommandQueues(commands, runs, messages);
            && multiset(q.pendingQueue) + multiset(q.pendingSteers) + multiset(q.pausedQueue)
              == multiset(WaitingMessages(messages))
            && SortedBy(q.pendingQueue, EarlierEffect)
            && SortedBy(q.pendingSteers, EarlierEffect)
            && SortedBy(q.pausedQueue, EarlierEffect)
  {
    var sorted := PendingUserMessages(messages.Values());
    SortIsPermutation(WaitingMessages(messages), EarlierEffect);
    SortIsSorted(WaitingMessages(messages), EarlierEffect);
    FilterKeepsSorted(sorted, IsPendingQueue, EarlierEffect);
    FilterKeepsSorted(sorted, IsPendingSteer, EarlierEffect);
    FilterKeepsSorted(sorted, IsPausedQueue, EarlierEffect);
    ThreeWaySplit(sorted);
  }

  lemma {:induction false} ThreeWaySplit(xs: seq<PendingUserMessage>)
    ensures multiset(Filter(xs, IsPendingQueue)) + multiset(Filter(xs, IsPendingSteer))
            + multiset(Filter(xs, IsPausedQueue))
            == multiset(xs)
  {
    if xs != [] {
      ThreeWaySplit(xs[1..]);
      FilterSplit(xs, IsPendingQueue);
      FilterSplit(xs, IsPendingSteer);
      FilterSplit(xs, IsPausedQueue);
      assert multiset(xs) == multiset{xs[0]} + multiset(xs[1..]) by {
        assert xs == [xs[0]] + xs[1..];
      }
    }
  }

  lemma {:induction false} FilterSplit(xs: seq<PendingUserMessage>, p: PendingUserMessage -> bool)
    requires xs != []
    ensures multiset(Filter(xs, p)) == (if p(xs[0]) then multiset{xs[0]} else multiset{}) + multiset(Filter(xs[1..], p))
  {
  }

  /** Exactly the unconsumed, uncancelled authored messages wait, each once. */
  lemma {:induction false} WaitingAreTheOpenMessages(messages: Messages, id: MessageId)
    requires MessagesKeyed(messages)
    ensures DistinctBy(WaitingMessages(messages), IdOf)
    ensures (messages.Has(id) && messages.Get(id).value.meta.Waiting())
            <==> exists m :: m in WaitingMessages(messages) && m.messageId == id
    ensures messages.Has(id) && messages.Get(id).value.meta.Waiting() ==>
              ToPendingUserMessage(messages.Get(id).value).value in WaitingMessages(messages)
  {
    WaitingDistinct(messages);
    if messages.Has(id) && messages.Get(id).value.meta.Waiting() {
      var r := messages.Get(id).value;
      assert r in messages.Values();
      assert ToPendingUserMessage(r).Some?;
    }
    if m :| m in WaitingMessages(messages) && m.messageId == id {
      var r :| r in messages.Values() && ToPendingUserMessage(r) == Some(m);
      var k := ValueHasKey(messages, r);
    }
  }

  function RecordId(m: MessageRecord): MessageId {
    m.meta.messageId
  }

  lemma {:induction false} WaitingDistinct(messages: Messages)
    requires MessagesKeyed(messages)
    ensures DistinctBy(WaitingMessages(messages), IdOf)
  {
    ValuesDistinct(messages, RecordId);
    FilterMapKeepsDistinct(messages.Values(), ToPendingUserMessage, RecordId, IdOf);
  }

  /** Queue membership, read off the message record. */
  lemma {:induction false} SteerMembership(messages: Messages, m: PendingUserMessage)
    requires MessagesKeyed(messages)
    ensures m in Filter(PendingUserMessages(messages.Values()), IsPendingSteer)
            <==> && messages.Has(m.messageId)
                 && ToPendingUserMessage(messages.Get(m.messageId).value) == Some(m)
                 && m.disposition == Steer
  {
    WaitingMembership(messages, m);
  }

  lemma {:induction false} WaitingMembership(messages: Messages, m: PendingUserMessage)
    requires MessagesKeyed(messages)
    ensures m in PendingUserMessages(messages.Values())
            <==> messages.Has(m.messageId) && ToPendingUserMessage(messages.Get(m.messageId).value) == Some(m)
  {
    SortIsPermutation(WaitingMessages(messages), EarlierEffect);
    SameElements(PendingUserMessages(messages.Values()), WaitingMessages(messages));
    if m in WaitingMessages(messages) {
      var r :| r in messages.Values() && ToPendingUserMessage(r) == Some(m);
      var k := ValueHasKey(messages, r);
    }
    if messages.Has(m.messageId) && ToPendingUserMessage(messages.Get(m.messageId).value) == Some(m) {
      assert messages.Get(m.messageId).value in messages.Values();
    }
  }

  lemma {:induction false} PendingCommandMembership(commands: Commands, c: PendingCommand)
    requires CommandsKeyed(commands)
    ensures c in PendingCommands(commands.Values())
            <==> commands.Has(c.commandId) && ToPendingCommand(commands.Get(c.commandId).value) == Some(c)
  {
    var unsorted := FilterMap(commands.Values(), ToPendingCommand);
    SortIsPermutation(unsorted, AdmittedEarlier);
    SameElements(PendingCommands(commands.Values()), unsorted);
    if c in unsorted {
      var r :| r in commands.Values() && ToPendingCommand(r) == Some(c);
      var k := ValueHasKey(commands, r);
    }
    if commands.Has(c.commandId) && ToPendingCommand(commands.Get(c.commandId).value) == Some(c) {
      assert commands.Get(c.commandId).value in commands.Values();
    }
  }

  // ---------------------------------------------------------------------------
  // A rebase keeps what owns open work
  // ---------------------------------------------------------------------------

  /** Steering entries depend only on the waiting steering messages. */
  lemma {:induction false} GroupOfFilter(xs: seq<MessageRecord>, keep: MessageRecord -> bool)
    requires forall x :: x in xs && !keep(x) ==> !IsWaitingSteering(x)
    ensures GroupSteering(Filter(xs, keep)) == GroupSteering(xs)
  {
    if xs != [] {
      var front, x := xs[..|xs| - 1], xs[|xs| - 1];
      assert xs == front + [x];
      GroupOfFilter(front, keep);
      FilterOfAppend(front, [x], keep);
      var kept := Filter(front, keep) + (if keep(x) then [x] else []);
      assert Filter([x], keep) == if keep(x) then [x] else [];
      assert Filter(xs, keep) == kept;
      if keep(x) {
        assert kept[..|kept| - 1] == Filter(front, keep);
      } else {
        assert x in xs;
        assert kept == Filter(front, keep);
      }
    }
  }

  lemma {:induction false} RebaseKeepsCommands(commands: Commands, runs: Runs, from: Seq)
    ensures PendingCommands(PruneCommands(commands, from).Values()) == PendingCommands(commands.Values())
    ensures DeriveActiveCommand(PruneCommands(commands, from).Values(), PruneRuns(runs, from).Values())
            == DeriveActiveCommand(commands.Values(), runs.Values())
  {
    var keptCommand := (c: CommandRecord) => KeptTerminal(c.terminal, from);
    ValuesOfFilter(commands, KeptCommands(from), keptCommand);
    FilterMapOfFilter(commands.Values(), keptCommand, ToPendingCommand);
    FindOfFilter(commands.Values(), keptCommand, IsActive);
    RebaseKeepsOpenRuns(runs, from, Find(commands.Values(), IsActive));
  }

  lemma {:induction false} RebaseKeepsOpenRuns(runs: Runs, from: Seq, active: Option<CommandRecord>)
    ensures active.Some? ==>
              Find(PruneRuns(runs, from).Values(), OpenRunOf(active.value.commandId))
              == Find(runs.Values(), OpenRunOf(active.value.commandId))
  {
    var keptRun := (r: RunRecord) => KeptTerminal(r.terminal, from);
    ValuesOfFilter(runs, KeptRuns(from), keptRun);
    if active.Some? {
      FindOfFilter(runs.Values(), keptRun, OpenRunOf(active.value.commandId));
    }
  }

  function Kept(from: Seq): MessageRecord -> bool {
    (m: MessageRecord) => KeptMessage(m, from)
  }

  lemma {:induction false} PrunedValues(messages: Messages, from: Seq)
    ensures PruneMessages(messages, from).Values() == Filter(messages.Values(), Kept(from))
  {
    ValuesOfFilter(messages, KeptMessages(from), Kept(from));
  }

  /**
   * Whatever the records and the cursor, a rebase leaves the active command, the pending commands and
   * the steering groups.
   */
  lemma {:induction false} RebaseKeepsOwnership(commands: Commands, runs: Runs, messages: Messages, from: Seq)
    ensures var before := DeriveCommandQueues(commands, runs, messages);
            var after := DeriveCommandQueues(PruneCommands(commands, from), PruneRuns(runs, from),
              PruneMessages(messages, from));
            && after.active == before.active
            && after.pendingCommands == before.pendingCommands
            && after.steeringByRun == before.steeringByRun
  {
    RebaseKeepsCommands(commands, runs, from);
    PrunedValues(messages, from);
    GroupOfFilter(messages.Values(), Kept(from));
  }

  // ---------------------------------------------------------------------------
  // A rebase can lose waiting messages
  // ---------------------------------------------------------------------------

  /** A message still waiting, submitted before the cursor. */
  predicate LostByRebase(m: MessageRecord, from: Seq) {
    m.meta.User? && m.meta.Waiting() && m.meta.at < from
  }

  lemma {:induction false} DroppedExactly(m: MessageRecord, from: Seq)
    ensures !KeptMessage(m, from) && ToPendingUserMessage(m).Some? <==> LostByRebase(m, from)
  {
  }

  /** The waiting messages are unchanged when none is lost, and fewer otherwise. */
  lemma {:induction false} WaitingAfterRebase(messages: Messages, from: Seq)
    ensures var before, after := WaitingMessages(messages), WaitingMessages(PruneMessages(messages, from));
            if exists m :: m in messages.Values() && LostByRebase(m, from) then |after| < |before| else after == before
  {
    PrunedValues(messages, from);
    forall m | m in messages.Values() && !Kept(from)(m)
      ensures ToPendingUserMessage(m).None? <==> !LostByRebase(m, from)
    {
      DroppedExactly(m, from);
    }
    if m :| m in messages.Values() && LostByRebase(m, from) {
      DroppedExactly(m, from);
      assert !Kept(from)(m);
      FilterMapShortens(messages.Values(), Kept(from), ToPendingUserMessage);
    } else {
      FilterMapOfFilter(messages.Values(), Kept(from), ToPendingUserMessage);
    }
  }

  lemma {:induction false} QueueSizes(commands: Commands, runs: Runs, messages: Messages)
    ensures var q := DeriveCommandQueues(commands, runs, messages);
            |q.pendingQueue| + |q.pendingSteers| + |q.pausedQueue| == |WaitingMessages(messages)|
  {
    QueuesPartitionWaiting(commands, runs, messages);
    var q := DeriveCommandQueues(commands, runs, messages);
    assert |multiset(q.pendingQueue) + multiset(q.pendingSteers) + multiset(q.pausedQueue)|
           == |multiset(WaitingMessages(messages))|;
  }

  /** A rebase leaves the queues as they are exactly when no waiting user message was submitted before its cursor. */
  lemma {:induction false} RebaseKeepsQueuesExactly(commands: Commands, runs: Runs, messages: Messages, from: Seq)
    ensures var before := DeriveCommandQueues(commands, runs, messages);
            var after := DeriveCommandQueues(PruneCommands(commands, from), PruneRuns(runs, from),
              PruneMessages(messages, from));
            after == before <==> forall m :: m in messages.Values() ==> !LostByRebase(m, from)
  {
    RebaseKeepsOwnership(commands, runs, messages, from);
    WaitingAfterRebase(messages, from);
    QueueSizes(commands, runs, messages);
    QueueSizes(PruneCommands(commands, from), PruneRuns(runs, from), PruneMessages(messages, from));
  }

  lemma {:induction false} RebaseEventPrunes(r: Replay, e: Committed)
    requires e.event.payload.ContextRebased?
    ensures var from, next := e.event.payload.retainedFromContextSeq, Apply(r, e);
            && next.commands == PruneCommands(r.commands, from) && next.runs == PruneRuns(r.runs, from)
            && next.messages == PruneMessages(r.messages, from)
  {
  }

  function QueuesOf(r: Replay): Queues {
    DeriveCommandQueues(r.commands, r.runs, r.messages)
  }

  /** The same of the event: the queues of the folded state. */
  lemma {:induction false} RebaseEventKeepsQueuesExactly(r: Replay, e: Committed)
    requires e.event.payload.ContextRebased?
    ensures QueuesOf(Apply(r, e)) == QueuesOf(r)
            <==> forall m :: m in r.messages.Values() ==> !LostByRebase(m, e.event.payload.retainedFromContextSeq)
  {
    RebaseEventPrunes(r, e);
    RebaseKeepsQueuesExactly(r.commands, r.runs, r.messages, e.event.payload.retainedFromContextSeq);
  }

  lemma {:induction false} OneQueued(id: MessageId, m: MessageRecord)
    requires m.meta.User? && m.meta.Waiting() && EffectiveDisposition(m.meta) == Queue
             && m.meta.life.pausedByCommandId.None?
    ensures |Filter(PendingUserMessages(Empty.Set(id, m).Values()), IsPendingQueue)| == 1
  {
    var p := ToPendingUserMessage(m).value;
    assert Empty.Set(id, m) == Entry(id, m, Empty);
    assert Empty.Set(id, m).Values() == [m];
    assert FilterMap([m][1..], ToPendingUserMessage) == [];
    assert FilterMap([m], ToPendingUserMessage) == [p];
    assert StableSort([p][1..], EarlierEffect) == [];
    assert PendingUserMessages([m]) == [p];
    assert Filter([p][1..], IsPendingQueue) == [];
  }

  lemma {:induction false} NoneLeft(id: MessageId, m: MessageRecord, from: Seq)
    requires m.meta.User? && m.meta.at < from
    ensures PruneMessages(Empty.Set(id, m), from).Values() == []
    ensures Filter(PendingUserMessages([]), IsPendingQueue) == []
  {
    PrunedValues(Empty.Set(id, m), from);
    assert Empty.Set(id, m) == Entry(id, m, Empty);
    assert [m][1..] == [] && Filter([m], Kept(from)) == [];
  }

  lemma {:induction false} FoldOne(m: Messages, e: Committed)
    ensures FoldMessages(m, [e]) == ApplyMessages(m, e)
  {
    assert [e][..0] == [];
  }

  lemma {:induction false} ThenPruned(m: Messages, submitted: Committed, rebased: Committed)
    requires rebased.event.payload.ContextRebased?
    ensures FoldMessages(m, [submitted, rebased])
            == PruneMessages(FoldMessages(m, [submitted]), rebased.event.payload.retainedFromContextSeq)
  {
    assert [submitted, rebased][..1] == [submitted];
  }

  lemma {:induction false} PendingQueueOf(log: seq<Committed>)
    ensures Reduce(log).queues.pendingQueue
            == Filter(PendingUserMessages(FoldMessages(Empty, log).Values()), IsPendingQueue)
  {
    FoldByMap(GENESIS, log);
  }

  /** A queued message that no turn consumed before the cursor passed it is never run. */
  lemma {:induction false} QueuedMessageIsLost(submitted: Committed, rebased: Committed)
    requires submitted.event.payload.UserMessageSubmitted? && submitted.event.payload.disposition == Queue
    requires rebased.event.payload.ContextRebased? && submitted.at < rebased.event.payload.retainedFromContextSeq
    ensures |Reduce([submitted]).queues.pendingQueue| == 1
    ensures Reduce([submitted, rebased]).queues.pendingQueue == []
  {
    var id, m := submitted.event.payload.messageId, NewMessage(submitted).value;
    PendingQueueOf([submitted]);
    PendingQueueOf([submitted, rebased]);
    MessageStored(Empty, Empty, submitted);
    FoldOne(Empty, submitted);
    ThenPruned(Empty, submitted, rebased);
    OneQueued(id, m);
    NoneLeft(id, m, rebased.event.payload.retainedFromContextSeq);
  }
}
