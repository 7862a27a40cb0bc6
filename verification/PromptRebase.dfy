/** What a context rebase does to the projected prompt. */
module PromptRebase {
  import opened Collections
  import opened Events
  import opened Records
  import opened CommandQueues
  import opened ReducedState
  import opened PromptProjection

  // ---------------------------------------------------------------------------
  // What pruning can lose
  // ---------------------------------------------------------------------------

  /** Submitted before the cursor but consumed at or after it: pruned by the one, retained by the other. */
  predicate Straddles(m: MessageRecord, from: Seq) {
    && m.meta.User? && m.meta.at < from && m.meta.life.cancelledSeq.None?
    && m.meta.life.consumedSeq.Some? && from <= m.meta.life.consumedSeq.value
  }

  /** Ended before the cursor although the assistant message that called it is retained. */
  predicate LateAnswer(context: seq<MessageRecord>, t: ToolCallRecord, from: Seq) {
    !KeptToolCall(t, from) && AnswerOf(t).Some? && AssistantOf(context, t.decision.value.meta.inferenceId).Some?
  }

  function Kept(from: Seq): MessageRecord -> bool {
    (m: MessageRecord) => KeptMessage(m, from)
  }

  function KeptTool(from: Seq): ToolCallRecord -> bool {
    (t: ToolCallRecord) => KeptToolCall(t, from)
  }

  function Retained(from: Seq): MessageRecord -> bool {
    (m: MessageRecord) => IsDurableTranscriptMessage(m) && IsConsumedForPrompt(m) && from <= TranscriptSeq(m)
  }

  /** Pruning drops exactly the straddling messages of the retained transcript. */
  lemma {:induction false} RetainedUnlessStraddling(m: MessageRecord, from: Seq)
    requires Retained(from)(m)
    ensures KeptMessage(m, from) <==> !Straddles(m, from)
  {
    match m.meta
    case User(_, _, _, _, _, _, _) =>
    case _ =>
  }

  lemma {:induction false} TranscriptOrderIsTotal()
    ensures TotalOrder(TranscriptOrder)
  {
  }

  /** The retained transcript, filtered before it is sorted. */
  lemma {:induction false} RetainedIsSortedFilter(vs: seq<MessageRecord>, from: Seq)
    ensures Filter(StableSort(Filter(vs, IsDurableTranscriptMessage), TranscriptOrder), RetainedForPrompt(from))
            == StableSort(Filter(vs, Retained(from)), TranscriptOrder)
  {
    TranscriptOrderIsTotal();
    FilterOfSort(Filter(vs, IsDurableTranscriptMessage), RetainedForPrompt(from), TranscriptOrder);
    FilterTwice(vs, IsDurableTranscriptMessage, RetainedForPrompt(from), Retained(from));
  }

  function RetainedTranscript(messages: Messages, from: Seq): seq<MessageRecord> {
    Filter(DurableMessageTranscript(messages), RetainedForPrompt(from))
  }

  /** The transcript of the pruned messages is the pruned transcript. */
  lemma {:induction false} PrunedTranscript(messages: Messages, from: Seq)
    ensures RetainedTranscript(PruneMessages(messages, from), from)
            == Filter(RetainedTranscript(messages, from), Kept(from))
    ensures forall m :: m in RetainedTranscript(messages, from) <==> m in messages.Values() && Retained(from)(m)
  {
    var vs := messages.Values();
    var kept := Filter(vs, Kept(from));
    ValuesOfFilter(messages, KeptMessages(from), Kept(from));
    RetainedIsSortedFilter(kept, from);
    RetainedIsSortedFilter(vs, from);
    var both := (m: MessageRecord) => Kept(from)(m) && Retained(from)(m);
    FilterTwice(vs, Kept(from), Retained(from), both);
    FilterTwice(vs, Retained(from), Kept(from), both);
    TranscriptOrderIsTotal();
    FilterOfSort(Filter(vs, Retained(from)), Kept(from), TranscriptOrder);
    SortIsPermutation(Filter(vs, Retained(from)), TranscriptOrder);
    SameElements(RetainedTranscript(messages, from), Filter(vs, Retained(from)));
  }

  /** The context after pruning is the context before without the messages not kept. */
  lemma {:induction false} PrunedContext(messages: Messages, summary: Summary)
    ensures var from := summary.retainedFromContextSeq;
            PromptContextMessages(PruneMessages(messages, from), Some(summary))
            == Filter(PromptContextMessages(messages, Some(summary)), Kept(from))
  {
    var from := summary.retainedFromContextSeq;
    var retained := RetainedTranscript(messages, from);
    PrunedTranscript(messages, from);
    ValuesOfFilter(messages, KeptMessages(from), Kept(from));
    FindOfFilter(messages.Values(), Kept(from), IsSystem);
    var system := Find(messages.Values(), IsSystem);
    if system.Some? {
      assert ([system.value] + retained)[1..] == retained;
    }
  }

  /** Those are the straddling ones. */
  lemma {:induction false} LostFromContext(messages: Messages, summary: Summary)
    ensures var from := summary.retainedFromContextSeq;
            (exists m :: m in PromptContextMessages(messages, Some(summary)) && !Kept(from)(m))
            <==> exists m :: m in messages.Values() && Straddles(m, from)
  {
    var from := summary.retainedFromContextSeq;
    var retained := RetainedTranscript(messages, from);
    PrunedTranscript(messages, from);
    forall m | m in retained ensures KeptMessage(m, from) <==> !Straddles(m, from) {
      RetainedUnlessStraddling(m, from);
    }
    if m :| m in messages.Values() && Straddles(m, from) {
      assert Retained(from)(m);
      assert m in retained && m in PromptContextMessages(messages, Some(summary)) && !Kept(from)(m);
    }
    if m :| m in PromptContextMessages(messages, Some(summary)) && !Kept(from)(m) {
      assert m in retained && Straddles(m, from);
    }
  }

  /** Assistant messages are never straddling, so the calls find the same assistants. */
  lemma {:induction false} SameAssistants(context: seq<MessageRecord>, from: Seq, id: InferenceId)
    requires forall m :: m in context && IsAssistant(m) ==> Kept(from)(m)
    ensures AssistantOf(Filter(context, Kept(from)), id) == AssistantOf(context, id)
  {
    if context != [] {
      var front, last := context[..|context| - 1], context[|context| - 1];
      assert context == front + [last];
      FilterOfAppend(front, [last], Kept(from));
      SameAssistants(front, from, id);
      var kept := Filter(front, Kept(from));
      assert Filter([last], Kept(from)) == if Kept(from)(last) then [last] else [];
      if Kept(from)(last) {
        assert (kept + [last])[..|kept + [last]| - 1] == kept;
      } else {
        assert kept + [] == kept;
        assert last in context && !IsAssistant(last);
      }
    }
  }

  lemma {:induction false} RetainedAssistantsAreKept(messages: Messages, summary: Summary)
    ensures forall m :: m in PromptContextMessages(messages, Some(summary)) && IsAssistant(m) ==>
            Kept(summary.retainedFromContextSeq)(m)
  {
    PrunedTranscript(messages, summary.retainedFromContextSeq);
  }

  // ---------------------------------------------------------------------------
  // The rebase theorem
  // ---------------------------------------------------------------------------

  /** The answers left after pruning: fewer exactly when an answer ended too early. */
  lemma {:induction false} PrunedResults(context: seq<MessageRecord>, toolCalls: ToolCalls, from: Seq)
    requires forall m :: m in context && IsAssistant(m) ==> Kept(from)(m)
    ensures var after := FilterMap(PruneToolCalls(toolCalls, from).Values(), ToResultItem(Filter(context, Kept(from))));
            var before := FilterMap(toolCalls.Values(), ToResultItem(context));
            if exists t :: t in toolCalls.Values() && LateAnswer(context, t, from)
              then |after| < |before|
              else after == before
  {
    var vs := toolCalls.Values();
    var pruned := Filter(context, Kept(from));
    ValuesOfFilter(toolCalls, KeptToolCalls(from), KeptTool(from));
    forall t | t in Filter(vs, KeptTool(from)) ensures ToResultItem(pruned)(t) == ToResultItem(context)(t) {
      if t.decision.Some? {
        SameAssistants(context, from, t.decision.value.meta.inferenceId);
      }
    }
    FilterMapAgrees(Filter(vs, KeptTool(from)), ToResultItem(pruned), ToResultItem(context));
    FilterMapShortens(vs, KeptTool(from), ToResultItem(context));
    if t :| t in vs && LateAnswer(context, t, from) {
      assert !KeptTool(from)(t) && ToResultItem(context)(t).Some?;
    } else {
      forall t | t in vs && !KeptTool(from)(t) ensures ToResultItem(context)(t).None? {
        assert !LateAnswer(context, t, from);
      }
      FilterMapOfFilter(vs, KeptTool(from), ToResultItem(context));
    }
  }

  /** The prompt before and after dropping what the cursor leaves behind. */
  lemma {:induction false} PruningPreservesPromptExactly(messages: Messages, toolCalls: ToolCalls, summary: Summary)
    ensures var from := summary.retainedFromContextSeq;
            ProjectedMessages(PruneMessages(messages, from), PruneToolCalls(toolCalls, from), Some(summary))
            == ProjectedMessages(messages, toolCalls, Some(summary))
            <==> && (forall m :: m in messages.Values() ==> !Straddles(m, from))
                 && (forall t :: t in toolCalls.Values() ==>
                   !LateAnswer(PromptContextMessages(messages, Some(summary)), t, from))
  {
    var from := summary.retainedFromContextSeq;
    var before, after := PromptContextMessages(messages, Some(summary)),
      PromptContextMessages(PruneMessages(messages, from), Some(summary));
    PrunedContext(messages, summary);
    LostFromContext(messages, summary);
    RetainedAssistantsAreKept(messages, summary);
    PrunedResults(before, toolCalls, from);
    FilterAll(before, Kept(from));
    var itemsBefore := UnsortedItems(messages, toolCalls, Some(summary));
    var itemsAfter := UnsortedItems(PruneMessages(messages, from), PruneToolCalls(toolCalls, from), Some(summary));
    SortIsPermutation(itemsBefore, ItemLe);
    SortIsPermutation(itemsAfter, ItemLe);
    var straddling := exists m :: m in messages.Values() && Straddles(m, from);
    var late := exists t :: t in toolCalls.Values() && LateAnswer(before, t, from);
    if !straddling && !late {
      assert after == before;
      assert itemsAfter == itemsBefore;
    } else {
      assert |itemsAfter| < |itemsBefore|;
    }
  }

  /**
   * The prompt of the state after a rebase is the prompt of the state before it under the same new
   * summary, exactly when no uncancelled user message straddles the cursor and no retained
   * assistant's call ended before it.
   */
  lemma {:induction false} RebasePreservesPromptExactly(r: Replay, e: Committed, summary: Summary)
    requires e.event.payload.ContextRebased?
    requires e.event.payload.retainedFromContextSeq == summary.retainedFromContextSeq
    ensures var from, next := summary.retainedFromContextSeq, Apply(r, e);
            ProjectedMessages(next.messages, next.toolCalls, Some(summary))
              == ProjectedMessages(r.messages, r.toolCalls, Some(summary))
            <==> && (forall m :: m in r.messages.Values() ==> !Straddles(m, from))
                 && (forall t :: t in r.toolCalls.Values() ==>
                   !LateAnswer(PromptContextMessages(r.messages, Some(summary)), t, from))
  {
    PruningPreservesPromptExactly(r.messages, r.toolCalls, summary);
    RebaseIsPruning(r, e);
  }

  lemma {:induction false} RebaseIsPruning(r: Replay, e: Committed)
    requires e.event.payload.ContextRebased?
    ensures Apply(r, e).messages == PruneMessages(r.messages, e.event.payload.retainedFromContextSeq)
    ensures Apply(r, e).toolCalls == PruneToolCalls(r.toolCalls, e.event.payload.retainedFromContextSeq)
  {
  }

  /** The messages of a log that submits one message and then consumes it. */
  lemma {:induction false} SubmittedThenConsumed(submitted: Committed, consumed: Committed)
    requires submitted.at == 1 && submitted.event.payload == UserMessageSubmitted("c", "m", Queue, "hello")
    requires consumed.at == 2 && consumed.event.payload == TurnStarted("r", "t", ["m"])
    ensures var m := FoldMessages(Empty, [submitted, consumed]).Get("m"); m.Some? && Straddles(m.value, 2)
  {
    var messages := ApplyMessages(Empty, submitted);
    assert messages == Empty.Set("m", NewMessage(submitted).value);
    assert ["m"][..0] == [];
    assert ConsumeMessages(messages, [], 2, "t") == messages;
    UnfoldMessages(Empty, submitted, consumed, consumed);
  }

  /** A message submitted before the cursor and consumed at it is lost by the rebase. */
  lemma {:induction false} StraddlingMessageIsLost(
      submitted: Committed, consumed: Committed, rebased: Committed, summary: Summary)
    requires submitted.at == 1 && submitted.event.payload == UserMessageSubmitted("c", "m", Queue, "hello")
    requires consumed.at == 2 && consumed.event.payload == TurnStarted("r", "t", ["m"])
    requires rebased.event.payload.ContextRebased? && rebased.event.payload.retainedFromContextSeq == 2
    requires summary.retainedFromContextSeq == 2
    ensures var r := FoldReplay(GENESIS, [submitted, consumed]);
            var next := Apply(r, rebased);
            ProjectedMessages(next.messages, next.toolCalls, Some(summary)) != ProjectedMessages(r.messages,
              r.toolCalls, Some(summary))
  {
    SubmittedThenConsumed(submitted, consumed);
    FoldByMap(GENESIS, [submitted, consumed]);
    var r := FoldReplay(GENESIS, [submitted, consumed]);
    assert r.messages.Get("m").value in r.messages.Values();
    RebasePreservesPromptExactly(r, rebased, summary);
  }

  /** A call decided and completed before the message of its inference is recorded. */
  predicate AnswersEarly(created: Committed, completed: Committed, spoken: Committed) {
    var p, q, n := created.event.payload, completed.event.payload, spoken.event.payload;
    && created.at == 1 && completed.at == 2 && spoken.at == 3
    && p.ToolCallCreated? && q.ToolCallCompleted? && q.toolCallId == p.toolCallId
    && n.AssistantMessageCommitted? && n.inferenceId == p.inferenceId
  }

  lemma {:induction false} OnlyToolCallsBefore(created: Committed, completed: Committed, spoken: Committed)
    requires created.event.payload.ToolCallCreated? && completed.event.payload.ToolCallCompleted?
    ensures FoldMessages(Empty, [created, completed, spoken]) == ApplyMessages(Empty, spoken)
  {
    UnfoldMessages(Empty, created, completed, spoken);
    ToolCallsLeaveMessages(Empty, created);
    ToolCallsLeaveMessages(Empty, completed);
  }

  lemma {:induction false} CalledFirst(created: Committed, completed: Committed, spoken: Committed)
    requires spoken.event.payload.AssistantMessageCommitted?
    ensures FoldToolCalls(Empty, [created, completed, spoken])
            == ApplyToolCalls(ApplyToolCalls(Empty, created), completed)
  {
    UnfoldToolCalls(Empty, created, completed, spoken);
    MessageStored(Empty, FoldToolCalls(Empty, [created, completed]), spoken);
  }

  lemma {:induction false} AnswerIsEarly(created: Committed, completed: Committed)
    requires created.event.payload.ToolCallCreated? && completed.at == 2 && completed.event.payload.ToolCallCompleted?
    requires completed.event.payload.toolCallId == created.event.payload.toolCallId
    ensures var t := ApplyToolCalls(ApplyToolCalls(Empty, created), completed).Get(created.event.payload.toolCallId);
            t.Some? && !KeptToolCall(t.value, 3) && AnswerOf(t.value).Some?
              && t.value.decision.value.meta.inferenceId == created.event.payload.inferenceId
  {
    assert ApplyToolCalls(Empty, created).Has(created.event.payload.toolCallId);
  }

  lemma {:induction false} OnlyMessage(messages: Messages, m: MessageRecord, summary: Summary)
    requires messages.Values() == [m] && IsAssistant(m) && summary.retainedFromContextSeq <= m.meta.at
    ensures PromptContextMessages(messages, Some(summary)) == [m]
  {
    var one := [m];
    assert one[1..] == [];
    assert Filter(one, IsDurableTranscriptMessage) == one;
    assert StableSort(one, TranscriptOrder) == one;
    assert Filter(one, RetainedForPrompt(summary.retainedFromContextSeq)) == one;
    assert Find(one, IsSystem) == None;
  }

  lemma {:induction false} EarlyAnswerIsLate(
      messages: Messages, toolCalls: ToolCalls, created: Committed, completed: Committed, spoken: Committed,
      summary: Summary)
    requires AnswersEarly(created, completed, spoken) && summary.retainedFromContextSeq == 3
    requires messages == Empty.Set(spoken.event.payload.messageId, NewMessage(spoken).value)
    requires toolCalls == ApplyToolCalls(ApplyToolCalls(Empty, created), completed)
    ensures exists t :: t in toolCalls.Values() && LateAnswer(PromptContextMessages(messages, Some(summary)), t, 3)
  {
    var m := NewMessage(spoken).value;
    AnswerIsEarly(created, completed);
    assert messages.Values() == [m];
    OnlyMessage(messages, m, summary);
    assert AssistantOf([m], m.meta.inferenceId) == Some(m);
    var t := toolCalls.Get(created.event.payload.toolCallId).value;
    assert t in toolCalls.Values() && LateAnswer([m], t, 3);
  }

  /** A result recorded before the cursor is lost by the rebase although the message it answers is retained. */
  lemma {:induction false} EarlyAnswerIsLost(
      created: Committed, completed: Committed, spoken: Committed, rebased: Committed, summary: Summary)
    requires AnswersEarly(created, completed, spoken)
    requires rebased.event.payload.ContextRebased? && rebased.event.payload.retainedFromContextSeq == 3
    requires summary.retainedFromContextSeq == 3
    ensures var r := FoldReplay(GENESIS, [created, completed, spoken]);
            var next := Apply(r, rebased);
            ProjectedMessages(next.messages, next.toolCalls, Some(summary)) != ProjectedMessages(r.messages,
              r.toolCalls, Some(summary))
  {
    var r := FoldReplay(GENESIS, [created, completed, spoken]);
    FoldByMap(GENESIS, [created, completed, spoken]);
    OnlyToolCallsBefore(created, completed, spoken);
    MessageStored(Empty, Empty, spoken);
    CalledFirst(created, completed, spoken);
    EarlyAnswerIsLate(r.messages, r.toolCalls, created, completed, spoken, summary);
    RebasePreservesPromptExactly(r, rebased, summary);
  }
}
