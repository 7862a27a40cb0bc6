/** When the projected prompt is well paired, and when a context rebase leaves it unchanged. */
module PromptProperties {
  import opened Collections
  import opened Events
  import opened Records
  import opened CommandQueues
  import opened ReducedState
  import opened ReplayInvariants
  import opened QueueProperties
  import opened Checkpoint
  import opened PromptProjection

  // ---------------------------------------------------------------------------
  // What holds of every folded log
  // ---------------------------------------------------------------------------

  ghost predicate ConsumedByTurn(m: MessageRecord, log: seq<Committed>) {
    m.meta.Authored() && m.meta.life.consumedSeq.Some? ==>
      InLog(m.meta.life.consumedSeq.value, log) && log[m.meta.life.consumedSeq.value - 1].event.payload.TurnStarted?
  }

  ghost predicate AllConsumedByTurns(messages: Messages, log: seq<Committed>) {
    forall id :: messages.Has(id) ==> ConsumedByTurn(messages.Get(id).value, log)
  }

  lemma {:induction false} ApplyKeepsConsumption(messages: Messages, log: seq<Committed>, e: Committed)
    requires AllConsumedByTurns(messages, log)
    requires e.at == |log| + 1
    ensures AllConsumedByTurns(ApplyMessages(messages, e), log + [e])
  {
    MessagesEvolve(messages, e);
    var n := ApplyMessages(messages, e);
    forall id | n.Has(id) ensures ConsumedByTurn(n.Get(id).value, log + [e]) {
      if !(NewMessage(e).Some? && NewMessage(e).value.meta.messageId == id) {
        assert ConsumedByTurn(messages.Get(id).value, log);
      }
    }
  }

  /** A consumed message was consumed by a turn that started at that position. */
  lemma {:induction false} FoldKeepsConsumption(log: seq<Committed>)
    requires Dense(log, 0)
    ensures AllConsumedByTurns(FoldReplay(GENESIS, log).messages, log)
  {
    if log != [] {
      var front := log[..|log| - 1];
      FoldKeepsConsumption(front);
      ApplyKeepsConsumption(FoldReplay(GENESIS, front).messages, front, log[|log| - 1]);
      assert front + [log[|log| - 1]] == log;
    }
  }

  /** Only assistant messages have assistant bodies. */
  predicate WellBodied(m: MessageRecord) {
    m.body.AssistantContent? <==> IsAssistant(m)
  }

  /** A committed assistant message never shares its position with another transcript message. */
  ghost predicate SeparateAssistants(ms: seq<MessageRecord>) {
    forall a, b :: a in ms && b in ms && IsAssistant(a) && !b.meta.System? && TranscriptSeq(b) == TranscriptSeq(a) ==>
      a == b
  }

  lemma {:induction false} PointersSeparateAssistants(messages: Messages, log: seq<Committed>)
    requires MessagesKeyed(messages) && MessagePointers(messages, log) && AllConsumedByTurns(messages, log)
    ensures SeparateAssistants(messages.Values())
    ensures forall m :: m in messages.Values() ==> WellBodied(m)
  {
    forall m | m in messages.Values() ensures WellBodied(m) {
      var k := ValueHasKey(messages, m);
      assert MessagePointer(m, k, log);
    }
    forall a, b | a in messages.Values() && b in messages.Values() && IsAssistant(a) && !b.meta.System?
      && TranscriptSeq(b) == TranscriptSeq(a)
      ensures a == b
    {
      var j := ValueHasKey(messages, a);
      var k := ValueHasKey(messages, b);
      assert MessagePointer(a, j, log) && MessagePointer(b, k, log) && ConsumedByTurn(b, log);
    }
  }

  // ---------------------------------------------------------------------------
  // Context messages
  // ---------------------------------------------------------------------------

  /** Each context message is in the map, and none is listed twice. */
  lemma {:induction false} ContextMessagesDistinct(messages: Messages, summary: Option<Summary>)
    requires MessagesKeyed(messages)
    ensures DistinctBy(PromptContextMessages(messages, summary), RecordId)
    ensures forall m :: m in PromptContextMessages(messages, summary) ==> m in messages.Values()
  {
    var durable := Filter(messages.Values(), IsDurableTranscriptMessage);
    ValuesDistinct(messages, RecordId);
    FilterKeepsDistinct(messages.Values(), IsDurableTranscriptMessage, RecordId);
    SortKeepsDistinct(durable, TranscriptOrder, RecordId);
    SortIsPermutation(durable, TranscriptOrder);
    SameElements(StableSort(durable, TranscriptOrder), durable);
    var sorted, keep := DurableMessageTranscript(messages), RetainedForPrompt(RetainedFrom(summary));
    FilterKeepsDistinct(sorted, keep, RecordId);
    var system := Find(messages.Values(), IsSystem);
    if system.Some? {
      forall m | m in Filter(sorted, keep) ensures RecordId(m) != RecordId(system.value) {
        assert m in durable;
      }
      DistinctJoin([system.value], Filter(sorted, keep), RecordId);
    }
  }

  lemma {:induction false} AssistantOfFinds(context: seq<MessageRecord>, id: InferenceId)
    ensures var r := AssistantOf(context, id);
            && (r.Some? ==> r.value in context && IsAssistant(r.value) && r.value.meta.inferenceId == id)
            && (r.None? ==> forall a :: a in context && IsAssistant(a) ==> a.meta.inferenceId != id)
  {
    if context != [] {
      AssistantOfFinds(context[..|context| - 1], id);
      assert context == context[..|context| - 1] + [context[|context| - 1]];
    }
  }

  // ---------------------------------------------------------------------------
  // Items
  // ---------------------------------------------------------------------------

  datatype ItemKey = MessageKey(messageId: MessageId) | SummaryKey | ResultKey(toolCallId: ToolCallId)

  function KeyOf(item: Item): ItemKey {
    match item
    case MessageItem(_, m) => MessageKey(m.meta.messageId)
    case SummaryItem(_, _) => SummaryKey
    case ResultItem(_, id, _) => ResultKey(id)
  }

  function ToolCallId(t: ToolCallRecord): ToolCallId {
    t.toolCallId
  }

  function ToolItemKey(t: ToolCallRecord): ItemKey {
    ResultKey(t.toolCallId)
  }

  ghost predicate ToolCallsKeyed(m: ToolCalls) {
    forall id :: m.Has(id) ==> m.Get(id).value.toolCallId == id
  }

  /** No message and no tool call yields two items. */
  lemma {:induction false} ItemsDistinct(messages: Messages, toolCalls: ToolCalls, summary: Option<Summary>)
    requires MessagesKeyed(messages) && ToolCallsKeyed(toolCalls)
    ensures DistinctBy(PromptTranscriptItems(messages, toolCalls, summary), KeyOf)
  {
    var context := PromptContextMessages(messages, summary);
    var messageItems := MapSeq(context, ToMessageItem);
    var results := FilterMap(toolCalls.Values(), ToResultItem(context));
    ContextMessagesDistinct(messages, summary);
    MessageItemsDistinct(context);
    ToolCallsDistinct(toolCalls);
    FilterMapKeepsDistinct(toolCalls.Values(), ToResultItem(context), ToolItemKey, KeyOf);
    DistinctJoin(messageItems, SummaryItems(summary), KeyOf);
    DistinctJoin(messageItems + SummaryItems(summary), results, KeyOf);
    SortKeepsDistinct(UnsortedItems(messages, toolCalls, summary), ItemLe, KeyOf);
  }

  lemma {:induction false} MessageItemsDistinct(context: seq<MessageRecord>)
    requires DistinctBy(context, RecordId)
    ensures DistinctBy(MapSeq(context, ToMessageItem), KeyOf)
  {
    var items := MapSeq(context, ToMessageItem);
    forall i, j | 0 <= i < j < |items| ensures KeyOf(items[i]) != KeyOf(items[j]) {
      assert RecordId(context[i]) != RecordId(context[j]);
    }
  }

  lemma {:induction false} ToolCallsDistinct(toolCalls: ToolCalls)
    requires ToolCallsKeyed(toolCalls)
    ensures DistinctBy(toolCalls.Values(), ToolItemKey)
  {
    ValuesDistinct(toolCalls, ToolCallId);
    var vs := toolCalls.Values();
    forall i, j | 0 <= i < j < |vs| ensures ToolItemKey(vs[i]) != ToolItemKey(vs[j]) {
      assert ToolCallId(vs[i]) != ToolCallId(vs[j]);
    }
  }

  lemma {:induction false} InMapSeq<T, U>(xs: seq<T>, f: T -> U, y: U)
    ensures y in MapSeq(xs, f) <==> exists x :: x in xs && f(x) == y
  {
    var ys := MapSeq(xs, f);
    if y in ys {
      var i :| 0 <= i < |ys| && ys[i] == y;
      assert xs[i] in xs;
    }
    if x :| x in xs && f(x) == y {
      var i :| 0 <= i < |xs| && xs[i] == x;
      assert ys[i] == y;
    }
  }

  /** An item comes from a context message, the summary or the answer of a retained assistant's call. */
  ghost predicate Yields(context: seq<MessageRecord>, toolCalls: ToolCalls, summary: Option<Summary>, item: Item) {
    || (exists m :: m in context && ToMessageItem(m) == item)
    || item in SummaryItems(summary)
    || (exists t :: t in toolCalls.Values() && ToResultItem(context)(t) == Some(item))
  }

  lemma {:induction false} InFilterMap<T(!new), U(!new)>(xs: seq<T>, f: T -> Option<U>, y: U)
    ensures y in FilterMap(xs, f) <==> exists x :: x in xs && f(x) == Some(y)
  {
    if x :| x in xs && f(x) == Some(y) {
      assert f(x).Some?;
    }
  }

  lemma {:induction false} UnsortedMembership(
      messages: Messages, toolCalls: ToolCalls, summary: Option<Summary>, item: Item)
    ensures item in UnsortedItems(messages, toolCalls, summary)
            <==> Yields(PromptContextMessages(messages, summary), toolCalls, summary, item)
  {
    var context := PromptContextMessages(messages, summary);
    InMapSeq(context, ToMessageItem, item);
    InFilterMap(toolCalls.Values(), ToResultItem(context), item);
    var a, b, c := MapSeq(context, ToMessageItem), SummaryItems(summary),
      FilterMap(toolCalls.Values(), ToResultItem(context));
    assert item in a + b + c <==> item in a || item in b || item in c;
  }

  lemma {:induction false} ItemMembership(
      messages: Messages, toolCalls: ToolCalls, summary: Option<Summary>, item: Item)
    ensures item in PromptTranscriptItems(messages, toolCalls, summary)
            <==> Yields(PromptContextMessages(messages, summary), toolCalls, summary, item)
  {
    var unsorted := UnsortedItems(messages, toolCalls, summary);
    SortIsPermutation(unsorted, ItemLe);
    SameElements(StableSort(unsorted, ItemLe), unsorted);
    UnsortedMembership(messages, toolCalls, summary, item);
  }

  /** The items in order, and none but those the context yields. */
  ghost predicate Arranged(
      items: seq<Item>, context: seq<MessageRecord>, toolCalls: ToolCalls, summary: Option<Summary>) {
    && SortedBy(items, ItemLe)
    && forall item :: item in items <==> Yields(context, toolCalls, summary, item)
  }

  lemma {:induction false} OrderIsTotal()
    ensures TotalOrder(ItemLe)
  {
  }

  lemma {:induction false} ItemsAreArranged(messages: Messages, toolCalls: ToolCalls, summary: Option<Summary>)
    ensures Arranged(PromptTranscriptItems(messages, toolCalls, summary), PromptContextMessages(messages, summary),
            toolCalls, summary)
  {
    OrderIsTotal();
    SortIsSorted(UnsortedItems(messages, toolCalls, summary), ItemLe);
    forall item ensures item in PromptTranscriptItems(messages, toolCalls, summary)
                        <==> Yields(PromptContextMessages(messages, summary), toolCalls, summary, item) {
      ItemMembership(messages, toolCalls, summary, item);
    }
  }

  // ---------------------------------------------------------------------------
  // Results sort right after their assistant
  // ---------------------------------------------------------------------------

  const CALL_LIMIT := 900

  /** No tool-call part sits at the index where its result would reach the next position. */
  ghost predicate CallsBelowLimit(context: seq<MessageRecord>) {
    forall a, i :: a in context && IsAssistant(a) && CALL_LIMIT <= i < |PartsOf(a)| ==> !PartsOf(a)[i].ToolCall?
  }

  lemma {:induction false} CallIndexBelow(parts: seq<PromptPart>, id: ProviderPartId, limit: nat)
    requires limit > 0 && forall i :: limit <= i < |parts| ==> !parts[i].ToolCall?
    ensures CallIndex(parts, id) < limit
  {
    if parts != [] {
      CallIndexBelow(parts[..|parts| - 1], id, limit);
    }
  }

  /** A result sorts strictly between the assistant message and the next position. */
  lemma {:induction false} ResultFollowsAssistant(context: seq<MessageRecord>, t: ToolCallRecord)
    requires CallsBelowLimit(context)
    requires ToResultItem(context)(t).Some?
    ensures var a := AssistantOf(context, t.decision.value.meta.inferenceId).value;
            var order := ToResultItem(context)(t).value.order;
            && a in context && IsAssistant(a)
            && order.At? && TranscriptSeq(a) as real < order.position < TranscriptSeq(a) as real + 1.0
  {
    var id := t.decision.value.meta.inferenceId;
    AssistantOfFinds(context, id);
    CallIndexBelow(PartsOf(AssistantOf(context, id).value), t.decision.value.meta.providerPartId, CALL_LIMIT);
  }

  /** At the limit the result reaches the position after its assistant. */
  lemma {:induction false} CallAtLimitReachesNext(a: MessageRecord, id: ProviderPartId)
    requires CallIndex(PartsOf(a), id) == CALL_LIMIT
    ensures SyntheticToolResultOrder(a, id) == At(TranscriptSeq(a) as real + 1.0)
  {
  }

  lemma {:induction false} EarlierOrNotBelow(items: seq<Item>, j: nat, k: nat)
    requires SortedBy(items, ItemLe) && j < |items| && k < |items|
    ensures k < j || ItemLe(items[j], items[k])
  {
  }

  /** From an assistant message up to anything sorting below the next position there are only tool results. */
  lemma {:induction false} OnlyResultsBetween(
      items: seq<Item>, context: seq<MessageRecord>, toolCalls: ToolCalls, summary: Option<Summary>, i: nat, j: nat,
      k: nat)
    requires Arranged(items, context, toolCalls, summary) && SeparateAssistants(context)
    requires i < k <= j < |items|
    requires items[i].MessageItem? && IsAssistant(items[i].message)
    requires items[j].order.At? && items[j].order.position < TranscriptSeq(items[i].message) as real + 1.0
    ensures items[k].ResultItem? || KeyOf(items[k]) == KeyOf(items[i])
  {
    assert items[i] in items && items[k] in items;
    assert Yields(context, toolCalls, summary, items[i]) && Yields(context, toolCalls, summary, items[k]);
    assert ItemLe(items[i], items[k]) && (k < j ==> ItemLe(items[k], items[j]));
    if items[k].MessageItem? {
      assert TranscriptSeq(items[k].message) == TranscriptSeq(items[i].message);
    }
  }

  ghost predicate AnsweredBy(t: ToolCallRecord, a: MessageRecord, id: ProviderPartId)
    requires IsAssistant(a)
  {
    && t.decision.Some? && t.decision.value.meta.inferenceId == a.meta.inferenceId
    && AnswerOf(t).Some? && AnswerOf(t).value.id == id
  }

  /**
   * Every framework call of a retained assistant has an answer carrying its id, and that assistant is the
   * last one retained of its inference, behind which the answers of the inference sort.
   */
  ghost predicate AnsweredInPlace(context: seq<MessageRecord>, toolCalls: ToolCalls) {
    forall a, part :: a in context && IsAssistant(a) && part in PartsOf(a) && FrameworkCall(part) ==>
      && AssistantOf(context, a.meta.inferenceId) == Some(a)
      && exists t :: t in toolCalls.Values() && AnsweredBy(t, a, part.call.id)
  }

  /** The answer of a retained call, and where it sorts. */
  lemma {:induction false} AnswerOfCall(
      context: seq<MessageRecord>, toolCalls: ToolCalls, summary: Option<Summary>, a: MessageRecord, part: PromptPart)
    returns (answer: Item)
    requires AnsweredInPlace(context, toolCalls) && CallsBelowLimit(context)
    requires a in context && IsAssistant(a) && part in PartsOf(a) && FrameworkCall(part)
    ensures Yields(context, toolCalls, summary, answer)
    ensures answer.ResultItem? && answer.result.id == part.call.id
    ensures answer.order.At? && TranscriptSeq(a) as real < answer.order.position < TranscriptSeq(a) as real + 1.0
  {
    var t :| t in toolCalls.Values() && AnsweredBy(t, a, part.call.id);
    ResultFollowsAssistant(context, t);
    answer := ToResultItem(context)(t).value;
  }

  /** One call among the items is answered by the results right after it. */
  lemma {:induction false} CallIsAnswered(items: seq<Item>, context: seq<MessageRecord>, toolCalls: ToolCalls,
    summary: Option<Summary>,
                       i: nat, part: PromptPart) returns (j: nat)
    requires Arranged(items, context, toolCalls, summary) && DistinctBy(items, KeyOf) && SeparateAssistants(context)
    requires AnsweredInPlace(context, toolCalls) && CallsBelowLimit(context)
    requires i < |items| && items[i].MessageItem? && IsAssistant(items[i].message)
    requires part in PartsOf(items[i].message) && FrameworkCall(part)
    ensures i < j < |items| && items[j].ResultItem? && items[j].result.id == part.call.id
    ensures forall k :: i < k <= j ==> items[k].ResultItem?
  {
    assert items[i] in items && Yields(context, toolCalls, summary, items[i]);
    var a := items[i].message;
    var answer := AnswerOfCall(context, toolCalls, summary, a, part);
    j :| 0 <= j < |items| && items[j] == answer;
    EarlierOrNotBelow(items, j, i);
    forall k | i < k <= j ensures items[k].ResultItem? {
      OnlyResultsBetween(items, context, toolCalls, summary, i, j, k);
      assert KeyOf(items[i]) != KeyOf(items[k]);
    }
  }

  /** Only an assistant message's own parts make framework calls. */
  lemma {:induction false} CallComesFromParts(item: Item, id: ProviderPartId) returns (part: PromptPart)
    requires Calls(ToPromptMessage(item), id)
    requires item.MessageItem? ==> WellBodied(item.message)
    ensures item.MessageItem? && IsAssistant(item.message)
    ensures part in PartsOf(item.message) && FrameworkCall(part) && part.call.id == id
  {
    part :| part in ToPromptMessage(item).parts && FrameworkCall(part) && part.call.id == id;
  }

  lemma {:induction false} ArrangedIsPaired(
      items: seq<Item>, context: seq<MessageRecord>, toolCalls: ToolCalls, summary: Option<Summary>)
    requires Arranged(items, context, toolCalls, summary) && DistinctBy(items, KeyOf) && SeparateAssistants(context)
    requires AnsweredInPlace(context, toolCalls) && CallsBelowLimit(context)
    requires forall m :: m in context ==> WellBodied(m)
    ensures Paired(MapSeq(items, ToPromptMessage))
  {
    var prompt := MapSeq(items, ToPromptMessage);
    forall i, id {:trigger Calls(prompt[i], id)} | 0 <= i < |prompt| && Calls(prompt[i], id)
      ensures exists j :: i < j < |prompt| && AnsweredAt(prompt, i, j, id)
    {
      assert items[i] in items && Yields(context, toolCalls, summary, items[i]);
      var part := CallComesFromParts(items[i], id);
      var j := CallIsAnswered(items, context, toolCalls, summary, i, part);
      assert items[j].result in prompt[j].results;
      assert AnsweredAt(prompt, i, j, id);
    }
  }

  /** A result standing right behind an assistant message answers a call of that assistant's inference. */
  lemma {:induction false} ResultIsInPlace(items: seq<Item>, context: seq<MessageRecord>, toolCalls: ToolCalls,
    summary: Option<Summary>,
                         i: nat, j: nat, t: ToolCallRecord)
    requires Arranged(items, context, toolCalls, summary) && SeparateAssistants(context) && CallsBelowLimit(context)
    requires i < j < |items| && items[i].MessageItem? && IsAssistant(items[i].message)
    requires forall k :: i < k <= j ==> items[k].ResultItem?
    requires ToResultItem(context)(t) == Some(items[j])
    ensures AssistantOf(context, t.decision.value.meta.inferenceId) == Some(items[i].message)
  {
    ResultFollowsAssistant(context, t);
    var a, b := items[i].message, AssistantOf(context, t.decision.value.meta.inferenceId).value;
    assert items[i] in items && Yields(context, toolCalls, summary, items[i]);
    assert Yields(context, toolCalls, summary, ToMessageItem(b));
    var k :| 0 <= k < |items| && items[k] == ToMessageItem(b);
    EarlierOrNotBelow(items, j, k);
    EarlierOrNotBelow(items, k, i);
    EarlierOrNotBelow(items, i, j);
  }

  lemma {:induction false} PairedCallIsAnswered(items: seq<Item>, context: seq<MessageRecord>, toolCalls: ToolCalls,
    summary: Option<Summary>,
                              i: nat, j: nat, id: ProviderPartId)
    requires Arranged(items, context, toolCalls, summary) && SeparateAssistants(context) && CallsBelowLimit(context)
    requires forall m :: m in context ==> WellBodied(m)
    requires i < j < |items| && items[i].MessageItem? && IsAssistant(items[i].message)
    requires AnsweredAt(MapSeq(items, ToPromptMessage), i, j, id)
    ensures var a := items[i].message;
            AssistantOf(context, a.meta.inferenceId) == Some(a) && exists t ::
              t in toolCalls.Values()
              && AnsweredBy(t, a, id)
  {
    var prompt := MapSeq(items, ToPromptMessage);
    forall k | i < k <= j ensures items[k].ResultItem? {
      assert prompt[k].ToolPrompt? && items[k] in items && Yields(context, toolCalls, summary, items[k]);
    }
    assert items[j] in items && Yields(context, toolCalls, summary, items[j]);
    var t :| t in toolCalls.Values() && ToResultItem(context)(t) == Some(items[j]);
    ResultIsInPlace(items, context, toolCalls, summary, i, j, t);
    AssistantOfFinds(context, t.decision.value.meta.inferenceId);
    assert AnsweredBy(t, items[i].message, id);
  }

  lemma {:induction false} PairedIsAnswered(
      items: seq<Item>, context: seq<MessageRecord>, toolCalls: ToolCalls, summary: Option<Summary>)
    requires Arranged(items, context, toolCalls, summary) && SeparateAssistants(context) && CallsBelowLimit(context)
    requires forall m :: m in context ==> WellBodied(m)
    requires Paired(MapSeq(items, ToPromptMessage))
    ensures AnsweredInPlace(context, toolCalls)
  {
    var prompt := MapSeq(items, ToPromptMessage);
    forall a, part | a in context && IsAssistant(a) && part in PartsOf(a) && FrameworkCall(part)
      ensures AssistantOf(context, a.meta.inferenceId) == Some(a) && exists t ::
              t in toolCalls.Values()
              && AnsweredBy(t, a, part.call.id)
    {
      assert Yields(context, toolCalls, summary, ToMessageItem(a));
      var i :| 0 <= i < |items| && items[i] == ToMessageItem(a);
      assert Calls(prompt[i], part.call.id);
      var j :| i < j < |prompt| && AnsweredAt(prompt, i, j, part.call.id);
      PairedCallIsAnswered(items, context, toolCalls, summary, i, j, part.call.id);
    }
  }

  /**
   * With call indices below the limit, the projection of a folded log passes its pairing check exactly
   * when every retained framework call is answered and stands in the last retained message of its inference.
   */
  lemma {:induction false} ProjectionPairedExactly(log: seq<Committed>, summary: Option<Summary>)
    requires Dense(log, 0)
    requires CallsBelowLimit(PromptContextMessages(FoldReplay(GENESIS, log).messages, summary))
    ensures var r := FoldReplay(GENESIS, log);
            Paired(ProjectedMessages(r.messages, r.toolCalls, summary))
            <==> AnsweredInPlace(PromptContextMessages(r.messages, summary), r.toolCalls)
  {
    var r := FoldReplay(GENESIS, log);
    FoldKeepsKeys(log);
    FoldKeepsPointers(log);
    FoldKeepsConsumption(log);
    PointersSeparateAssistants(r.messages, log);
    PairedExactly(r.messages, r.toolCalls, summary);
  }

  lemma {:induction false} PairedExactly(messages: Messages, toolCalls: ToolCalls, summary: Option<Summary>)
    requires MessagesKeyed(messages) && ToolCallsKeyed(toolCalls) && SeparateAssistants(messages.Values())
    requires forall m :: m in messages.Values() ==> WellBodied(m)
    requires CallsBelowLimit(PromptContextMessages(messages, summary))
    ensures Paired(ProjectedMessages(messages, toolCalls, summary)) <==>
            AnsweredInPlace(PromptContextMessages(messages, summary), toolCalls)
  {
    var context, items := PromptContextMessages(messages, summary), PromptTranscriptItems(messages, toolCalls, summary);
    ContextMessagesDistinct(messages, summary);
    ItemsAreArranged(messages, toolCalls, summary);
    ItemsDistinct(messages, toolCalls, summary);
    if AnsweredInPlace(context, toolCalls) {
      ArrangedIsPaired(items, context, toolCalls, summary);
    }
    if Paired(MapSeq(items, ToPromptMessage)) {
      PairedIsAnswered(items, context, toolCalls, summary);
    }
  }

  /** One inference makes a framework call, has it rejected, and then says something more. */
  predicate SpeaksTwice(spoken: Committed, rejected: Committed, again: Committed) {
    var p, q, n := spoken.event.payload, rejected.event.payload, again.event.payload;
    && spoken.at == 1 && rejected.at == 2 && again.at == 3
    && p.AssistantMessageCommitted? && |p.parts| == 1 && FrameworkCall(p.parts[0])
    && q.ToolCallRejected? && q.inferenceId == p.inferenceId && q.feedback.id == p.parts[0].call.id
    && n.AssistantMessageCommitted? && n.inferenceId == p.inferenceId && n.parts == [] && n.messageId != p.messageId
  }

  lemma {:induction false} TwoEntries(a: MessageId, first: MessageRecord, b: MessageId, second: MessageRecord)
    requires a != b
    ensures var one: Messages := Empty.Set(a, first);
            one.Set(b, second).Get(a) == Some(first) && one.Set(b, second).Values() == [first, second]
  {
    var one, last: OMap<MessageId, MessageRecord> := Empty.Set(a, first), Entry(b, second, Empty);
    assert one == Entry(a, first, Empty) && one.Set(b, second) == Entry(a, first, last);
    assert last.Values() == [second];
  }

  lemma {:induction false} SpokenTwice(spoken: Committed, rejected: Committed, again: Committed)
    requires SpeaksTwice(spoken, rejected, again)
    ensures FoldMessages(Empty, [spoken, rejected, again])
            == Empty.Set(spoken.event.payload.messageId, NewMessage(spoken).value).Set(again.event.payload.messageId,
              NewMessage(again).value)
    ensures FoldToolCalls(Empty, [spoken, rejected, again]) == ApplyToolCalls(Empty, rejected)
  {
    MessageStored(Empty, Empty, spoken);
    ToolCallsLeaveMessages(ApplyMessages(Empty, spoken), rejected);
    MessageStored(ApplyMessages(Empty, spoken), ApplyToolCalls(Empty, rejected), again);
    UnfoldMessages(Empty, spoken, rejected, again);
    UnfoldToolCalls(Empty, spoken, rejected, again);
  }

  lemma {:induction false} SpokenTwiceKeyed(
      messages: Messages, toolCalls: ToolCalls, spoken: Committed, rejected: Committed, again: Committed)
    requires SpeaksTwice(spoken, rejected, again)
    requires messages == Empty.Set(spoken.event.payload.messageId, NewMessage(spoken).value)
                              .Set(again.event.payload.messageId, NewMessage(again).value)
    requires toolCalls == ApplyToolCalls(Empty, rejected)
    ensures MessagesKeyed(messages) && ToolCallsKeyed(toolCalls)
  {
  }

  lemma {:induction false} RejectionAnswers(spoken: Committed, rejected: Committed, again: Committed)
    requires SpeaksTwice(spoken, rejected, again)
    ensures IsAssistant(NewMessage(spoken).value)
    ensures var t := ApplyToolCalls(Empty, rejected).Get(rejected.event.payload.toolCallId);
            t.Some? && AnsweredBy(t.value, NewMessage(spoken).value, spoken.event.payload.parts[0].call.id)
  {
  }

  lemma {:induction false} SpokenTwiceUnpaired(
      messages: Messages, toolCalls: ToolCalls, spoken: Committed, rejected: Committed, again: Committed)
    requires SpeaksTwice(spoken, rejected, again)
    requires messages == Empty.Set(spoken.event.payload.messageId, NewMessage(spoken).value)
                              .Set(again.event.payload.messageId, NewMessage(again).value)
    requires toolCalls == ApplyToolCalls(Empty, rejected)
    ensures !Paired(ProjectedMessages(messages, toolCalls, None))
  {
    var first, second := NewMessage(spoken).value, NewMessage(again).value;
    TwoEntries(spoken.event.payload.messageId, first, again.event.payload.messageId, second);
    assert PartsOf(first) == [spoken.event.payload.parts[0]];
    SpokenTwiceKeyed(messages, toolCalls, spoken, rejected, again);
    SecondMessageUnpairs(messages, toolCalls, first, second, spoken.event.payload.parts[0]);
  }

  /**
   * An answered call is still unpaired when a later message of its inference is retained: the answer
   * sorts behind that one.
   */
  lemma {:induction false} EarlierMessageOfInferenceUnpaired(spoken: Committed, rejected: Committed, again: Committed)
    requires SpeaksTwice(spoken, rejected, again)
    ensures var r := FoldReplay(GENESIS, [spoken, rejected, again]);
            var t, m := r.toolCalls.Get(rejected.event.payload.toolCallId),
              r.messages.Get(spoken.event.payload.messageId);
            && t.Some? && m.Some? && IsAssistant(m.value)
              && AnsweredBy(t.value, m.value, spoken.event.payload.parts[0].call.id)
            && !Paired(ProjectedMessages(r.messages, r.toolCalls, None))
  {
    var r := FoldReplay(GENESIS, [spoken, rejected, again]);
    FoldByMap(GENESIS, [spoken, rejected, again]);
    SpokenTwice(spoken, rejected, again);
    RejectionAnswers(spoken, rejected, again);
    SpokenTwiceUnpaired(r.messages, r.toolCalls, spoken, rejected, again);
  }

  lemma {:induction false} SecondMessageUnpairs(
      messages: Messages, toolCalls: ToolCalls, first: MessageRecord, second: MessageRecord, part: PromptPart)
    requires MessagesKeyed(messages) && ToolCallsKeyed(toolCalls) && messages.Values() == [first, second]
    requires IsAssistant(first) && IsAssistant(second) && first.meta.inferenceId == second.meta.inferenceId
    requires WellBodied(first) && WellBodied(second) && first.meta.at < second.meta.at
    requires PartsOf(first) == [part] && FrameworkCall(part) && PartsOf(second) == []
    ensures !Paired(ProjectedMessages(messages, toolCalls, None))
  {
    TwoMessages(messages, first, second);
    NotLastOfInference(first, second, toolCalls, part);
    assert forall m :: m in [first, second] ==> m == first || m == second;
    PairedExactly(messages, toolCalls, None);
  }

  lemma {:induction false} NotLastOfInference(
      first: MessageRecord, second: MessageRecord, toolCalls: ToolCalls, part: PromptPart)
    requires first != second && IsAssistant(first) && IsAssistant(second)
             && first.meta.inferenceId == second.meta.inferenceId
    requires part in PartsOf(first) && FrameworkCall(part)
    ensures !AnsweredInPlace([first, second], toolCalls)
  {
    assert [first, second][..1] == [first];
    assert AssistantOf([first, second], first.meta.inferenceId) == Some(second);
    assert first in [first, second];
  }

  lemma {:induction false} TwoMessages(messages: Messages, first: MessageRecord, second: MessageRecord)
    requires messages.Values() == [first, second] && IsAssistant(first) && IsAssistant(second)
    requires first.meta.at < second.meta.at
    ensures PromptContextMessages(messages, None) == [first, second]
  {
    var all := [first, second];
    FilterAll(all, IsDurableTranscriptMessage);
    assert all[1..] == [second] && [second][1..] == [];
    assert StableSort([second], TranscriptOrder) == [second];
    assert StableSort(all, TranscriptOrder) == all;
    FilterAll(all, RetainedForPrompt(0));
    assert Find([second], IsSystem) == None;
  }
}
