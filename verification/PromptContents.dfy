/** What the projected prompt says: who speaks in it, in which order, and with which words. */
module PromptContents {
  import opened Collections
  import opened Events
  import opened Records
  import opened CommandQueues
  import opened ReducedState
  import opened ReplayInvariants
  import opened Checkpoint
  import opened PromptProjection
  import opened PromptProperties
  import opened PromptRebase

  // ---------------------------------------------------------------------------
  // Who speaks
  // ---------------------------------------------------------------------------

  /** Where a message enters the transcript: at its consumption, or else where it was committed. */
  function EntersAt(m: MessageRecord): Seq {
    match m.meta
    case User(_, _, _, at, _, _, life) => if life.consumedSeq.Some? then life.consumedSeq.value else at
    case Steering(_, _, _, _, at, life) => if life.consumedSeq.Some? then life.consumedSeq.value else at
    case _ => m.meta.at
  }

  predicate EntersBefore(a: MessageRecord, b: MessageRecord) {
    EntersAt(a) < EntersAt(b) || (EntersAt(a) == EntersAt(b) && a.meta.at <= b.meta.at)
  }

  /** Not cancelled, and consumed unless it was committed without ever waiting; steering only once consumed. */
  function UserSpeaks(from: Seq): MessageRecord -> bool {
    (m: MessageRecord) =>
      match m.meta
      case User(_, _, _, at, requested, _, life) =>
        && life.cancelledSeq.None? && from <= EntersAt(m)
        && (requested.None? || life.consumedSeq.Some?)
      case Steering(_, _, _, _, _, life) => life.consumedSeq.Some? && from <= life.consumedSeq.value
      case _ => false
  }

  function AssistantSpeaks(from: Seq): MessageRecord -> bool {
    (m: MessageRecord) => (m.meta.Assistant? || m.meta.AssistantPartial?) && from <= m.meta.at
  }

  /** What the user and the assistant say in the prompt, in the order it enters. */
  function Conversation(messages: Messages, from: Seq): seq<MessageRecord> {
    StableSort(Filter(messages.Values(), Speaks(from)), EntersBefore)
  }

  function Speaks(from: Seq): MessageRecord -> bool {
    (m: MessageRecord) => UserSpeaks(from)(m) || AssistantSpeaks(from)(m)
  }

  function AssistantMessages(messages: Messages, from: Seq): seq<MessageRecord> {
    StableSort(Filter(messages.Values(), AssistantSpeaks(from)), EntersBefore)
  }

  function Spoken(m: MessageRecord): bool {
    !m.meta.System?
  }

  lemma {:induction false} SpeaksExactly(m: MessageRecord, from: Seq)
    ensures UserSpeaks(from)(m) || AssistantSpeaks(from)(m) <==> Retained(from)(m) && Spoken(m)
    ensures AssistantSpeaks(from)(m) <==> Retained(from)(m) && IsAssistant(m)
    ensures EntersAt(m) == TranscriptSeq(m)
  {
  }

  /** The messages of one kind among those retained, before any mapping. */
  lemma {:induction false} RetainedOfKind(
      messages: Messages, from: Seq, kind: MessageRecord -> bool, speaks: MessageRecord -> bool)
    requires forall m :: speaks(m) == (Retained(from)(m) && kind(m))
    ensures Filter(RetainedTranscript(messages, from), kind)
            == StableSort(Filter(messages.Values(), speaks), EntersBefore)
  {
    var vs := messages.Values();
    RetainedIsSortedFilter(vs, from);
    TranscriptOrderIsTotal();
    FilterOfSort(Filter(vs, Retained(from)), kind, TranscriptOrder);
    FilterTwice(vs, Retained(from), kind, speaks);
    forall x, y ensures TranscriptOrder(x, y) == EntersBefore(x, y) {
      SpeaksExactly(x, from);
      SpeaksExactly(y, from);
    }
    SortAgrees(Filter(vs, speaks), TranscriptOrder, EntersBefore);
  }

  /** The system message is none of them. */
  lemma {:induction false} ContextOfKind(
      messages: Messages, summary: Option<Summary>, kind: MessageRecord -> bool, speaks: MessageRecord -> bool)
    requires var from := RetainedFrom(summary);
             forall m :: speaks(m) == (Retained(from)(m) && kind(m))
    requires forall m: MessageRecord :: m.meta.System? ==> !kind(m)
    ensures Filter(PromptContextMessages(messages, summary), kind)
            == StableSort(Filter(messages.Values(), speaks), EntersBefore)
  {
    RetainedOfKind(messages, RetainedFrom(summary), kind, speaks);
    var retained, system := RetainedTranscript(messages, RetainedFrom(summary)), Find(messages.Values(), IsSystem);
    if system.Some? {
      FilterOfAppend([system.value], retained, kind);
      FilterNone([system.value], kind);
    }
  }

  // ---------------------------------------------------------------------------
  // Items of one kind
  // ---------------------------------------------------------------------------

  function MessageOfKind(kind: MessageRecord -> bool): Item -> bool {
    (item: Item) => item.MessageItem? && kind(item.message)
  }

  function Talk(item: Item): bool {
    item.SummaryItem? || (item.MessageItem? && Spoken(item.message))
  }

  /** The items of one kind, sorted among themselves. */
  lemma {:induction false} ItemsOfKind(
      messages: Messages, toolCalls: ToolCalls, summary: Option<Summary>, kind: Item -> bool,
      own: MessageRecord -> bool)
    requires forall m :: kind(ToMessageItem(m)) == own(m)
    ensures var context := PromptContextMessages(messages, summary);
            Filter(PromptTranscriptItems(messages, toolCalls, summary), kind)
            == StableSort(MapSeq(Filter(context, own), ToMessageItem) + Filter(SummaryItems(summary), kind)
                          + Filter(FilterMap(toolCalls.Values(), ToResultItem(context)), kind), ItemLe)
  {
    var context := PromptContextMessages(messages, summary);
    var results := FilterMap(toolCalls.Values(), ToResultItem(context));
    var said := MapSeq(context, ToMessageItem);
    OrderIsTotal();
    FilterOfSort(UnsortedItems(messages, toolCalls, summary), kind, ItemLe);
    FilterOfAppend(said + SummaryItems(summary), results, kind);
    FilterOfAppend(said, SummaryItems(summary), kind);
    FilterOfMap(context, ToMessageItem, kind, own);
  }

  lemma {:induction false} ResultsAreResults(messages: Messages, toolCalls: ToolCalls, summary: Option<Summary>)
    ensures forall item :: item in FilterMap(toolCalls.Values(), ToResultItem(PromptContextMessages(messages, summary)))
                           ==> item.ResultItem?
  {
  }

  /** Messages that are not the system's keep their order as items. */
  lemma {:induction false} SaidInOrder(ms: seq<MessageRecord>)
    requires SortedBy(ms, EntersBefore) && forall m :: m in ms ==> !m.meta.System?
    ensures SortedBy(MapSeq(ms, ToMessageItem), ItemLe)
  {
    var items := MapSeq(ms, ToMessageItem);
    forall i, j | 0 <= i < j < |items| ensures ItemLe(items[i], items[j]) {
      assert ms[i] in ms && ms[j] in ms && EntersBefore(ms[i], ms[j]);
      SpeaksExactly(ms[i], 0);
      SpeaksExactly(ms[j], 0);
    }
  }

  lemma {:induction false} EntersBeforeIsTotal()
    ensures TotalOrder(EntersBefore)
  {
  }

  // ---------------------------------------------------------------------------
  // What is said
  // ---------------------------------------------------------------------------

  function Said(p: PromptMessage): Option<PromptMessage> {
    if p.UserPrompt? || p.AssistantPrompt? then Some(p) else None
  }

  function SystemText(p: PromptMessage): Option<Json> {
    if p.SystemPrompt? then Some(p.content) else None
  }

  function ToolSaid(p: PromptMessage): Option<seq<ResultPart>> {
    if p.ToolPrompt? then Some(p.results) else None
  }

  function ContentOf(m: MessageRecord): Json {
    if m.body.Content? then m.body.content else ""
  }

  function ItemText(item: Item): Json {
    match item
    case SummaryItem(_, promptMessage) => promptMessage
    case MessageItem(_, m) => ContentOf(m)
    case ResultItem(_, _, _) => ""
  }

  /** An assistant's own parts, or else its reasoning and its text where there are any. */
  function SaidBy(m: MessageRecord): seq<PromptPart> {
    match m.body
    case AssistantContent(text, reasoning, parts) =>
      if parts.Some? then parts.value
      else if reasoning.Some? && text != "" then [ReasoningPart(reasoning.value), TextPart(text)]
      else if reasoning.Some? then [ReasoningPart(reasoning.value)]
      else if text != "" then [TextPart(text)] else []
    case Content(_) => []
  }

  /** A message in the role of its author and in its own words. */
  function SaidAs(m: MessageRecord): PromptMessage {
    if m.meta.User? || m.meta.Steering? then UserPrompt(ContentOf(m)) else AssistantPrompt(SaidBy(m))
  }

  function ItemSaid(item: Item): PromptMessage {
    if item.MessageItem? then SaidAs(item.message) else UserPrompt(ItemText(item))
  }

  /** The user is told the summary first. */
  function SummaryPrompts(summary: Option<Summary>): seq<PromptMessage> {
    if summary.Some? then [UserPrompt(summary.value.promptMessage)] else []
  }

  ghost predicate Bodied(messages: Messages) {
    forall m :: m in messages.Values() ==> WellBodied(m)
  }

  lemma {:induction false} ItemsAreBodied(
      messages: Messages, toolCalls: ToolCalls, summary: Option<Summary>, item: Item)
    requires Bodied(messages) && MessagesKeyed(messages)
    requires item in PromptTranscriptItems(messages, toolCalls, summary)
    ensures item.MessageItem? ==> WellBodied(item.message) && item == ToMessageItem(item.message)
  {
    ItemMembership(messages, toolCalls, summary, item);
    ContextMessagesDistinct(messages, summary);
  }

  lemma {:induction false} SummaryFirst(items: seq<Item>, summary: Option<Summary>)
    requires SortedBy(items, ItemLe) && forall item :: item in items ==> item.order.At? && item.order.position >= 0.0
    ensures StableSort(items + SummaryItems(summary) + [], ItemLe) == SummaryItems(summary) + items
  {
    assert items + SummaryItems(summary) + [] == items + SummaryItems(summary);
    if summary.Some? {
      SortPutsFirst(items, SummaryItem(SUMMARY_ORDER, summary.value.promptMessage), ItemLe);
    } else {
      SortOfSorted(items, ItemLe);
      assert items + [] == items && [] + items == items;
    }
  }

  lemma {:induction false} TalkAlone(messages: Messages, toolCalls: ToolCalls, summary: Option<Summary>)
    ensures var context := PromptContextMessages(messages, summary);
            && Filter(context, Spoken) == Conversation(messages, RetainedFrom(summary))
            && Filter(SummaryItems(summary), Talk) == SummaryItems(summary)
            && Filter(FilterMap(toolCalls.Values(), ToResultItem(context)), Talk) == []
  {
    var from := RetainedFrom(summary);
    forall m ensures Speaks(from)(m) == (Retained(from)(m) && Spoken(m)) {
      SpeaksExactly(m, from);
    }
    ContextOfKind(messages, summary, Spoken, Speaks(from));
    ResultsAreResults(messages, toolCalls, summary);
    FilterNone(FilterMap(toolCalls.Values(), ToResultItem(PromptContextMessages(messages, summary))), Talk);
    FilterAll(SummaryItems(summary), Talk);
  }

  /** The items of the conversation, in order: the summary first. */
  lemma {:induction false} TalkItems(messages: Messages, toolCalls: ToolCalls, summary: Option<Summary>)
    ensures Filter(PromptTranscriptItems(messages, toolCalls, summary), Talk)
            == SummaryItems(summary) + MapSeq(Conversation(messages, RetainedFrom(summary)), ToMessageItem)
  {
    var said := Conversation(messages, RetainedFrom(summary));
    ItemsOfKind(messages, toolCalls, summary, Talk, Spoken);
    TalkAlone(messages, toolCalls, summary);
    forall m: MessageRecord | Speaks(RetainedFrom(summary))(m) ensures !m.meta.System? {
      SpeaksExactly(m, RetainedFrom(summary));
    }
    SpeakersInOrder(messages, Speaks(RetainedFrom(summary)));
    SummaryFirst(MapSeq(said, ToMessageItem), summary);
  }

  lemma {:induction false} SpeakersInOrder(messages: Messages, speaks: MessageRecord -> bool)
    requires forall m: MessageRecord :: speaks(m) ==> !m.meta.System?
    ensures var said := StableSort(Filter(messages.Values(), speaks), EntersBefore);
            && SortedBy(MapSeq(said, ToMessageItem), ItemLe)
            && forall m :: m in said ==> m in messages.Values() && speaks(m)
  {
    var own := Filter(messages.Values(), speaks);
    EntersBeforeIsTotal();
    SortIsSorted(own, EntersBefore);
    SortIsPermutation(own, EntersBefore);
    SameElements(StableSort(own, EntersBefore), own);
    SaidInOrder(StableSort(own, EntersBefore));
  }

  lemma {:induction false} PartsAreSaid(m: MessageRecord)
    requires m.body.AssistantContent?
    ensures ToPromptMessage(ToMessageItem(m)) == AssistantPrompt(SaidBy(m))
  {
    if m.body.parts.None? && m.body.reasoning.Some? {
      assert [ReasoningPart(m.body.reasoning.value)] + [TextPart(m.body.text)]
        == [ReasoningPart(m.body.reasoning.value), TextPart(m.body.text)];
    }
  }

  lemma {:induction false} TalkIsSaid(messages: Messages, toolCalls: ToolCalls, summary: Option<Summary>, item: Item)
    requires Bodied(messages) && MessagesKeyed(messages)
    requires item in PromptTranscriptItems(messages, toolCalls, summary)
    ensures Said(ToPromptMessage(item)) == if Talk(item) then Some(ItemSaid(item)) else None
  {
    ItemsAreBodied(messages, toolCalls, summary, item);
    if item.MessageItem? && item.message.body.AssistantContent? {
      PartsAreSaid(item.message);
    }
  }

  lemma {:induction false} TalkRead(messages: Messages, toolCalls: ToolCalls, summary: Option<Summary>)
    requires Bodied(messages) && MessagesKeyed(messages)
    ensures FilterMap(ProjectedMessages(messages, toolCalls, summary), Said)
            == MapSeq(Filter(PromptTranscriptItems(messages, toolCalls, summary), Talk), ItemSaid)
  {
    var items := PromptTranscriptItems(messages, toolCalls, summary);
    forall item | item in items
      ensures Said(ToPromptMessage(item)) == if Talk(item) then Some(ItemSaid(item)) else None
    {
      TalkIsSaid(messages, toolCalls, summary, item);
    }
    ReadMapped(items, ToPromptMessage, Said, Talk, ItemSaid);
  }

  lemma {:induction false} TalkInWords(said: seq<MessageRecord>, summary: Option<Summary>)
    ensures MapSeq(SummaryItems(summary) + MapSeq(said, ToMessageItem), ItemSaid)
            == SummaryPrompts(summary) + MapSeq(said, SaidAs)
  {
    MapOfAppend(SummaryItems(summary), MapSeq(said, ToMessageItem), ItemSaid);
    MapOfMap(said, ToMessageItem, ItemSaid, SaidAs);
  }

  /** The user and assistant prompts: the summary, then every message in order, each in its author's role and words. */
  lemma {:induction false} ConversationPrompts(messages: Messages, toolCalls: ToolCalls, summary: Option<Summary>)
    requires Bodied(messages) && MessagesKeyed(messages)
    ensures FilterMap(ProjectedMessages(messages, toolCalls, summary), Said)
            == SummaryPrompts(summary) + MapSeq(Conversation(messages, RetainedFrom(summary)), SaidAs)
  {
    TalkRead(messages, toolCalls, summary);
    TalkItems(messages, toolCalls, summary);
    TalkInWords(Conversation(messages, RetainedFrom(summary)), summary);
  }

  /** The first system message, if any, is the only system prompt, and it comes first. */
  lemma {:induction false} SystemPrompts(messages: Messages, toolCalls: ToolCalls, summary: Option<Summary>)
    requires Bodied(messages) && MessagesKeyed(messages)
    ensures var first := Find(messages.Values(), IsSystem);
            var projected := ProjectedMessages(messages, toolCalls, summary);
            && FilterMap(projected, SystemText) == (if first.Some? then [ContentOf(first.value)] else [])
            && (first.Some? ==> |projected| > 0 && projected[0] == SystemPrompt(ContentOf(first.value)))
  {
    var items, kind := PromptTranscriptItems(messages, toolCalls, summary), MessageOfKind(IsSystem);
    forall item | item in items
      ensures SystemText(ToPromptMessage(item)) == if kind(item) then Some(ItemText(item)) else None
    {
      ItemsAreBodied(messages, toolCalls, summary, item);
    }
    ReadMapped(items, ToPromptMessage, SystemText, kind, ItemText);
    SystemItems(messages, toolCalls, summary);
    var first := Find(messages.Values(), IsSystem);
    if first.Some? {
      assert WellBodied(first.value);
      SystemComesFirst(messages, toolCalls, summary);
    }
  }

  lemma {:induction false} SystemItems(messages: Messages, toolCalls: ToolCalls, summary: Option<Summary>)
    ensures var first := Find(messages.Values(), IsSystem);
            Filter(PromptTranscriptItems(messages, toolCalls, summary), MessageOfKind(IsSystem))
            == if first.Some? then [ToMessageItem(first.value)] else []
  {
    var kind := MessageOfKind(IsSystem);
    var retained := RetainedTranscript(messages, RetainedFrom(summary));
    ItemsOfKind(messages, toolCalls, summary, kind, IsSystem);
    ResultsAreResults(messages, toolCalls, summary);
    FilterNone(FilterMap(toolCalls.Values(), ToResultItem(PromptContextMessages(messages, summary))), kind);
    FilterNone(SummaryItems(summary), kind);
    PrunedTranscript(messages, RetainedFrom(summary));
    FilterNone(retained, IsSystem);
    var first := Find(messages.Values(), IsSystem);
    if first.Some? {
      FilterOfAppend([first.value], retained, IsSystem);
      var only := [ToMessageItem(first.value)];
      assert MapSeq([first.value] + [], ToMessageItem) + [] + [] == only;
      assert StableSort(only, ItemLe) == only by {
        SortOfSorted(only, ItemLe);
      }
    } else {
      assert MapSeq([], ToMessageItem) + [] + [] == [];
    }
  }

  /** Nothing else sorts before everything. */
  lemma {:induction false} SystemComesFirst(messages: Messages, toolCalls: ToolCalls, summary: Option<Summary>)
    requires Find(messages.Values(), IsSystem).Some?
    ensures var items := PromptTranscriptItems(messages, toolCalls, summary);
            |items| > 0 && items[0] == ToMessageItem(Find(messages.Values(), IsSystem).value)
  {
    var first := ToMessageItem(Find(messages.Values(), IsSystem).value);
    var items, kind := PromptTranscriptItems(messages, toolCalls, summary), MessageOfKind(IsSystem);
    SystemItems(messages, toolCalls, summary);
    ItemsAreArranged(messages, toolCalls, summary);
    assert first in Filter(items, kind);
    var i :| 0 <= i < |items| && items[i] == first;
    assert ItemLe(items[0], items[i]);
    ItemMembership(messages, toolCalls, summary, items[0]);
    assert kind(items[0]);
    assert items[0] in Filter(items, kind);
  }

  // ---------------------------------------------------------------------------
  // Answers to tool calls
  // ---------------------------------------------------------------------------

  /** What answers a call: the feedback of its rejection, or else the result of its end. */
  function Given(t: ToolCallRecord): Option<ResultPart> {
    match t.decision
    case None => None
    case Some(ToolDecision(Rejected(_, _, _, _, _, _), _, feedback)) => feedback
    case Some(ToolDecision(Created(_, _, _, _, _, _, _), _, _)) =>
      if t.terminal.Some? then t.terminal.value.result else None
  }

  function SpeaksFor(id: InferenceId): MessageRecord -> bool {
    (m: MessageRecord) => (m.meta.Assistant? || m.meta.AssistantPartial?) && m.meta.inferenceId == id
  }

  /** The last assistant message of the call's inference. */
  function SpeakerOf(assistants: seq<MessageRecord>, t: ToolCallRecord): Option<MessageRecord> {
    if t.decision.None? then None else LastOf(Filter(assistants, SpeaksFor(t.decision.value.meta.inferenceId)))
  }

  /** Answered, with an assistant message of its inference in the prompt. */
  function IsAnswered(assistants: seq<MessageRecord>): ToolCallRecord -> bool {
    (t: ToolCallRecord) => Given(t).Some? && SpeakerOf(assistants, t).Some?
  }

  function SaidParts(body: MessageBody): seq<PromptPart> {
    match body
    case AssistantContent(_, _, Some(parts)) => parts
    case _ => []
  }

  /** Behind the assistant message, by the place of the call in it. */
  function Place(assistants: seq<MessageRecord>, t: ToolCallRecord): real {
    var speaker := SpeakerOf(assistants, t);
    if t.decision.None? || speaker.None? then 0.0
    else
      var parts := SaidParts(speaker.value.body);
      var index := CallIndex(parts, t.decision.value.meta.providerPartId);
      EntersAt(speaker.value) as real + 0.1 + index as real * 0.001
  }

  function InPlace(assistants: seq<MessageRecord>): (ToolCallRecord, ToolCallRecord) -> bool {
    (a: ToolCallRecord, b: ToolCallRecord) => Place(assistants, a) <= Place(assistants, b)
  }

  /** The answered calls in the order of their answers. */
  function AnsweredCalls(messages: Messages, toolCalls: ToolCalls, from: Seq): seq<ToolCallRecord> {
    var assistants := AssistantMessages(messages, from);
    StableSort(Filter(toolCalls.Values(), IsAnswered(assistants)), InPlace(assistants))
  }

  function AnswerTo(t: ToolCallRecord): seq<ResultPart> {
    if Given(t).Some? then [Given(t).value] else []
  }

  function AnswerItem(assistants: seq<MessageRecord>): ToolCallRecord -> Item {
    (t: ToolCallRecord) =>
      var answer := if Given(t).Some? then Given(t).value else ResultPart("", "", "");
      ResultItem(At(Place(assistants, t)), t.toolCallId, answer)
  }

  function ItemResults(item: Item): seq<ResultPart> {
    if item.ResultItem? then [item.result] else []
  }

  function IsResult(item: Item): bool {
    item.ResultItem?
  }

  lemma {:induction false} LastSpeaker(context: seq<MessageRecord>, id: InferenceId)
    ensures AssistantOf(context, id) == LastOf(Filter(context, SpeaksFor(id)))
  {
    if context != [] {
      var front, last := context[..|context| - 1], context[|context| - 1];
      LastSpeaker(front, id);
      assert context == front + [last];
      FilterOfAppend(front, [last], SpeaksFor(id));
    }
  }

  lemma {:induction false} SpeakerInContext(
      context: seq<MessageRecord>, assistants: seq<MessageRecord>, t: ToolCallRecord)
    requires assistants == Filter(context, IsAssistant)
    ensures t.decision.Some? ==> AssistantOf(context, t.decision.value.meta.inferenceId) == SpeakerOf(assistants, t)
  {
    if t.decision.Some? {
      var id := t.decision.value.meta.inferenceId;
      LastSpeaker(context, id);
      FilterTwice(context, IsAssistant, SpeaksFor(id), SpeaksFor(id));
    }
  }

  lemma {:induction false} ResultItemExactly(
      context: seq<MessageRecord>, assistants: seq<MessageRecord>, t: ToolCallRecord)
    requires assistants == Filter(context, IsAssistant)
    ensures ToResultItem(context)(t) ==
            if IsAnswered(assistants)(t) then Some(AnswerItem(assistants)(t)) else None
  {
    SpeakerInContext(context, assistants, t);
    if SpeakerOf(assistants, t).Some? {
      SpeaksExactly(SpeakerOf(assistants, t).value, 0);
    }
  }

  lemma {:induction false} AssistantsAlone(messages: Messages, summary: Option<Summary>)
    ensures Filter(PromptContextMessages(messages, summary), IsAssistant)
            == AssistantMessages(messages, RetainedFrom(summary))
  {
    var from := RetainedFrom(summary);
    forall m ensures AssistantSpeaks(from)(m) == (Retained(from)(m) && IsAssistant(m)) {
      SpeaksExactly(m, from);
    }
    ContextOfKind(messages, summary, IsAssistant, AssistantSpeaks(from));
  }

  lemma {:induction false} ResultItems(messages: Messages, toolCalls: ToolCalls, summary: Option<Summary>)
    ensures var assistants := AssistantMessages(messages, RetainedFrom(summary));
            FilterMap(toolCalls.Values(), ToResultItem(PromptContextMessages(messages, summary)))
            == MapSeq(Filter(toolCalls.Values(), IsAnswered(assistants)), AnswerItem(assistants))
  {
    var context := PromptContextMessages(messages, summary);
    var assistants := AssistantMessages(messages, RetainedFrom(summary));
    AssistantsAlone(messages, summary);
    forall t ensures ToResultItem(context)(t) ==
                     if IsAnswered(assistants)(t) then Some(AnswerItem(assistants)(t)) else None {
      ResultItemExactly(context, assistants, t);
    }
    FilterMapped(toolCalls.Values(), ToResultItem(context), IsAnswered(assistants), AnswerItem(assistants));
  }

  function NoMessage(m: MessageRecord): bool {
    false
  }

  lemma {:induction false} ResultsAlone(messages: Messages, toolCalls: ToolCalls, summary: Option<Summary>)
    ensures var context := PromptContextMessages(messages, summary);
            && Filter(context, NoMessage) == []
            && Filter(SummaryItems(summary), IsResult) == []
            && Filter(FilterMap(toolCalls.Values(), ToResultItem(context)), IsResult)
               == FilterMap(toolCalls.Values(), ToResultItem(context))
  {
    var context := PromptContextMessages(messages, summary);
    FilterNone(context, NoMessage);
    FilterNone(SummaryItems(summary), IsResult);
    ResultsAreResults(messages, toolCalls, summary);
    FilterAll(FilterMap(toolCalls.Values(), ToResultItem(context)), IsResult);
  }

  lemma {:induction false} AnswerItems(messages: Messages, toolCalls: ToolCalls, summary: Option<Summary>)
    ensures var from := RetainedFrom(summary);
            Filter(PromptTranscriptItems(messages, toolCalls, summary), IsResult)
            == MapSeq(AnsweredCalls(messages, toolCalls, from), AnswerItem(AssistantMessages(messages, from)))
  {
    var results := FilterMap(toolCalls.Values(), ToResultItem(PromptContextMessages(messages, summary)));
    var assistants := AssistantMessages(messages, RetainedFrom(summary));
    ItemsOfKind(messages, toolCalls, summary, IsResult, NoMessage);
    ResultsAlone(messages, toolCalls, summary);
    assert MapSeq([], ToMessageItem) + [] + results == results;
    ResultItems(messages, toolCalls, summary);
    AnswersSorted(toolCalls.Values(), assistants);
  }

  lemma {:induction false} AnswersSorted(calls: seq<ToolCallRecord>, assistants: seq<MessageRecord>)
    ensures StableSort(MapSeq(Filter(calls, IsAnswered(assistants)), AnswerItem(assistants)), ItemLe)
            == MapSeq(StableSort(Filter(calls, IsAnswered(assistants)), InPlace(assistants)), AnswerItem(assistants))
  {
    SortMapped(Filter(calls, IsAnswered(assistants)), AnswerItem(assistants), InPlace(assistants), ItemLe);
  }

  /** The tool prompts: one for each answered call whose assistant is in the prompt, in the order of the calls. */
  lemma {:induction false} ToolPrompts(messages: Messages, toolCalls: ToolCalls, summary: Option<Summary>)
    requires Bodied(messages) && MessagesKeyed(messages)
    ensures FilterMap(ProjectedMessages(messages, toolCalls, summary), ToolSaid)
            == MapSeq(AnsweredCalls(messages, toolCalls, RetainedFrom(summary)), AnswerTo)
  {
    var items := PromptTranscriptItems(messages, toolCalls, summary);
    var calls := AnsweredCalls(messages, toolCalls, RetainedFrom(summary));
    var assistants := AssistantMessages(messages, RetainedFrom(summary));
    forall item | item in items
      ensures ToolSaid(ToPromptMessage(item)) == if IsResult(item) then Some(ItemResults(item)) else None
    {
      ItemsAreBodied(messages, toolCalls, summary, item);
    }
    ReadMapped(items, ToPromptMessage, ToolSaid, IsResult, ItemResults);
    AnswerItems(messages, toolCalls, summary);
    var answered := Filter(toolCalls.Values(), IsAnswered(assistants));
    SortIsPermutation(answered, InPlace(assistants));
    SameElements(calls, answered);
    MapOfMap(calls, AnswerItem(assistants), ItemResults, AnswerTo);
  }

  /** The place of the last call with the id among the parts, and the first place when there is none. */
  lemma {:induction false} CallIndexExactly(parts: seq<PromptPart>, id: ProviderPartId)
    ensures var k := CallIndex(parts, id);
            if exists part :: part in parts && part.ToolCall? && part.call.id == id then
              && k < |parts| && parts[k].ToolCall? && parts[k].call.id == id
              && forall j :: k < j < |parts| ==> !(parts[j].ToolCall? && parts[j].call.id == id)
            else k == 0
  {
    if parts != [] {
      var front, last := parts[..|parts| - 1], parts[|parts| - 1];
      CallIndexExactly(front, id);
      assert parts == front + [last];
    }
  }

  /** What the projection of a log's state says, role by role. */
  lemma {:induction false} PromptOfLog(log: seq<Committed>, summary: Option<Summary>)
    requires Dense(log, 0)
    ensures var r, from := FoldReplay(GENESIS, log), RetainedFrom(summary);
            var projected := ProjectedMessages(r.messages, r.toolCalls, summary);
            var first := Find(r.messages.Values(), IsSystem);
            && FilterMap(projected, SystemText) == (if first.Some? then [ContentOf(first.value)] else [])
            && (first.Some? ==> |projected| > 0 && projected[0] == SystemPrompt(ContentOf(first.value)))
            && FilterMap(projected, Said)
               == SummaryPrompts(summary) + MapSeq(Conversation(r.messages, from), SaidAs)
            && FilterMap(projected, ToolSaid) == MapSeq(AnsweredCalls(r.messages, r.toolCalls, from), AnswerTo)
  {
    var r := FoldReplay(GENESIS, log);
    FoldKeepsKeys(log);
    FoldKeepsPointers(log);
    FoldKeepsConsumption(log);
    PointersSeparateAssistants(r.messages, log);
    SystemPrompts(r.messages, r.toolCalls, summary);
    ConversationPrompts(r.messages, r.toolCalls, summary);
    ToolPrompts(r.messages, r.toolCalls, summary);
  }

  // ---------------------------------------------------------------------------
  // The durable transcript
  // ---------------------------------------------------------------------------

  /** User messages unless cancelled, steering once consumed, and every assistant message. */
  function InTranscript(m: MessageRecord): bool {
    match m.meta
    case System(_, _, _) => false
    case User(_, _, _, _, _, _, life) => life.cancelledSeq.None?
    case Steering(_, _, _, _, _, life) => life.consumedSeq.Some?
    case _ => true
  }

  /** The transcript holds exactly these messages, in the order they enter it. */
  lemma {:induction false} TranscriptExactly(messages: Messages)
    ensures DurableMessageTranscript(messages) == StableSort(Filter(messages.Values(), InTranscript), EntersBefore)
  {
    var vs := messages.Values();
    FilterAgrees(vs, IsDurableTranscriptMessage, InTranscript);
    forall x, y ensures TranscriptOrder(x, y) == EntersBefore(x, y) {
      SpeaksExactly(x, 0);
      SpeaksExactly(y, 0);
    }
    SortAgrees(Filter(vs, InTranscript), TranscriptOrder, EntersBefore);
  }
}
