/** The provider prompt projected from the folded messages and tool results. */
module PromptProjection {
  import opened Collections
  import opened Events
  import opened Records
  import opened CommandQueues
  import opened ReducedState

  // ---------------------------------------------------------------------------
  // Messages of the transcript
  // ---------------------------------------------------------------------------

  predicate IsDurableTranscriptMessage(m: MessageRecord) {
    match m.meta
    case System(_, _, _) => false
    case User(_, _, _, _, _, _, life) => life.cancelledSeq.None?
    case Steering(_, _, _, _, _, life) => life.consumedSeq.Some?
    case _ => true
  }

  /** A message enters the transcript when a turn consumes it, or else where it was committed. */
  function TranscriptSeq(m: MessageRecord): Seq {
    if m.meta.Authored() && m.meta.life.consumedSeq.Some? then m.meta.life.consumedSeq.value else m.meta.at
  }

  predicate TranscriptOrder(a: MessageRecord, b: MessageRecord) {
    TranscriptSeq(a) < TranscriptSeq(b) || (TranscriptSeq(a) == TranscriptSeq(b) && a.meta.at <= b.meta.at)
  }

  predicate IsConsumedForPrompt(m: MessageRecord) {
    m.meta.User? ==> m.meta.requestedDisposition.None? || m.meta.life.consumedSeq.Some?
  }

  function DurableMessageTranscript(messages: Messages): seq<MessageRecord> {
    StableSort(Filter(messages.Values(), IsDurableTranscriptMessage), TranscriptOrder)
  }

  function RetainedFrom(summary: Option<Summary>): Seq {
    if summary.Some? then summary.value.retainedFromContextSeq else 0
  }

  function RetainedForPrompt(from: Seq): MessageRecord -> bool {
    (m: MessageRecord) => IsConsumedForPrompt(m) && from <= TranscriptSeq(m)
  }

  predicate IsSystem(m: MessageRecord) {
    m.meta.System?
  }

  /** The first system message, then the retained transcript. */
  function PromptContextMessages(messages: Messages, summary: Option<Summary>): seq<MessageRecord> {
    var retained := Filter(DurableMessageTranscript(messages), RetainedForPrompt(RetainedFrom(summary)));
    var system := Find(messages.Values(), IsSystem);
    if system.None? then retained else [system.value] + retained
  }

  // ---------------------------------------------------------------------------
  // Items in prompt order
  // ---------------------------------------------------------------------------

  /** Where an item sorts; the system message is before everything. */
  datatype Order = BeforeAll | At(position: real)

  predicate OrderLe(a: Order, b: Order) {
    a.BeforeAll? || (b.At? && a.position <= b.position)
  }

  const SUMMARY_ORDER: Order := At(-9007199254740991.0)

  datatype Item =
    | MessageItem(order: Order, message: MessageRecord)
    | SummaryItem(order: Order, promptMessage: Json)
    | ResultItem(order: Order, toolCallId: ToolCallId, result: ResultPart)

  predicate ItemLe(a: Item, b: Item) {
    OrderLe(a.order, b.order)
  }

  predicate IsAssistant(m: MessageRecord) {
    m.meta.Assistant? || m.meta.AssistantPartial?
  }

  function PartsOf(m: MessageRecord): seq<PromptPart> {
    if m.body.AssistantContent? && m.body.parts.Some? then m.body.parts.value else []
  }

  /** The last retained assistant message of an inference, as a map keyed by inference keeps it. */
  function AssistantOf(messages: seq<MessageRecord>, id: InferenceId): Option<MessageRecord> {
    if messages == [] then None
    else
      var last := messages[|messages| - 1];
      if IsAssistant(last) && last.meta.inferenceId == id
        then Some(last)
        else AssistantOf(messages[..|messages| - 1], id)
  }

  /** The position of the last tool-call part with the id, or the first position when there is none. */
  function CallIndex(parts: seq<PromptPart>, id: ProviderPartId): nat {
    if parts == [] then 0
    else
      var last := |parts| - 1;
      if parts[last].ToolCall? && parts[last].call.id == id then last else CallIndex(parts[..last], id)
  }

  function SyntheticToolResultOrder(assistant: MessageRecord, id: ProviderPartId): Order {
    At(TranscriptSeq(assistant) as real + 0.1 + CallIndex(PartsOf(assistant), id) as real * 0.001)
  }

  /** The exact part answering a call: a rejection's feedback or the terminal's result. */
  function AnswerOf(t: ToolCallRecord): Option<ResultPart> {
    if t.decision.None? then None
    else if t.decision.value.meta.Rejected? then t.decision.value.feedback
    else if t.terminal.None? then None
    else t.terminal.value.result
  }

  function ToResultItem(messages: seq<MessageRecord>): ToolCallRecord -> Option<Item> {
    (t: ToolCallRecord) =>
      if t.decision.None? then None
      else
        var assistant := AssistantOf(messages, t.decision.value.meta.inferenceId);
        var answer := AnswerOf(t);
        if assistant.None? || answer.None? then None
        else
          Some(ResultItem(SyntheticToolResultOrder(assistant.value, t.decision.value.meta.providerPartId), t.toolCallId,
            answer.value))
  }

  function ToMessageItem(m: MessageRecord): Item {
    MessageItem(if m.meta.System? then BeforeAll else At(TranscriptSeq(m) as real), m)
  }

  function SummaryItems(summary: Option<Summary>): seq<Item> {
    if summary.None? then [] else [SummaryItem(SUMMARY_ORDER, summary.value.promptMessage)]
  }

  function UnsortedItems(messages: Messages, toolCalls: ToolCalls, summary: Option<Summary>): seq<Item> {
    var context := PromptContextMessages(messages, summary);
    MapSeq(context, ToMessageItem) + SummaryItems(summary) + FilterMap(toolCalls.Values(), ToResultItem(context))
  }

  function PromptTranscriptItems(messages: Messages, toolCalls: ToolCalls, summary: Option<Summary>): seq<Item> {
    StableSort(UnsortedItems(messages, toolCalls, summary), ItemLe)
  }

  // ---------------------------------------------------------------------------
  // Prompt messages
  // ---------------------------------------------------------------------------

  datatype PromptMessage =
    | SystemPrompt(content: Json)
    | UserPrompt(content: Json)
    | AssistantPrompt(parts: seq<PromptPart>)
    | ToolPrompt(results: seq<ResultPart>)

  /** Assistant messages without parts are rebuilt from their text and reasoning. */
  function AssistantParts(body: MessageBody): seq<PromptPart>
    requires body.AssistantContent?
  {
    (if body.reasoning.Some? then [ReasoningPart(body.reasoning.value)] else [])
    + (if body.text == "" then [] else [TextPart(body.text)])
  }

  function ToPromptMessage(item: Item): PromptMessage {
    match item
    case SummaryItem(_, promptMessage) => UserPrompt(promptMessage)
    case ResultItem(_, _, result) => ToolPrompt([result])
    case MessageItem(_, m) =>
      match m.body
      case AssistantContent(_, _, parts) => AssistantPrompt(if parts.Some? then parts.value else AssistantParts(m.body))
      case Content(content) => if m.meta.System? then SystemPrompt(content) else UserPrompt(content)
  }

  function ProjectedMessages(messages: Messages, toolCalls: ToolCalls, summary: Option<Summary>): seq<PromptMessage> {
    MapSeq(PromptTranscriptItems(messages, toolCalls, summary), ToPromptMessage)
  }

  // ---------------------------------------------------------------------------
  // Pairing of calls and results
  // ---------------------------------------------------------------------------

  predicate FrameworkCall(part: PromptPart) {
    part.ToolCall? && !part.call.providerExecuted
  }

  predicate Calls(m: PromptMessage, id: ProviderPartId) {
    m.AssistantPrompt? && exists part :: part in m.parts && FrameworkCall(part) && part.call.id == id
  }

  predicate Answers(m: PromptMessage, id: ProviderPartId) {
    m.ToolPrompt? && exists part :: part in m.results && part.id == id
  }

  /** Position `j` answers a call made at `i`, with nothing but tool messages after the call up to there. */
  predicate AnsweredAt(messages: seq<PromptMessage>, i: nat, j: nat, id: ProviderPartId)
    requires i < j < |messages|
  {
    Answers(messages[j], id) && forall k :: i < k <= j ==> messages[k].ToolPrompt?
  }

  /** Every framework call is answered by the tool messages right after it. */
  ghost predicate Paired(messages: seq<PromptMessage>) {
    forall i, id {:trigger Calls(messages[i], id)} :: 0 <= i < |messages| && Calls(messages[i], id) ==>
      exists j :: i < j < |messages| && AnsweredAt(messages, i, j, id)
  }

  /** The calls made at `i` that nothing before `n` answers. */
  ghost predicate Unanswered(messages: seq<PromptMessage>, i: nat, n: nat, id: ProviderPartId)
    requires i < n <= |messages|
  {
    Calls(messages[i], id) && forall j :: i < j < n ==> !Answers(messages[j], id)
  }

  /** Keep the ids of unanswered calls; a message of another role must find none, and neither must the end. */
  method ValidateToolCallPairing(messages: seq<PromptMessage>) returns (ok: bool)
    ensures ok <==> Paired(messages)
  {
    var pending: set<ProviderPartId> := {};
    // The last message that was not a tool message: only its calls can be pending.
    ghost var caller := 0;
    for n := 0 to |messages|
      invariant n == 0 ==> pending == {} && caller == 0
      invariant n > 0 ==> caller < n
      invariant n > 0 ==> forall k :: caller < k < n ==> messages[k].ToolPrompt?
      invariant n > 0 ==> forall id :: id in pending <==> Unanswered(messages, caller, n, id)
      invariant n > 0 ==>
                forall i, id {:trigger Calls(messages[i], id)} ::
                  0 <= i < n && Calls(messages[i], id) && !(i == caller && id in pending) ==>
                  exists j :: i < j < n && AnsweredAt(messages, i, j, id)
    {
      var message := messages[n];
      if pending != {} && !message.ToolPrompt? {
        UnpairedBefore(messages, caller, n, pending);
        return false;
      }
      ghost var before := pending;
      if message.ToolPrompt? {
        for p := 0 to |message.results|
          invariant forall id :: id in pending <==> id in before && forall q :: 0 <= q < p ==>
                    message.results[q].id != id
        {
          pending := pending - {message.results[p].id};
        }
        assert forall id :: id in pending <==> id in before && !Answers(message, id);
        if n > 0 {
          forall i, id | 0 <= i < n + 1 && Calls(messages[i], id) && !(i == caller && id in pending)
            ensures exists j :: i < j < n + 1 && AnsweredAt(messages, i, j, id)
          {
            if i == caller && id in before {
              assert AnsweredAt(messages, i, n, id);
            }
          }
        }
      } else {
        if message.AssistantPrompt? {
          for p := 0 to |message.parts|
            invariant forall id :: id in pending <==> exists q ::
                      0 <= q < p && FrameworkCall(message.parts[q])
                      && message.parts[q].call.id == id
          {
            if FrameworkCall(message.parts[p]) {
              pending := pending + {message.parts[p].call.id};
            }
          }
        }
        assert forall id :: id in pending <==> Calls(message, id);
        caller := n;
      }
    }
    ok := pending == {};
    if !ok {
      UnpairedAtEnd(messages, caller, pending);
    }
  }

  lemma {:induction false} UnpairedBefore(
      messages: seq<PromptMessage>, caller: nat, n: nat, pending: set<ProviderPartId>)
    requires caller < n < |messages| && !messages[n].ToolPrompt?
    requires pending != {} && forall id :: id in pending <==> Unanswered(messages, caller, n, id)
    ensures !Paired(messages)
  {
    var id :| id in pending;
    assert Calls(messages[caller], id);
  }

  lemma {:induction false} UnpairedAtEnd(messages: seq<PromptMessage>, caller: nat, pending: set<ProviderPartId>)
    requires caller < |messages|
    requires pending != {} && forall id :: id in pending <==> Unanswered(messages, caller, |messages|, id)
    ensures !Paired(messages)
  {
    var id :| id in pending;
    assert Calls(messages[caller], id);
  }
}
