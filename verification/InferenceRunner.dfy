/** Recording one provider stream: step inputs, the assistant's response parts, and the one durable batch it ends in. */
module InferenceRunner {
  import opened Collections
  import opened Events
  import opened Inference

  datatype MetaValue = MetaRecord(fields: map<string, Json>) | MetaOther(value: Json)

  type Metadata = map<string, MetaValue>

  datatype StreamPart =
    | TextBoundaryPart(id: ProviderPartId, metadata: Option<Metadata>)
    | TextDeltaPart(id: ProviderPartId, delta: Json, metadata: Option<Metadata>)
    | ReasoningBoundaryPart(id: ProviderPartId, metadata: Option<Metadata>)
    | ReasoningDeltaPart(id: ProviderPartId, delta: Json, metadata: Option<Metadata>)
    | ParamsStartPart(id: ProviderPartId, name: Json, providerExecuted: bool)
    | ParamsDeltaPart(id: ProviderPartId, delta: Json)
    | ParamsEndPart(id: ProviderPartId)
    | ToolCallPart(id: ProviderPartId, name: Json, params: Json, providerExecuted: bool)
    | ToolResultPart(id: ProviderPartId, name: Json, providerExecuted: bool, preliminary: bool)
    | MetadataPart(data: Json)
    | FinishPart(usage: Option<nat>)
    | ErrorPart(error: Json)
    | SidebandPart

  /** A part as it arrives, with the ids minted for it and its validation against the tool registry. */
  datatype Arrival = Arrival(part: StreamPart, toolCallId: ToolCallId, validation: Validation, messageId: MessageId)

  datatype ContextEntry =
    | Textual(reasoning: bool, id: ProviderPartId, text: Json, metadata: Metadata)
    | Call(call: CallPart)

  datatype RunState = RunState(
    inference: InferenceState,
    partsRecorded: nat,
    context: seq<ContextEntry>,
    committed: seq<seq<Payload>>)

  function InitialRun(identity: Identity): RunState {
    RunState(Initial(identity), 0, [], [])
  }

  /** Sideband parts, and tool results the provider did not finally execute, are only counted. */
  predicate OnlyCounted(part: StreamPart) {
    part.SidebandPart? || (part.ToolResultPart? && (!part.providerExecuted || part.preliminary))
  }

  function Unsupported(name: Json): StepInput {
    StreamError("Provider-executed tool calls are unsupported: " + name)
  }

  function MakeStepInput(s: InferenceState, a: Arrival): StepInput
    requires !OnlyCounted(a.part)
  {
    match a.part
    case TextBoundaryPart(id, _) => Boundary(id)
    case ReasoningBoundaryPart(id, _) => Boundary(id)
    case TextDeltaPart(id, delta, _) => TextDelta(id, delta)
    case ReasoningDeltaPart(id, delta, _) => ReasoningDelta(id, delta)
    case ParamsStartPart(id, name, providerExecuted) =>
      if providerExecuted then Unsupported(name) else ParamsStart(id, DraftedId(s, id, a.toolCallId), name, false)
    case ParamsDeltaPart(id, delta) => ParamsDelta(id, delta)
    case ParamsEndPart(id) => ParamsEnd(id)
    case ToolCallPart(id, name, params, providerExecuted) =>
      if providerExecuted then Unsupported(name)
      else ToolCallInput(id, DraftedId(s, id, a.toolCallId), name, params, false, a.validation)
    case ToolResultPart(_, name, _, _) => Unsupported(name)
    case MetadataPart(data) => ResponseMetadata(data)
    case FinishPart(usage) => Finish(usage)
    case ErrorPart(error) => StreamError(error)
  }

  function DraftedId(s: InferenceState, id: ProviderPartId, minted: ToolCallId): ToolCallId {
    if s.drafts.Has(id) then s.drafts.Get(id).value.toolCallId else minted
  }

  // ---------------------------------------------------------------------------
  // The response context
  // ---------------------------------------------------------------------------

  /** Metadata records of one provider are merged; any other new value replaces the old one. */
  function MergeMetadata(left: Metadata, right: Option<Metadata>): Metadata {
    if right.None? then left
    else
      map k | k in left.Keys + right.value.Keys ::
        if k !in right.value then left[k]
        else if k in left && left[k].MetaRecord? && right.value[k].MetaRecord?
          then MetaRecord(left[k].fields + right.value[k].fields)
        else right.value[k]
  }

  /** A textual piece extends the first entry of its kind and id, or opens one at the end. */
  function UpsertTextual(
      entries: seq<ContextEntry>, reasoning: bool, id: ProviderPartId, delta: Json,
        metadata: Option<Metadata>): seq<ContextEntry> {
    if entries == [] then [Textual(reasoning, id, delta, if metadata.Some? then metadata.value else map[])]
    else if entries[0].Textual? && entries[0].reasoning == reasoning && entries[0].id == id then
      [Textual(reasoning, id, entries[0].text + delta, MergeMetadata(entries[0].metadata, metadata))] + entries[1..]
    else [entries[0]] + UpsertTextual(entries[1..], reasoning, id, delta, metadata)
  }

  function RecordResponseContext(entries: seq<ContextEntry>, part: StreamPart): seq<ContextEntry> {
    match part
    case TextBoundaryPart(id, metadata) => UpsertTextual(entries, false, id, "", metadata)
    case TextDeltaPart(id, delta, metadata) => UpsertTextual(entries, false, id, delta, metadata)
    case ReasoningBoundaryPart(id, metadata) => UpsertTextual(entries, true, id, "", metadata)
    case ReasoningDeltaPart(id, delta, metadata) => UpsertTextual(entries, true, id, delta, metadata)
    case ToolCallPart(id, name, params, providerExecuted) =>
      if providerExecuted then entries else entries + [Call(CallPart(id, name, params, false))]
    case _ => entries
  }

  /** Empty text is dropped; empty reasoning only when it carries no metadata. */
  function EntryParts(entry: ContextEntry): seq<PromptPart> {
    match entry
    case Textual(reasoning, _, text, metadata) =>
      if reasoning then (if text == "" && metadata == map[] then [] else [ReasoningPart(text)])
      else (if text == "" then [] else [TextPart(text)])
    case Call(call) => [ToolCall(call)]
  }

  function ContextParts(entries: seq<ContextEntry>): seq<PromptPart> {
    if entries == [] then [] else EntryParts(entries[0]) + ContextParts(entries[1..])
  }

  // ---------------------------------------------------------------------------
  // The durable batch
  // ---------------------------------------------------------------------------

  predicate HasAssistantContent(s: InferenceState) {
    s.assistantText != "" || s.reasoningText != ""
  }

  function LegacyParts(s: InferenceState): seq<PromptPart> {
    var reasoning := if s.reasoningText == "" then [] else [ReasoningPart(s.reasoningText)];
    var text := if s.assistantText == "" then [] else [TextPart(s.assistantText)];
    var parts := reasoning + text;
    if parts == [] then [TextPart("")] else parts
  }

  function AssistantEvent(s: InferenceState, parts: seq<PromptPart>, messageId: MessageId): seq<Payload> {
    if parts == [] && !HasAssistantContent(s) then []
    else
      [AssistantMessageCommitted(messageId, s.identity.runId, s.identity.turnId, s.identity.inferenceId,
                                 if parts == [] then LegacyParts(s) else parts)]
  }

  predicate IsNotCall(part: PromptPart) {
    !part.ToolCall?
  }

  const FAILED: Json := "inference failed before completion"
  const INTERRUPTED: Json := "inference interrupted before completion"

  function PartialEvent(s: InferenceState, parts: seq<PromptPart>, messageId: MessageId, reason: Json): seq<Payload> {
    if !HasAssistantContent(s) then []
    else
      var spoken := Filter(parts, IsNotCall);
      [AssistantPartialCommitted(messageId, s.identity.runId, s.identity.turnId, s.identity.inferenceId,
                                 if spoken == [] then LegacyParts(s) else spoken,
                                 reason)]
  }

  /** Only the emissions that end an inference commit a batch. */
  function CommitOf(
      emission: Emission, s: InferenceState, parts: seq<PromptPart>, messageId: MessageId): seq<seq<Payload>> {
    match emission
    case Finalize(events) => [AssistantEvent(s, parts, messageId) + events]
    case Fail(failure) => [PartialEvent(s, parts, messageId, FAILED)
      + [InferenceFailed(s.identity.inferenceId, failure)]]
    case _ => []
  }

  /** The durable batches the emissions of one step commit. */
  function Commits(
      emissions: seq<Emission>, s: InferenceState, parts: seq<PromptPart>, messageId: MessageId): seq<seq<Payload>> {
    if emissions == [] then []
    else CommitOf(emissions[0], s, parts, messageId) + Commits(emissions[1..], s, parts, messageId)
  }

  function RecordPart(s: RunState, a: Arrival): RunState {
    if s.inference.sealed then s
    else if OnlyCounted(a.part) then s.(partsRecorded := s.partsRecorded + 1)
    else
      var stepped := Step(s.inference, MakeStepInput(s.inference, a));
      var context := RecordResponseContext(s.context, a.part);
      RunState(stepped.next, s.partsRecorded + 1, context,
               s.committed + Commits(stepped.emissions, stepped.next, ContextParts(context), a.messageId))
  }

  function RecordAll(s: RunState, arrivals: seq<Arrival>): RunState
    decreases |arrivals|
  {
    if arrivals == [] then s else RecordAll(RecordPart(s, arrivals[0]), arrivals[1..])
  }

  /** A stream that ends without a terminal part fails, and that failure reports no response parts. */
  function EndStream(s: RunState, messageId: MessageId): RunState {
    if s.committed != [] then s
    else
      var stepped := Step(s.inference, StreamError("Provider stream ended without a finish part"));
      s.(inference := stepped.next, committed := Commits(stepped.emissions, stepped.next, [], messageId))
  }

  function RunInference(identity: Identity, arrivals: seq<Arrival>, messageId: MessageId): RunState {
    EndStream(RecordAll(InitialRun(identity), arrivals), messageId)
  }

  // ---------------------------------------------------------------------------
  // Calls in the message and decisions in the batch
  // ---------------------------------------------------------------------------

  function CallIds(parts: seq<PromptPart>): seq<ProviderPartId> {
    if parts == [] then []
    else (if parts[0].ToolCall? then [parts[0].call.id] else []) + CallIds(parts[1..])
  }

  function CallIdsIn(payload: Payload): seq<ProviderPartId> {
    match payload
    case AssistantMessageCommitted(_, _, _, _, parts) => CallIds(parts)
    case AssistantPartialCommitted(_, _, _, _, parts, _) => CallIds(parts)
    case _ => []
  }

  /** The ids of the tool calls in the assistant messages of a batch, in order. */
  function MessageCallIds(batch: seq<Payload>): seq<ProviderPartId> {
    if batch == [] then [] else CallIdsIn(batch[0]) + MessageCallIds(batch[1..])
  }

  function DecidedIdsIn(payload: Payload): seq<ProviderPartId> {
    match payload
    case ToolCallCreated(_, _, _, _, call) => [call.id]
    case ToolCallRejected(_, _, _, _, feedback) => [feedback.id]
    case _ => []
  }

  /** The provider ids of the tool decisions in a batch, in order. */
  function DecidedIds(batch: seq<Payload>): seq<ProviderPartId> {
    if batch == [] then [] else DecidedIdsIn(batch[0]) + DecidedIds(batch[1..])
  }

  function EntryIds(entries: seq<ContextEntry>): seq<ProviderPartId> {
    if entries == [] then []
    else (if entries[0].Call? then [entries[0].call.id] else []) + EntryIds(entries[1..])
  }

  function DecisionIds(decisions: seq<Decision>): seq<ProviderPartId> {
    MapSeq(decisions, PartId)
  }

  /** The calls name what was decided, each decided once; in the same order exactly when no call id repeats. */
  ghost predicate Names(calls: seq<ProviderPartId>, decided: seq<ProviderPartId>) {
    && NoDuplicates(decided)
    && (forall id :: id in calls <==> id in decided)
    && (calls == decided <==> NoDuplicates(calls))
  }

  lemma {:induction false} EntryIdsJoin(a: seq<ContextEntry>, b: seq<ContextEntry>)
    ensures EntryIds(a + b) == EntryIds(a) + EntryIds(b)
  {
    if a == [] {
      assert a + b == b;
    } else {
      assert (a + b)[1..] == a[1..] + b;
      EntryIdsJoin(a[1..], b);
    }
  }

  lemma {:induction false} CallIdsJoin(a: seq<PromptPart>, b: seq<PromptPart>)
    ensures CallIds(a + b) == CallIds(a) + CallIds(b)
  {
    if a == [] {
      assert a + b == b;
    } else {
      assert (a + b)[1..] == a[1..] + b;
      CallIdsJoin(a[1..], b);
    }
  }

  lemma {:induction false} NoCalls(parts: seq<PromptPart>)
    requires forall part :: part in parts ==> IsNotCall(part)
    ensures CallIds(parts) == []
  {
    if parts != [] {
      assert parts[0] in parts;
      NoCalls(parts[1..]);
    }
  }

  lemma {:induction false} ContextCallIds(entries: seq<ContextEntry>)
    ensures CallIds(ContextParts(entries)) == EntryIds(entries)
  {
    if entries != [] {
      ContextCallIds(entries[1..]);
      CallIdsJoin(EntryParts(entries[0]), ContextParts(entries[1..]));
    }
  }

  lemma {:induction false} TextKeepsCalls(
      entries: seq<ContextEntry>, reasoning: bool, id: ProviderPartId, delta: Json, metadata: Option<Metadata>)
    ensures EntryIds(UpsertTextual(entries, reasoning, id, delta, metadata)) == EntryIds(entries)
  {
    if entries != [] {
      TextKeepsCalls(entries[1..], reasoning, id, delta, metadata);
    }
  }

  lemma {:induction false} MergeKeepsMetadata(left: Metadata, right: Option<Metadata>)
    requires left != map[]
    ensures MergeMetadata(left, right) != map[]
  {
    var k :| k in left;
    assert k in MergeMetadata(left, right);
  }

  /** A context that says something goes on saying something, and any non-empty piece makes it do so. */
  lemma {:induction false} TextIsSaid(
      entries: seq<ContextEntry>, reasoning: bool, id: ProviderPartId, delta: Json, metadata: Option<Metadata>)
    requires ContextParts(entries) != [] || delta != ""
    ensures ContextParts(UpsertTextual(entries, reasoning, id, delta, metadata)) != []
  {
    if entries != [] {
      if entries[0].Textual? && entries[0].reasoning == reasoning && entries[0].id == id {
        if entries[0].metadata != map[] {
          MergeKeepsMetadata(entries[0].metadata, metadata);
        }
      } else if EntryParts(entries[0]) == [] {
        TextIsSaid(entries[1..], reasoning, id, delta, metadata);
      }
    }
  }

  lemma {:induction false} DecisionIdsContain(decisions: seq<Decision>, id: ProviderPartId)
    ensures id in DecisionIds(decisions) <==> exists d :: d in decisions && d.providerPartId == id
  {
    var ids := DecisionIds(decisions);
    if id in ids {
      var i :| 0 <= i < |ids| && ids[i] == id;
      assert decisions[i] in decisions;
    }
    if d :| d in decisions && d.providerPartId == id {
      var i :| 0 <= i < |decisions| && decisions[i] == d;
      assert ids[i] == id;
    }
  }

  lemma {:induction false} UpsertedIds(decisions: seq<Decision>, d: Decision, id: ProviderPartId)
    ensures id in DecisionIds(UpsertDecision(decisions, d)) <==> id == d.providerPartId || id in DecisionIds(decisions)
  {
    var kept := Filter(decisions, NotFor(d.providerPartId));
    DecisionIdsContain(kept, id);
    DecisionIdsContain(decisions, id);
    assert DecisionIds(kept + [d]) == DecisionIds(kept) + [d.providerPartId];
    assert forall x :: x in kept <==> x in decisions && NotFor(d.providerPartId)(x);
  }

  lemma {:induction false} UpsertedInOrder(decisions: seq<Decision>, d: Decision)
    requires d.providerPartId !in DecisionIds(decisions)
    ensures DecisionIds(UpsertDecision(decisions, d)) == DecisionIds(decisions) + [d.providerPartId]
  {
    DecisionIdsContain(decisions, d.providerPartId);
    FilterAll(decisions, NotFor(d.providerPartId));
  }

  lemma {:induction false} IdsDistinct(decisions: seq<Decision>)
    ensures NoDuplicates(DecisionIds(decisions)) <==> DistinctBy(decisions, PartId)
  {
    var ids := DecisionIds(decisions);
    forall i | 0 <= i < |ids| ensures ids[i] == PartId(decisions[i]) {
    }
  }

  lemma {:induction false} NamesAfterCall(calls: seq<ProviderPartId>, decisions: seq<Decision>, d: Decision)
    requires Names(calls, DecisionIds(decisions))
    ensures Names(calls + [d.providerPartId], DecisionIds(UpsertDecision(decisions, d)))
  {
    var next := calls + [d.providerPartId];
    var decided := DecisionIds(UpsertDecision(decisions, d));
    IdsDistinct(decisions);
    UpsertKeepsDistinct(decisions, d);
    IdsDistinct(UpsertDecision(decisions, d));
    forall id ensures id in next <==> id in decided {
      UpsertedIds(decisions, d, id);
    }
    if NoDuplicates(next) {
      var last := |calls|;
      forall i, j | 0 <= i < j < last ensures calls[i] != calls[j] {
        assert next[i] == calls[i] && next[j] == calls[j];
      }
      forall i | 0 <= i < last ensures calls[i] != d.providerPartId {
        assert next[i] == calls[i] && next[last] == d.providerPartId;
      }
      UpsertedInOrder(decisions, d);
    }
  }

  // ---------------------------------------------------------------------------
  // One terminal batch
  // ---------------------------------------------------------------------------

  predicate ClosesInference(payload: Payload) {
    payload.InferenceCompleted? || payload.InferenceFailed?
  }

  /** Only the last event of the batch closes the inference. */
  predicate ClosesLast(batch: seq<Payload>, completed: bool) {
    && batch != []
    && (forall i :: 0 <= i < |batch| - 1 ==> !ClosesInference(batch[i]))
    && ClosesInference(batch[|batch| - 1])
    && (batch[|batch| - 1].InferenceCompleted? <==> completed)
  }

  /** The batch names in its message what it decides; a failed one records no call and no decision. */
  ghost predicate TerminalBatch(batch: seq<Payload>, completed: bool) {
    && ClosesLast(batch, completed)
    && Names(MessageCallIds(batch), DecidedIds(batch))
    && (!completed ==> MessageCallIds(batch) == [] && DecidedIds(batch) == [])
  }

  /** What holds while the stream is open. */
  ghost predicate Open(s: RunState) {
    && !s.inference.sealed
    && s.committed == []
    && Names(EntryIds(s.context), DecisionIds(s.inference.decisions))
    && (HasAssistantContent(s.inference) ==> ContextParts(s.context) != [])
  }

  ghost predicate Closed(s: RunState, completed: bool) {
    s.inference.sealed && |s.committed| == 1 && TerminalBatch(s.committed[0], completed)
  }

  lemma {:induction false} MessageCallsJoin(a: seq<Payload>, b: seq<Payload>)
    ensures MessageCallIds(a + b) == MessageCallIds(a) + MessageCallIds(b)
  {
    if a == [] {
      assert a + b == b;
    } else {
      assert (a + b)[1..] == a[1..] + b;
      MessageCallsJoin(a[1..], b);
    }
  }

  lemma {:induction false} DecidedIdsJoin(a: seq<Payload>, b: seq<Payload>)
    ensures DecidedIds(a + b) == DecidedIds(a) + DecidedIds(b)
  {
    if a == [] {
      assert a + b == b;
    } else {
      assert (a + b)[1..] == a[1..] + b;
      DecidedIdsJoin(a[1..], b);
    }
  }

  lemma {:induction false} CommitsOfOne(
      emission: Emission, s: InferenceState, parts: seq<PromptPart>, messageId: MessageId)
    ensures Commits([emission], s, parts, messageId) == CommitOf(emission, s, parts, messageId)
  {
    assert [emission][1..] == [];
  }

  lemma {:induction false} DecisionEventIds(identity: Identity, decisions: seq<Decision>)
    ensures DecidedIds(MapSeq(decisions, PayloadOf(identity))) == DecisionIds(decisions)
    ensures MessageCallIds(MapSeq(decisions, PayloadOf(identity))) == []
  {
    var events := MapSeq(decisions, PayloadOf(identity));
    if decisions != [] {
      DecisionEventIds(identity, decisions[1..]);
      assert events[1..] == MapSeq(decisions[1..], PayloadOf(identity));
      assert events[0] == DecisionPayload(identity, decisions[0]);
      assert DecisionIds(decisions) == [decisions[0].providerPartId] + DecisionIds(decisions[1..]);
    }
  }

  lemma {:induction false} DecisionEventsStayOpen(identity: Identity, decisions: seq<Decision>, i: nat)
    requires i < |decisions|
    ensures !ClosesInference(MapSeq(decisions, PayloadOf(identity))[i])
  {
    assert MapSeq(decisions, PayloadOf(identity))[i] == DecisionPayload(identity, decisions[i]);
  }

  /**
   * The assistant message of a finished stream is exactly what the context recorded; the fallback text
   * is never needed.
   */
  lemma {:induction false} FinishedMessageIsTheContext(s: RunState, messageId: MessageId)
    requires Open(s)
    ensures AssistantEvent(s.inference, ContextParts(s.context), messageId) ==
            if ContextParts(s.context) == [] then []
            else
              var identity := s.inference.identity;
              [AssistantMessageCommitted(messageId, identity.runId, identity.turnId, identity.inferenceId,
                ContextParts(s.context))]
  {
  }

  lemma {:induction false} MessageOfCalls(payload: Payload, calls: seq<ProviderPartId>)
    requires payload.AssistantMessageCommitted? || payload.AssistantPartialCommitted?
    requires CallIds(payload.parts) == calls
    ensures MessageCallIds([payload]) == calls && DecidedIds([payload]) == []
  {
    assert [payload][1..] == [];
  }

  lemma {:induction false} AssistantEventCalls(s: RunState, messageId: MessageId)
    requires Open(s)
    ensures var message := AssistantEvent(s.inference, ContextParts(s.context), messageId);
            && |message| <= 1 && (message != [] ==> !ClosesInference(message[0]))
            && MessageCallIds(message) == EntryIds(s.context) && DecidedIds(message) == []
  {
    FinishedMessageIsTheContext(s, messageId);
    ContextCallIds(s.context);
    var message := AssistantEvent(s.inference, ContextParts(s.context), messageId);
    if ContextParts(s.context) != [] {
      MessageOfCalls(message[0], EntryIds(s.context));
    }
  }

  lemma {:induction false} PartialEventCalls(
      s: InferenceState, parts: seq<PromptPart>, messageId: MessageId, reason: Json)
    ensures var message := PartialEvent(s, parts, messageId, reason);
            && |message| <= 1 && (message != [] ==> !ClosesInference(message[0]))
            && MessageCallIds(message) == [] && DecidedIds(message) == []
  {
    if HasAssistantContent(s) {
      var message := PartialEvent(s, parts, messageId, reason);
      NoCalls(message[0].parts);
      MessageOfCalls(message[0], []);
    }
  }

  lemma {:induction false} FinishClosesLast(s: RunState, usage: Option<nat>, messageId: MessageId)
    requires Open(s)
    ensures ClosesLast(AssistantEvent(s.inference, ContextParts(s.context), messageId)
            + FinalEvents(s.inference, usage), true)
  {
    var message := AssistantEvent(s.inference, ContextParts(s.context), messageId);
    var events := MapSeq(s.inference.decisions, PayloadOf(s.inference.identity));
    forall i | 0 <= i < |events| ensures !ClosesInference(events[i]) {
      DecisionEventsStayOpen(s.inference.identity, s.inference.decisions, i);
    }
    assert |message| <= 1 && (message != [] ==> !ClosesInference(message[0]));
    var batch := message + FinalEvents(s.inference, usage);
    forall i | 0 <= i < |batch| - 1 ensures !ClosesInference(batch[i]) {
      assert batch[i] == if i < |message| then message[i] else events[i - |message|];
    }
  }

  lemma {:induction false} FinishBatchIds(s: RunState, usage: Option<nat>, messageId: MessageId)
    requires Open(s)
    ensures var batch := AssistantEvent(s.inference, ContextParts(s.context), messageId)
            + FinalEvents(s.inference, usage);
            MessageCallIds(batch) == EntryIds(s.context) && DecidedIds(batch) == DecisionIds(s.inference.decisions)
  {
    var message := AssistantEvent(s.inference, ContextParts(s.context), messageId);
    var events := MapSeq(s.inference.decisions, PayloadOf(s.inference.identity));
    var end := [InferenceCompleted(s.inference.identity.runId, s.inference.identity.inferenceId, usage)];
    AssistantEventCalls(s, messageId);
    DecisionEventIds(s.inference.identity, s.inference.decisions);
    MessageCallsJoin(message, events + end);
    MessageCallsJoin(events, end);
    DecidedIdsJoin(message, events + end);
    DecidedIdsJoin(events, end);
    assert end[1..] == [];
    assert MessageCallIds(end) == [] && DecidedIds(end) == [];
  }

  lemma {:induction false} FinishBatch(s: RunState, usage: Option<nat>, messageId: MessageId)
    requires Open(s)
    ensures TerminalBatch(AssistantEvent(s.inference, ContextParts(s.context), messageId)
            + FinalEvents(s.inference, usage), true)
  {
    FinishClosesLast(s, usage, messageId);
    FinishBatchIds(s, usage, messageId);
  }

  lemma {:induction false} FailureBatch(
      s: InferenceState, parts: seq<PromptPart>, messageId: MessageId, reason: Json, failure: Json)
    ensures TerminalBatch(PartialEvent(s, parts, messageId, reason)
            + [InferenceFailed(s.identity.inferenceId, failure)], false)
  {
    var end := [InferenceFailed(s.identity.inferenceId, failure)];
    PartialEventCalls(s, parts, messageId, reason);
    MessageCallsJoin(PartialEvent(s, parts, messageId, reason), end);
    DecidedIdsJoin(PartialEvent(s, parts, messageId, reason), end);
  }

  /** The parts that end a stream. */
  predicate EndsStream(part: StreamPart) {
    match part
    case FinishPart(_) => true
    case ErrorPart(_) => true
    case ParamsStartPart(_, _, providerExecuted) => providerExecuted
    case ToolCallPart(_, _, _, providerExecuted) => providerExecuted
    case ToolResultPart(_, _, providerExecuted, preliminary) => providerExecuted && !preliminary
    case _ => false
  }

  /** A stream completes exactly when the first part that ends it is a finish. */
  predicate Completes(arrivals: seq<Arrival>) {
    arrivals != [] && if EndsStream(arrivals[0].part) then arrivals[0].part.FinishPart? else Completes(arrivals[1..])
  }

  lemma {:induction false} FinishCommits(s: RunState, usage: Option<nat>, messageId: MessageId)
    requires Open(s)
    ensures var committed := Commits([Finalize(FinalEvents(s.inference, usage))], s.inference.(sealed := true),
            ContextParts(s.context), messageId);
            |committed| == 1 && TerminalBatch(committed[0], true)
  {
    var next := s.inference.(sealed := true);
    CommitsOfOne(Finalize(FinalEvents(s.inference, usage)), next, ContextParts(s.context), messageId);
    assert AssistantEvent(next, ContextParts(s.context), messageId)
           == AssistantEvent(s.inference, ContextParts(s.context), messageId);
    FinishBatch(s, usage, messageId);
  }

  lemma {:induction false} RecordFinish(s: RunState, a: Arrival)
    requires Open(s) && a.part.FinishPart?
    ensures Closed(RecordPart(s, a), true)
  {
    assert Step(s.inference, MakeStepInput(s.inference, a))
        == StepResult(s.inference.(sealed := true), [Finalize(FinalEvents(s.inference, a.part.usage))]);
    assert RecordResponseContext(s.context, a.part) == s.context;
    FinishCommits(s, a.part.usage, a.messageId);
  }

  lemma {:induction false} FailureCommits(
      s: InferenceState, parts: seq<PromptPart>, messageId: MessageId, failure: Json)
    ensures var committed := Commits([Fail(failure)], s, parts, messageId);
            |committed| == 1 && TerminalBatch(committed[0], false)
  {
    CommitsOfOne(Fail(failure), s, parts, messageId);
    FailureBatch(s, parts, messageId, FAILED, failure);
  }

  lemma {:induction false} RecordFailure(s: RunState, a: Arrival)
    requires Open(s) && EndsStream(a.part) && !a.part.FinishPart?
    ensures Closed(RecordPart(s, a), false)
  {
    var input := MakeStepInput(s.inference, a);
    assert Step(s.inference, input) == StepResult(s.inference.(sealed := true), [Fail(input.error)]);
    assert RecordResponseContext(s.context, a.part) == s.context;
    FailureCommits(s.inference.(sealed := true), ContextParts(s.context), a.messageId, input.error);
  }

  /** What one open step leaves of the fold: whether something was said, and what was decided. */
  lemma {:induction false} OpenStep(s: InferenceState, a: Arrival)
    requires !s.sealed && !OnlyCounted(a.part) && !EndsStream(a.part)
    ensures var input := MakeStepInput(s, a);
            var r := Step(s, input);
            && !r.next.sealed
            && r.next.decisions == (if input.ToolCallInput? then
                                      UpsertDecision(s.decisions, MakeToolCallDecision(input, ResolvedId(s, input)))
                                    else s.decisions)
            && (input.ToolCallInput? <==> a.part.ToolCallPart?) && (input.ToolCallInput? ==> input.id == a.part.id)
            && |r.emissions| <= 1 && (r.emissions != [] ==> !r.emissions[0].Terminal())
            && (HasAssistantContent(r.next) ==>
                  HasAssistantContent(s) || Says(a.part))
  {
    StepDecisions(s, MakeStepInput(s, a));
  }

  lemma {:induction false} OpenCommits(
      emissions: seq<Emission>, s: InferenceState, parts: seq<PromptPart>, messageId: MessageId)
    requires |emissions| <= 1 && (emissions != [] ==> !emissions[0].Terminal())
    ensures Commits(emissions, s, parts, messageId) == []
  {
    if emissions != [] {
      assert emissions == [emissions[0]];
      CommitsOfOne(emissions[0], s, parts, messageId);
    }
  }

  lemma {:induction false} ContextCalls(entries: seq<ContextEntry>, part: StreamPart)
    requires !EndsStream(part)
    ensures EntryIds(RecordResponseContext(entries, part)) ==
            if part.ToolCallPart? then EntryIds(entries) + [part.id] else EntryIds(entries)
  {
    match part
    case TextBoundaryPart(id, metadata) => TextKeepsCalls(entries, false, id, "", metadata);
    case TextDeltaPart(id, delta, metadata) => TextKeepsCalls(entries, false, id, delta, metadata);
    case ReasoningBoundaryPart(id, metadata) => TextKeepsCalls(entries, true, id, "", metadata);
    case ReasoningDeltaPart(id, delta, metadata) => TextKeepsCalls(entries, true, id, delta, metadata);
    case ToolCallPart(id, name, params, _) =>
      var call := Call(CallPart(id, name, params, false));
      EntryIdsJoin(entries, [call]);
      assert [call][1..] == [];
      assert EntryIds([call]) == [id];
    case _ =>
  }

  predicate Says(part: StreamPart) {
    (part.TextDeltaPart? || part.ReasoningDeltaPart?) && part.delta != ""
  }

  lemma {:induction false} PartsJoin(a: seq<ContextEntry>, b: seq<ContextEntry>)
    ensures ContextParts(a + b) == ContextParts(a) + ContextParts(b)
  {
    if a == [] {
      assert a + b == b;
    } else {
      assert (a + b)[1..] == a[1..] + b;
      PartsJoin(a[1..], b);
    }
  }

  lemma {:induction false} ContextSays(entries: seq<ContextEntry>, part: StreamPart)
    requires ContextParts(entries) != [] || Says(part)
    ensures ContextParts(RecordResponseContext(entries, part)) != []
  {
    match part
    case TextBoundaryPart(id, metadata) => TextIsSaid(entries, false, id, "", metadata);
    case TextDeltaPart(id, delta, metadata) => TextIsSaid(entries, false, id, delta, metadata);
    case ReasoningBoundaryPart(id, metadata) => TextIsSaid(entries, true, id, "", metadata);
    case ReasoningDeltaPart(id, delta, metadata) => TextIsSaid(entries, true, id, delta, metadata);
    case ToolCallPart(id, name, params, _) => PartsJoin(entries, [Call(CallPart(id, name, params, false))]);
    case _ =>
  }

  lemma {:induction false} OpenNames(s: RunState, a: Arrival)
    requires Open(s) && !OnlyCounted(a.part) && !EndsStream(a.part)
    ensures Names(EntryIds(RecordResponseContext(s.context, a.part)),
                  DecisionIds(Step(s.inference, MakeStepInput(s.inference, a)).next.decisions))
  {
    var input := MakeStepInput(s.inference, a);
    OpenStep(s.inference, a);
    ContextCalls(s.context, a.part);
    if input.ToolCallInput? {
      NamesAfterCall(EntryIds(s.context), s.inference.decisions,
        MakeToolCallDecision(input, ResolvedId(s.inference, input)));
    }
  }

  lemma {:induction false} OpenSays(s: RunState, a: Arrival)
    requires Open(s) && !OnlyCounted(a.part) && !EndsStream(a.part)
    requires HasAssistantContent(Step(s.inference, MakeStepInput(s.inference, a)).next)
    ensures ContextParts(RecordResponseContext(s.context, a.part)) != []
  {
    OpenStep(s.inference, a);
    ContextSays(s.context, a.part);
  }

  lemma {:induction false} RecordOpen(s: RunState, a: Arrival)
    requires Open(s) && !EndsStream(a.part)
    ensures Open(RecordPart(s, a))
  {
    if !OnlyCounted(a.part) {
      var stepped := Step(s.inference, MakeStepInput(s.inference, a));
      OpenStep(s.inference, a);
      OpenCommits(stepped.emissions, stepped.next, ContextParts(RecordResponseContext(s.context, a.part)), a.messageId);
      OpenNames(s, a);
      if HasAssistantContent(stepped.next) {
        OpenSays(s, a);
      }
    }
  }

  lemma {:induction false} RecordEnd(s: RunState, a: Arrival)
    requires Open(s) && EndsStream(a.part)
    ensures Closed(RecordPart(s, a), a.part.FinishPart?)
  {
    if a.part.FinishPart? {
      RecordFinish(s, a);
    } else {
      RecordFailure(s, a);
    }
  }

  lemma {:induction false} RecordedBatch(s: RunState, arrivals: seq<Arrival>, messageId: MessageId)
    requires Open(s)
    ensures Closed(EndStream(RecordAll(s, arrivals), messageId), Completes(arrivals))
    decreases |arrivals|
  {
    if arrivals == [] {
      FailureCommits(s.inference.(sealed := true), [], messageId, "Provider stream ended without a finish part");
    } else if EndsStream(arrivals[0].part) {
      RecordEnd(s, arrivals[0]);
      SealedStays(RecordPart(s, arrivals[0]), arrivals[1..]);
    } else {
      RecordOpen(s, arrivals[0]);
      RecordedBatch(RecordPart(s, arrivals[0]), arrivals[1..], messageId);
    }
  }

  lemma {:induction false} SealedStays(s: RunState, arrivals: seq<Arrival>)
    requires s.inference.sealed
    ensures RecordAll(s, arrivals) == s
    decreases |arrivals|
  {
    if arrivals != [] {
      SealedStays(s, arrivals[1..]);
    }
  }

  /**
   * Over any provider stream one durable batch is committed. Its assistant message calls exactly the provider ids
   * its decisions name, in the same order exactly when no call id repeats; a stream that fails records neither.
   */
  lemma {:induction false} OneTerminalBatch(identity: Identity, arrivals: seq<Arrival>, messageId: MessageId)
    ensures Closed(RunInference(identity, arrivals, messageId), Completes(arrivals))
  {
    RecordedBatch(InitialRun(identity), arrivals, messageId);
  }

  // ---------------------------------------------------------------------------
  // Interrupts
  // ---------------------------------------------------------------------------

  /**
   * Where an interrupt stops a run: after some of the parts, while a part is being recorded
   * and nothing of it is committed yet, or when the stream has ended but its result is not returned yet.
   */
  datatype StopPoint = AfterParts(n: nat) | Recording(n: nat) | Ended(messageId: MessageId)

  predicate Reachable(stop: StopPoint, arrivals: seq<Arrival>) {
    match stop
    case AfterParts(n) => n <= |arrivals|
    case Recording(n) => n < |arrivals|
    case Ended(_) => true
  }

  /** The state the release finds: the last one recorded, whatever of it is committed. */
  function StateAt(identity: Identity, arrivals: seq<Arrival>, stop: StopPoint): RunState
    requires Reachable(stop, arrivals)
  {
    match stop
    case AfterParts(n) => RecordAll(InitialRun(identity), arrivals[..n])
    case Recording(n) =>
      var before := RecordAll(InitialRun(identity), arrivals[..n]);
      RecordPart(before, arrivals[n]).(committed := before.committed)
    case Ended(messageId) => EndStream(RecordAll(InitialRun(identity), arrivals), messageId)
  }

  /** The release commits a partial message and a failure; it looks neither at what is committed nor at the seal. */
  function Release(s: RunState, messageId: MessageId, reason: Json, failure: Json): RunState {
    var batch := PartialEvent(s.inference, ContextParts(s.context), messageId, reason)
                 + [InferenceFailed(s.inference.identity.inferenceId, failure)];
    s.(committed := s.committed + [batch])
  }

  function Interrupted(identity: Identity, arrivals: seq<Arrival>, stop: StopPoint, messageId: MessageId): RunState
    requires Reachable(stop, arrivals)
  {
    Release(StateAt(identity, arrivals, stop), messageId, INTERRUPTED, "inference interrupted")
  }

  /** A part that ends the stream is among the arrivals. */
  predicate HasEnd(arrivals: seq<Arrival>) {
    exists i :: 0 <= i < |arrivals| && EndsStream(arrivals[i].part)
  }

  lemma {:induction false} HasEndCons(arrivals: seq<Arrival>)
    requires arrivals != []
    ensures HasEnd(arrivals) <==> EndsStream(arrivals[0].part) || HasEnd(arrivals[1..])
  {
    if i :| 0 <= i < |arrivals| && EndsStream(arrivals[i].part) {
      assert i > 0 ==> EndsStream(arrivals[1..][i - 1].part);
    }
    if i :| 0 <= i < |arrivals[1..]| && EndsStream(arrivals[1..][i].part) {
      assert EndsStream(arrivals[i + 1].part);
    }
  }

  /** Recorded so far: open, or closed by the first part that ended the stream. */
  lemma {:induction false} RecordedSoFar(s: RunState, arrivals: seq<Arrival>)
    requires Open(s)
    ensures if HasEnd(arrivals)
            then Closed(RecordAll(s, arrivals), Completes(arrivals))
            else Open(RecordAll(s, arrivals))
    decreases |arrivals|
  {
    if arrivals != [] {
      HasEndCons(arrivals);
      if EndsStream(arrivals[0].part) {
        RecordEnd(s, arrivals[0]);
        SealedStays(RecordPart(s, arrivals[0]), arrivals[1..]);
      } else {
        RecordOpen(s, arrivals[0]);
        RecordedSoFar(RecordPart(s, arrivals[0]), arrivals[1..]);
      }
    }
  }

  /** The terminal batch of the stream was committed before the interrupt. */
  predicate CommittedBefore(arrivals: seq<Arrival>, stop: StopPoint)
    requires Reachable(stop, arrivals)
  {
    match stop
    case AfterParts(n) => HasEnd(arrivals[..n])
    case Recording(n) => HasEnd(arrivals[..n])
    case Ended(_) => true
  }

  lemma {:induction false} CommittedAt(identity: Identity, arrivals: seq<Arrival>, stop: StopPoint)
    requires Reachable(stop, arrivals)
    ensures var committed := StateAt(identity, arrivals, stop).committed;
            if CommittedBefore(arrivals, stop)
            then |committed| == 1 && TerminalBatch(committed[0], Completes(if stop.Ended?
              then arrivals
              else arrivals[..stop.n]))
            else committed == []
  {
    match stop
    case AfterParts(n) => RecordedSoFar(InitialRun(identity), arrivals[..n]);
    case Recording(n) => RecordedSoFar(InitialRun(identity), arrivals[..n]);
    case Ended(messageId) => RecordedBatch(InitialRun(identity), arrivals, messageId);
  }

  /**
   * An interrupted run commits a second terminal batch exactly when its stream's own was committed before: one
   * that fails the inference, although the first may have completed it. Otherwise it commits just the failure.
   */
  lemma {:induction false} SecondBatchExactly(
      identity: Identity, arrivals: seq<Arrival>, stop: StopPoint, messageId: MessageId)
    requires Reachable(stop, arrivals)
    ensures var committed := Interrupted(identity, arrivals, stop, messageId).committed;
            && committed != [] && TerminalBatch(committed[|committed| - 1], false)
            && |committed| == (if CommittedBefore(arrivals, stop) then 2 else 1)
            && (|committed| == 2 ==>
                  TerminalBatch(committed[0], Completes(if stop.Ended? then arrivals else arrivals[..stop.n])))
  {
    var s := StateAt(identity, arrivals, stop);
    CommittedAt(identity, arrivals, stop);
    FailureBatch(s.inference, ContextParts(s.context), messageId, INTERRUPTED, "inference interrupted");
  }

  /** A stream that stays open after its finish: an interrupt then fails the inference that was completed. */
  lemma {:induction false} CompletedThenFailed(identity: Identity, usage: Option<nat>, messageId: MessageId)
    ensures var finish := Arrival(FinishPart(usage), "", UnknownTool, "");
            var committed := Interrupted(identity, [finish], AfterParts(1), messageId).committed;
            |committed| == 2 && TerminalBatch(committed[0], true) && TerminalBatch(committed[1], false)
  {
    var arrivals := [Arrival(FinishPart(usage), "", UnknownTool, "")];
    SecondBatchExactly(identity, arrivals, AfterParts(1), messageId);
    assert arrivals[..1] == arrivals && EndsStream(arrivals[0].part);
  }
}
