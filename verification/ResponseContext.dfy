/** What a response's context holds after any parts of its stream: who opened each entry, and the text it gathered. */
module ResponseContext {
  import opened Collections
  import opened Events
  import opened Inference
  import opened InferenceRunner

  // ---------------------------------------------------------------------------
  // The parts that reach the context
  // ---------------------------------------------------------------------------

  /** The parts before the first one that ends the stream. */
  function Heard(arrivals: seq<Arrival>): seq<StreamPart>
    decreases |arrivals|
  {
    if arrivals == [] || EndsStream(arrivals[0].part) then [] else [arrivals[0].part] + Heard(arrivals[1..])
  }

  function Gathered(entries: seq<ContextEntry>, parts: seq<StreamPart>): seq<ContextEntry> {
    if parts == [] then entries
    else RecordResponseContext(Gathered(entries, parts[..|parts| - 1]), parts[|parts| - 1])
  }

  lemma {:induction false} GatheredCons(entries: seq<ContextEntry>, part: StreamPart, parts: seq<StreamPart>)
    ensures Gathered(entries, [part] + parts) == Gathered(RecordResponseContext(entries, part), parts)
    decreases |parts|
  {
    var all := [part] + parts;
    if parts == [] {
      assert all[..0] == [];
      assert Gathered(entries, all[..0]) == entries;
    } else {
      assert all[..|all| - 1] == [part] + parts[..|parts| - 1];
      GatheredCons(entries, part, parts[..|parts| - 1]);
    }
  }

  // ---------------------------------------------------------------------------
  // What the context should hold
  // ---------------------------------------------------------------------------

  /** Text and reasoning are kept apart, each under its provider's part id. */
  datatype Key = Key(reasoning: bool, id: ProviderPartId)

  function KeyOf(part: StreamPart): Option<Key> {
    match part
    case TextBoundaryPart(id, _) => Some(Key(false, id))
    case TextDeltaPart(id, _, _) => Some(Key(false, id))
    case ReasoningBoundaryPart(id, _) => Some(Key(true, id))
    case ReasoningDeltaPart(id, _, _) => Some(Key(true, id))
    case _ => None
  }

  function DeltaOf(part: StreamPart): Json {
    match part
    case TextDeltaPart(_, delta, _) => delta
    case ReasoningDeltaPart(_, delta, _) => delta
    case _ => ""
  }

  predicate IsCall(part: StreamPart) {
    part.ToolCallPart? && !part.providerExecuted
  }

  predicate Mentions(parts: seq<StreamPart>, key: Key) {
    exists part :: part in parts && KeyOf(part) == Some(key)
  }

  /** The deltas of a key, one after the other. */
  function TextUnder(parts: seq<StreamPart>, key: Key): Json {
    if parts == [] then ""
    else
      var front, last := parts[..|parts| - 1], parts[|parts| - 1];
      TextUnder(front, key) + if KeyOf(last) == Some(key) then DeltaOf(last) else ""
  }

  function MetadataOf(part: StreamPart): Option<Metadata> {
    match part
    case TextBoundaryPart(_, metadata) => metadata
    case TextDeltaPart(_, _, metadata) => metadata
    case ReasoningBoundaryPart(_, metadata) => metadata
    case ReasoningDeltaPart(_, _, metadata) => metadata
    case _ => None
  }

  /** Some part under the key brought metadata. */
  predicate CarriesMetadata(parts: seq<StreamPart>, key: Key) {
    exists part :: part in parts && KeyOf(part) == Some(key) && BringsMetadata(part)
  }

  predicate BringsMetadata(part: StreamPart) {
    MetadataOf(part).Some? && MetadataOf(part).value != map[]
  }

  /** The parts that open an entry: the first of each key, and every call. */
  function Openers(parts: seq<StreamPart>): seq<StreamPart> {
    if parts == [] then []
    else
      var front, last := parts[..|parts| - 1], parts[|parts| - 1];
      var opens := IsCall(last) || (KeyOf(last).Some? && !Mentions(front, KeyOf(last).value));
      if opens then Openers(front) + [last] else Openers(front)
  }

  predicate UnderKey(entry: ContextEntry, key: Key) {
    entry.Textual? && entry.reasoning == key.reasoning && entry.id == key.id
  }

  /** An entry holds the call that opened it, or all the text under its opener's key. */
  predicate Holds(entry: ContextEntry, opener: StreamPart, parts: seq<StreamPart>) {
    if IsCall(opener) then entry == Call(CallPart(opener.id, opener.name, opener.params, false))
    else
      && KeyOf(opener).Some?
      && var key := KeyOf(opener).value;
         && UnderKey(entry, key) && entry.text == TextUnder(parts, key)
         && (entry.metadata != map[] <==> CarriesMetadata(parts, key))
  }

  ghost predicate HoldsEach(entries: seq<ContextEntry>, openers: seq<StreamPart>, parts: seq<StreamPart>) {
    |entries| == |openers| && forall i :: 0 <= i < |entries| ==> Holds(entries[i], openers[i], parts)
  }

  ghost predicate OneOpenerEach(openers: seq<StreamPart>) {
    forall i, j :: 0 <= i < j < |openers| && KeyOf(openers[i]).Some? ==> KeyOf(openers[i]) != KeyOf(openers[j])
  }

  lemma {:induction false} OpenersOfKeys(parts: seq<StreamPart>, key: Key)
    ensures OneOpenerEach(Openers(parts))
    ensures Mentions(parts, key) <==> Mentions(Openers(parts), key)
  {
    if parts != [] {
      var front, last := parts[..|parts| - 1], parts[|parts| - 1];
      assert parts == front + [last];
      OpenersOfKeys(front, key);
      if KeyOf(last).Some? {
        OpenersOfKeys(front, KeyOf(last).value);
      }
      assert forall i :: 0 <= i < |Openers(front)| ==> Openers(front)[i] in Openers(front);
    }
  }

  // ---------------------------------------------------------------------------
  // It holds that
  // ---------------------------------------------------------------------------

  lemma {:induction false} UpsertAppends(
      entries: seq<ContextEntry>, key: Key, delta: Json, metadata: Option<Metadata>)
    requires forall entry :: entry in entries ==> !UnderKey(entry, key)
    ensures var r := UpsertTextual(entries, key.reasoning, key.id, delta, metadata);
            |r| == |entries| + 1 && r[..|entries|] == entries
            && UnderKey(r[|entries|], key) && r[|entries|].text == delta
            && r[|entries|].metadata == (if metadata.Some? then metadata.value else map[])
  {
    if entries != [] {
      assert entries[0] in entries;
      UpsertAppends(entries[1..], key, delta, metadata);
    }
  }

  lemma {:induction false} UpsertExtends(
      entries: seq<ContextEntry>, key: Key, delta: Json, metadata: Option<Metadata>, i: nat)
    requires i < |entries| && UnderKey(entries[i], key)
    requires forall j :: 0 <= j < i ==> !UnderKey(entries[j], key)
    ensures var r := UpsertTextual(entries, key.reasoning, key.id, delta, metadata);
            && |r| == |entries| && UnderKey(r[i], key) && r[i].text == entries[i].text + delta
            && r[i].metadata == MergeMetadata(entries[i].metadata, metadata)
            && forall j :: 0 <= j < |r| && j != i ==> r[j] == entries[j]
  {
    if i > 0 {
      UpsertExtends(entries[1..], key, delta, metadata, i - 1);
    }
  }

  lemma {:induction false} TextGrows(parts: seq<StreamPart>, last: StreamPart, key: Key)
    ensures TextUnder(parts + [last], key) ==
            if KeyOf(last) == Some(key) then TextUnder(parts, key) + DeltaOf(last) else TextUnder(parts, key)
    ensures CarriesMetadata(parts + [last], key)
            <==> CarriesMetadata(parts, key) || (KeyOf(last) == Some(key) && BringsMetadata(last))
  {
    assert (parts + [last])[..|parts|] == parts;
    assert forall part :: part in parts + [last] <==> part in parts || part == last;
  }

  lemma {:induction false} MergedIsEmpty(left: Metadata, right: Option<Metadata>)
    ensures MergeMetadata(left, right) != map[] <==> left != map[] || (right.Some? && right.value != map[])
  {
    if left != map[] {
      MergeKeepsMetadata(left, right);
    } else if right.Some? && right.value != map[] {
      var k :| k in right.value;
      assert k in MergeMetadata(left, right);
    }
  }

  /** Entries whose key is not mentioned hold what they held. */
  lemma {:induction false} StillHolds(
      entry: ContextEntry, opener: StreamPart, parts: seq<StreamPart>, last: StreamPart)
    requires Holds(entry, opener, parts) && (IsCall(opener) || KeyOf(last) != KeyOf(opener))
    ensures Holds(entry, opener, parts + [last])
  {
    if !IsCall(opener) {
      TextGrows(parts, last, KeyOf(opener).value);
    }
  }

  lemma {:induction false} OthersStillHold(entries: seq<ContextEntry>, parts: seq<StreamPart>, last: StreamPart)
    requires HoldsEach(entries, Openers(parts), parts)
    requires KeyOf(last).Some? && !Mentions(parts, KeyOf(last).value)
    ensures HoldsEach(entries, Openers(parts), parts + [last])
    ensures forall entry :: entry in entries ==> !UnderKey(entry, KeyOf(last).value)
  {
    var key, openers := KeyOf(last).value, Openers(parts);
    OpenersOfKeys(parts, key);
    forall i | 0 <= i < |entries|
      ensures !UnderKey(entries[i], key) && Holds(entries[i], openers[i], parts + [last])
    {
      assert openers[i] in openers;
      StillHolds(entries[i], openers[i], parts, last);
    }
  }

  lemma {:induction false} HoldsOneMore(
      entries: seq<ContextEntry>, r: seq<ContextEntry>, openers: seq<StreamPart>, opener: StreamPart,
      parts: seq<StreamPart>)
    requires HoldsEach(entries, openers, parts)
    requires |r| == |entries| + 1 && r[..|entries|] == entries && Holds(r[|entries|], opener, parts)
    ensures HoldsEach(r, openers + [opener], parts)
  {
    forall i | 0 <= i < |r| ensures Holds(r[i], (openers + [opener])[i], parts) {
      if i < |entries| {
        assert r[i] == r[..|entries|][i];
      }
    }
  }

  lemma {:induction false} NewKeyHolds(entries: seq<ContextEntry>, parts: seq<StreamPart>, last: StreamPart)
    requires HoldsEach(entries, Openers(parts), parts)
    requires KeyOf(last).Some? && !Mentions(parts, KeyOf(last).value)
    ensures HoldsEach(RecordResponseContext(entries, last), Openers(parts) + [last], parts + [last])
  {
    var key := KeyOf(last).value;
    OthersStillHold(entries, parts, last);
    UpsertAppends(entries, key, DeltaOf(last), MetadataOf(last));
    NoTextYet(parts, key);
    TextGrows(parts, last, key);
    var r := UpsertTextual(entries, key.reasoning, key.id, DeltaOf(last), MetadataOf(last));
    assert RecordResponseContext(entries, last) == r;
    HoldsOneMore(entries, r, Openers(parts), last, parts + [last]);
  }

  lemma {:induction false} NoTextYet(parts: seq<StreamPart>, key: Key)
    requires !Mentions(parts, key)
    ensures TextUnder(parts, key) == "" && !CarriesMetadata(parts, key)
  {
    if parts != [] {
      assert parts[|parts| - 1] in parts;
      assert forall part :: part in parts[..|parts| - 1] ==> part in parts;
      NoTextYet(parts[..|parts| - 1], key);
    }
  }

  lemma {:induction false} KnownKeyHolds(entries: seq<ContextEntry>, parts: seq<StreamPart>, last: StreamPart)
    requires HoldsEach(entries, Openers(parts), parts)
    requires KeyOf(last).Some? && Mentions(parts, KeyOf(last).value)
    ensures HoldsEach(RecordResponseContext(entries, last), Openers(parts), parts + [last])
  {
    var key, openers := KeyOf(last).value, Openers(parts);
    OpenersOfKeys(parts, key);
    var opener :| opener in openers && KeyOf(opener) == Some(key);
    var i :| 0 <= i < |openers| && openers[i] == opener;
    forall j | 0 <= j < |entries| && j != i
      ensures !UnderKey(entries[j], key) && Holds(entries[j], openers[j], parts + [last])
    {
      assert KeyOf(openers[j]) != Some(key);
      StillHolds(entries[j], openers[j], parts, last);
    }
    UpsertExtends(entries, key, DeltaOf(last), MetadataOf(last), i);
    MergedIsEmpty(entries[i].metadata, MetadataOf(last));
    TextGrows(parts, last, key);
    assert RecordResponseContext(entries, last)
        == UpsertTextual(entries, key.reasoning, key.id, DeltaOf(last), MetadataOf(last));
  }

  lemma {:induction false} OtherPartHolds(entries: seq<ContextEntry>, parts: seq<StreamPart>, last: StreamPart)
    requires HoldsEach(entries, Openers(parts), parts) && KeyOf(last).None?
    ensures HoldsEach(RecordResponseContext(entries, last),
                      if IsCall(last) then Openers(parts) + [last] else Openers(parts), parts + [last])
  {
    var openers := Openers(parts);
    forall i | 0 <= i < |entries| ensures Holds(entries[i], openers[i], parts + [last]) {
      StillHolds(entries[i], openers[i], parts, last);
    }
  }

  /**
   * The context of any parts: one entry for each first mention of a text or reasoning part and for each call, in
   * the order they came, with all the text under its key in order.
   */
  lemma {:induction false} ContextExactly(parts: seq<StreamPart>)
    ensures HoldsEach(Gathered([], parts), Openers(parts), parts)
  {
    if parts != [] {
      var front, last := parts[..|parts| - 1], parts[|parts| - 1];
      assert parts == front + [last];
      ContextExactly(front);
      var entries := Gathered([], front);
      if KeyOf(last).None? {
        OtherPartHolds(entries, front, last);
      } else if Mentions(front, KeyOf(last).value) {
        KnownKeyHolds(entries, front, last);
      } else {
        NewKeyHolds(entries, front, last);
      }
    }
  }

  // ---------------------------------------------------------------------------
  // What is said
  // ---------------------------------------------------------------------------

  /** What an opened entry says: its call, its text if any, or its reasoning if that has text or metadata. */
  function SaidOf(parts: seq<StreamPart>): StreamPart -> Option<PromptPart> {
    (opener: StreamPart) =>
      if IsCall(opener) then Some(ToolCall(CallPart(opener.id, opener.name, opener.params, false)))
      else if KeyOf(opener).None? then None
      else
        var key := KeyOf(opener).value;
        var text := TextUnder(parts, key);
        if text == "" && !(key.reasoning && CarriesMetadata(parts, key)) then None
        else if key.reasoning then Some(ReasoningPart(text)) else Some(TextPart(text))
  }

  lemma {:induction false} EntrySays(entry: ContextEntry, opener: StreamPart, parts: seq<StreamPart>)
    requires Holds(entry, opener, parts)
    ensures EntryParts(entry) == if SaidOf(parts)(opener).Some? then [SaidOf(parts)(opener).value] else []
  {
  }

  lemma {:induction false} ContextSaid(entries: seq<ContextEntry>, openers: seq<StreamPart>, parts: seq<StreamPart>)
    requires HoldsEach(entries, openers, parts)
    ensures ContextParts(entries) == FilterMap(openers, SaidOf(parts))
  {
    if entries != [] {
      EntrySays(entries[0], openers[0], parts);
      ContextSaid(entries[1..], openers[1..], parts);
    }
  }

  // ---------------------------------------------------------------------------
  // The batch, event by event
  // ---------------------------------------------------------------------------

  /** The part that ends the stream. */
  function FirstEnd(arrivals: seq<Arrival>): Option<Arrival>
    decreases |arrivals|
  {
    if arrivals == [] then None
    else if EndsStream(arrivals[0].part) then Some(arrivals[0]) else FirstEnd(arrivals[1..])
  }

  /** The state when that part arrives. */
  function Reached(s: RunState, arrivals: seq<Arrival>): RunState
    decreases |arrivals|
  {
    if arrivals == [] || EndsStream(arrivals[0].part) then s else Reached(RecordPart(s, arrivals[0]), arrivals[1..])
  }

  /** What a part adds to the text, or to the reasoning. */
  function Adds(part: StreamPart, reasoning: bool): Json {
    if KeyOf(part).Some? && KeyOf(part).value.reasoning == reasoning then DeltaOf(part) else ""
  }

  /** All text, or all reasoning, whatever its part. */
  function AllText(parts: seq<StreamPart>, reasoning: bool): Json {
    if parts == [] then "" else Adds(parts[0], reasoning) + AllText(parts[1..], reasoning)
  }

  lemma {:induction false} StepSpeaks(s: InferenceState, a: Arrival)
    requires !s.sealed && !OnlyCounted(a.part) && !EndsStream(a.part)
    ensures var next := Step(s, MakeStepInput(s, a)).next;
            && next.identity == s.identity
            && next.assistantText == s.assistantText + Adds(a.part, false)
            && next.reasoningText == s.reasoningText + Adds(a.part, true)
  {
  }

  lemma {:induction false} PartSpeaks(s: RunState, a: Arrival)
    requires InferenceRunner.Open(s) && !EndsStream(a.part)
    ensures var next := RecordPart(s, a).inference;
            && next.identity == s.inference.identity
            && next.assistantText == s.inference.assistantText + Adds(a.part, false)
            && next.reasoningText == s.inference.reasoningText + Adds(a.part, true)
  {
    if !OnlyCounted(a.part) {
      StepSpeaks(s.inference, a);
    }
  }

  /** The two states carry on from each other with the text of the parts. */
  predicate Continues(s: InferenceState, t: InferenceState, parts: seq<StreamPart>) {
    && t.identity == s.identity
    && t.assistantText == s.assistantText + AllText(parts, false)
    && t.reasoningText == s.reasoningText + AllText(parts, true)
  }

  lemma {:induction false} ContinuesFurther(
      s: InferenceState, next: InferenceState, t: InferenceState, part: StreamPart, parts: seq<StreamPart>)
    requires next.identity == s.identity
    requires next.assistantText == s.assistantText + Adds(part, false)
    requires next.reasoningText == s.reasoningText + Adds(part, true)
    requires Continues(next, t, parts)
    ensures Continues(s, t, [part] + parts)
  {
    assert ([part] + parts)[1..] == parts;
  }

  lemma {:induction false} ReachedSpeaks(s: RunState, arrivals: seq<Arrival>)
    requires InferenceRunner.Open(s)
    ensures InferenceRunner.Open(Reached(s, arrivals))
    ensures Continues(s.inference, Reached(s, arrivals).inference, Heard(arrivals))
    decreases |arrivals|
  {
    if arrivals != [] && !EndsStream(arrivals[0].part) {
      var a, rest := arrivals[0], arrivals[1..];
      var next := RecordPart(s, a);
      RecordOpen(s, a);
      PartSpeaks(s, a);
      ReachedSpeaks(next, rest);
      ContinuesFurther(s.inference, next.inference, Reached(next, rest).inference, a.part, Heard(rest));
    }
  }

  lemma {:induction false} ReachedHeard(s: RunState, arrivals: seq<Arrival>)
    requires InferenceRunner.Open(s)
    ensures Reached(s, arrivals).context == Gathered(s.context, Heard(arrivals))
    decreases |arrivals|
  {
    if arrivals != [] && !EndsStream(arrivals[0].part) {
      var a := arrivals[0];
      RecordOpen(s, a);
      ReachedHeard(RecordPart(s, a), arrivals[1..]);
      GatheredCons(s.context, a.part, Heard(arrivals[1..]));
      assert RecordPart(s, a).context == RecordResponseContext(s.context, a.part);
    }
  }

  /** Why a stream fails. */
  function FailureOf(part: StreamPart): Json {
    match part
    case ErrorPart(error) => error
    case ParamsStartPart(_, name, _) => "Provider-executed tool calls are unsupported: " + name
    case ToolCallPart(_, name, _, _) => "Provider-executed tool calls are unsupported: " + name
    case ToolResultPart(_, name, _, _) => "Provider-executed tool calls are unsupported: " + name
    case _ => ""
  }

  function Joined(parts: seq<StreamPart>): seq<PromptPart> {
    (if AllText(parts, true) == "" then [] else [ReasoningPart(AllText(parts, true))])
    + (if AllText(parts, false) == "" then [] else [TextPart(AllText(parts, false))])
  }

  predicate Spoke(parts: seq<StreamPart>) {
    AllText(parts, false) != "" || AllText(parts, true) != ""
  }

  /** What a stream that breaks off commits: what it said but for its calls, and the failure. */
  function Broken(
      identity: Identity, parts: seq<StreamPart>, context: seq<StreamPart>, messageId: MessageId, reason: Json,
      failure: Json): seq<Payload>
  {
    var spoken := Filter(FilterMap(Openers(context), SaidOf(context)), IsNotCall);
    (if !Spoke(parts) then []
     else [AssistantPartialCommitted(messageId, identity.runId, identity.turnId, identity.inferenceId,
                                     if spoken == [] then Joined(parts) else spoken, reason)])
    + [InferenceFailed(identity.inferenceId, failure)]
  }

  /** What a stream commits: the message, decisions and completion of a finish, or what it says when it breaks off. */
  function Batch(
      identity: Identity, decided: seq<Payload>, parts: seq<StreamPart>, end: Option<Arrival>, messageId: MessageId)
    : seq<Payload>
  {
    var said := FilterMap(Openers(parts), SaidOf(parts));
    match end
    case Some(Arrival(FinishPart(usage), _, _, id)) =>
      (if said == [] then []
       else [AssistantMessageCommitted(id, identity.runId, identity.turnId, identity.inferenceId, said)])
      + decided + [InferenceCompleted(identity.runId, identity.inferenceId, usage)]
    case Some(a) =>
      Broken(identity, parts, parts, a.messageId, "inference failed before completion", FailureOf(a.part))
    case None =>
      Broken(identity, parts, [], messageId, "inference failed before completion",
             "Provider stream ended without a finish part")
  }

  lemma {:induction false} FinishEnds(t: RunState, a: Arrival)
    requires InferenceRunner.Open(t) && a.part.FinishPart?
    ensures RecordPart(t, a).committed ==
            [AssistantEvent(t.inference, ContextParts(t.context), a.messageId) + FinalEvents(t.inference, a.part.usage)]
  {
    var sealing, end := t.inference.(sealed := true), Finalize(FinalEvents(t.inference, a.part.usage));
    assert Step(t.inference, MakeStepInput(t.inference, a)) == StepResult(sealing, [end]);
    CommitsOfOne(end, sealing, ContextParts(t.context), a.messageId);
  }

  lemma {:induction false} FailureStep(s: InferenceState, a: Arrival)
    requires !s.sealed && EndsStream(a.part) && !a.part.FinishPart?
    ensures !OnlyCounted(a.part)
    ensures Step(s, MakeStepInput(s, a)) == StepResult(s.(sealed := true), [Fail(FailureOf(a.part))])
  {
  }

  lemma {:induction false} FailureEnds(t: RunState, a: Arrival)
    requires InferenceRunner.Open(t) && EndsStream(a.part) && !a.part.FinishPart?
    ensures RecordPart(t, a).committed ==
            [PartialEvent(t.inference, ContextParts(t.context), a.messageId, FAILED)
             + [InferenceFailed(t.inference.identity.inferenceId, FailureOf(a.part))]]
  {
    FailureStep(t.inference, a);
    assert RecordResponseContext(t.context, a.part) == t.context;
    CommitsOfOne(Fail(FailureOf(a.part)), t.inference.(sealed := true), ContextParts(t.context), a.messageId);
  }

  lemma {:induction false} SilentEndCommits(t: RunState, messageId: MessageId)
    requires InferenceRunner.Open(t)
    ensures EndStream(t, messageId).committed ==
            [PartialEvent(t.inference, [], messageId, FAILED)
             + [InferenceFailed(t.inference.identity.inferenceId, "Provider stream ended without a finish part")]]
  {
    var failure := Fail("Provider stream ended without a finish part");
    CommitsOfOne(failure, t.inference.(sealed := true), [], messageId);
  }

  /** The stream stops where it is first ended. */
  lemma {:induction false} EndedWhereReached(s: RunState, arrivals: seq<Arrival>)
    requires InferenceRunner.Open(s)
    ensures RecordAll(s, arrivals) ==
            if FirstEnd(arrivals).Some? then RecordPart(Reached(s, arrivals), FirstEnd(arrivals).value)
            else Reached(s, arrivals)
    ensures FirstEnd(arrivals).Some? ==> EndsStream(FirstEnd(arrivals).value.part)
    decreases |arrivals|
  {
    if arrivals != [] {
      if EndsStream(arrivals[0].part) {
        RecordEnd(s, arrivals[0]);
        SealedStays(RecordPart(s, arrivals[0]), arrivals[1..]);
      } else {
        RecordOpen(s, arrivals[0]);
        EndedWhereReached(RecordPart(s, arrivals[0]), arrivals[1..]);
      }
    }
  }

  /** The state took in exactly those parts. */
  ghost predicate Took(s: InferenceState, entries: seq<ContextEntry>, identity: Identity, parts: seq<StreamPart>) {
    && s.identity == identity
    && s.assistantText == AllText(parts, false)
    && s.reasoningText == AllText(parts, true)
    && ContextParts(entries) == FilterMap(Openers(parts), SaidOf(parts))
  }

  lemma {:induction false} LegacyIsJoined(s: InferenceState, parts: seq<StreamPart>)
    requires s.assistantText == AllText(parts, false) && s.reasoningText == AllText(parts, true)
    ensures HasAssistantContent(s) <==> Spoke(parts)
    ensures Spoke(parts) ==> LegacyParts(s) == Joined(parts)
  {
  }

  lemma {:induction false} PartialIsBroken(
      s: InferenceState, parts: seq<StreamPart>, context: seq<StreamPart>, messageId: MessageId, reason: Json,
      failure: Json)
    requires s.assistantText == AllText(parts, false) && s.reasoningText == AllText(parts, true)
    ensures PartialEvent(s, FilterMap(Openers(context), SaidOf(context)), messageId, reason)
            + [InferenceFailed(s.identity.inferenceId, failure)]
            == Broken(s.identity, parts, context, messageId, reason, failure)
  {
    LegacyIsJoined(s, parts);
  }

  lemma {:induction false} FinishedBatch(t: RunState, a: Arrival, parts: seq<StreamPart>, messageId: MessageId)
    requires InferenceRunner.Open(t) && a.part.FinishPart?
    requires Took(t.inference, t.context, t.inference.identity, parts)
    ensures var decided := MapSeq(t.inference.decisions, PayloadOf(t.inference.identity));
            RecordPart(t, a).committed == [Batch(t.inference.identity, decided, parts, Some(a), messageId)]
  {
    FinishEnds(t, a);
    FinishedMessageIsTheContext(t, a.messageId);
    var message := AssistantEvent(t.inference, ContextParts(t.context), a.messageId);
    var decided := MapSeq(t.inference.decisions, PayloadOf(t.inference.identity));
    var completed := [InferenceCompleted(t.inference.identity.runId, t.inference.identity.inferenceId, a.part.usage)];
    assert message + (decided + completed) == message + decided + completed;
  }

  lemma {:induction false} BrokenBatch(t: RunState, a: Arrival, parts: seq<StreamPart>, messageId: MessageId)
    requires InferenceRunner.Open(t) && EndsStream(a.part) && !a.part.FinishPart?
    requires Took(t.inference, t.context, t.inference.identity, parts)
    ensures RecordPart(t, a).committed == [Batch(t.inference.identity, [], parts, Some(a), messageId)]
  {
    FailureEnds(t, a);
    PartialIsBroken(t.inference, parts, parts, a.messageId, FAILED, FailureOf(a.part));
  }

  lemma {:induction false} SilentBatch(t: RunState, parts: seq<StreamPart>, messageId: MessageId)
    requires InferenceRunner.Open(t)
    requires Took(t.inference, t.context, t.inference.identity, parts)
    ensures EndStream(t, messageId).committed == [Batch(t.inference.identity, [], parts, None, messageId)]
  {
    SilentEndCommits(t, messageId);
    assert Openers([]) == [] && FilterMap(Openers([]), SaidOf([])) == [];
    PartialIsBroken(t.inference, parts, [], messageId, FAILED, "Provider stream ended without a finish part");
  }

  lemma {:induction false} ReachedTook(identity: Identity, arrivals: seq<Arrival>)
    ensures var t := Reached(InitialRun(identity), arrivals);
            InferenceRunner.Open(t) && Took(t.inference, t.context, identity, Heard(arrivals))
  {
    var s := InitialRun(identity);
    ReachedSpeaks(s, arrivals);
    ReachedHeard(s, arrivals);
    ContextExactly(Heard(arrivals));
    ContextSaid(Reached(s, arrivals).context, Openers(Heard(arrivals)), Heard(arrivals));
  }

  /**
   * Any provider stream commits one batch, event by event: what the response said, the decisions of the calls it
   * made and its completion; or, when it fails, what it said but for its calls, and the failure.
   */
  lemma {:induction false} BatchExactly(identity: Identity, arrivals: seq<Arrival>, messageId: MessageId)
    ensures var end := FirstEnd(arrivals);
            var decided := MapSeq(Reached(InitialRun(identity), arrivals).inference.decisions, PayloadOf(identity));
            RunInference(identity, arrivals, messageId).committed
            == [Batch(identity, decided, Heard(arrivals), end, messageId)]
  {
    var s := InitialRun(identity);
    var t := Reached(s, arrivals);
    ReachedTook(identity, arrivals);
    EndedWhereReached(s, arrivals);
    if FirstEnd(arrivals).None? {
      SilentBatch(t, Heard(arrivals), messageId);
    } else if FirstEnd(arrivals).value.part.FinishPart? {
      FinishedBatch(t, FirstEnd(arrivals).value, Heard(arrivals), messageId);
    } else {
      BrokenBatch(t, FirstEnd(arrivals).value, Heard(arrivals), messageId);
    }
  }

  // ---------------------------------------------------------------------------
  // The batch of an interrupt
  // ---------------------------------------------------------------------------

  /** The part that ends a stream adds nothing to it. */
  lemma {:induction false} EndAddsNothing(t: RunState, a: Arrival)
    requires InferenceRunner.Open(t) && EndsStream(a.part)
    ensures RecordPart(t, a).inference == t.inference.(sealed := true) && RecordPart(t, a).context == t.context
  {
    if !a.part.FinishPart? {
      FailureStep(t.inference, a);
    }
  }

  lemma {:induction false} RecordedTook(identity: Identity, arrivals: seq<Arrival>)
    ensures var t := RecordAll(InitialRun(identity), arrivals);
            Took(t.inference, t.context, identity, Heard(arrivals))
  {
    var s := InitialRun(identity);
    ReachedTook(identity, arrivals);
    EndedWhereReached(s, arrivals);
    if FirstEnd(arrivals).Some? {
      EndAddsNothing(Reached(s, arrivals), FirstEnd(arrivals).value);
    }
  }

  lemma {:induction false} RecordAllSnoc(s: RunState, arrivals: seq<Arrival>, a: Arrival)
    ensures RecordAll(s, arrivals + [a]) == RecordPart(RecordAll(s, arrivals), a)
    decreases |arrivals|
  {
    var all := arrivals + [a];
    if arrivals == [] {
      assert all == [a] && all[1..] == [];
      assert RecordAll(RecordPart(s, a), []) == RecordPart(s, a);
    } else {
      assert all[1..] == arrivals[1..] + [a];
      RecordAllSnoc(RecordPart(s, arrivals[0]), arrivals[1..], a);
    }
  }

  /** The parts that arrived by the time the stop came. */
  function ArrivedBy(arrivals: seq<Arrival>, stop: StopPoint): seq<Arrival>
    requires Reachable(stop, arrivals)
  {
    match stop
    case AfterParts(n) => arrivals[..n]
    case Recording(n) => arrivals[..n + 1]
    case Ended(_) => arrivals
  }

  /** An interrupt commits, last of all, what the parts that arrived said but for their calls, and a failure. */
  lemma {:induction false} InterruptExactly(
      identity: Identity, arrivals: seq<Arrival>, stop: StopPoint, messageId: MessageId)
    requires Reachable(stop, arrivals)
    ensures var committed := Interrupted(identity, arrivals, stop, messageId).committed;
            var parts := Heard(ArrivedBy(arrivals, stop));
            committed != [] && committed[|committed| - 1]
            == Broken(identity, parts, parts, messageId, "inference interrupted before completion",
              "inference interrupted")
  {
    var s, parts := StateAt(identity, arrivals, stop), Heard(ArrivedBy(arrivals, stop));
    RecordedTook(identity, ArrivedBy(arrivals, stop));
    if stop.Recording? {
      assert arrivals[..stop.n + 1] == arrivals[..stop.n] + [arrivals[stop.n]];
      RecordAllSnoc(InitialRun(identity), arrivals[..stop.n], arrivals[stop.n]);
    }
    assert Took(s.inference, s.context, identity, parts);
    PartialIsBroken(s.inference, parts, parts, messageId, INTERRUPTED, "inference interrupted");
  }
}
