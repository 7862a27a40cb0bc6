/** The fold of one provider stream into live emissions and one durable outcome. */
module Inference {
  import opened Collections
  import opened Events

  datatype Identity = Identity(runId: RunId, turnId: TurnId, inferenceId: InferenceId)

  datatype DraftStatus = Streaming | Ended | StagedCreated | StagedRejected

  datatype Draft = Draft(toolCallId: ToolCallId, name: Json, providerExecuted: bool, paramsText: Json,
    status: DraftStatus)

  datatype Validation = ValidParams(decoded: Json) | UnknownTool | InvalidParams(message: Json)

  /** A staged decision; a rejected one carries its reason and message. */
  datatype Decision = Decision(
    providerPartId: ProviderPartId,
    toolCallId: ToolCallId,
    name: Json,
    params: Json,
    providerExecuted: bool,
    rejection: Option<(Json, Json)>)

  datatype InferenceState = InferenceState(
    identity: Identity,
    sealed: bool,
    assistantText: Json,
    reasoningText: Json,
    responseMetadata: Option<Json>,
    drafts: OrderedMap<ProviderPartId, Draft>,
    decisions: seq<Decision>)

  datatype StepInput =
    | Boundary(id: ProviderPartId)
    | TextDelta(id: ProviderPartId, delta: Json)
    | ReasoningDelta(id: ProviderPartId, delta: Json)
    | ParamsStart(id: ProviderPartId, toolCallId: ToolCallId, name: Json, providerExecuted: bool)
    | ParamsDelta(id: ProviderPartId, delta: Json)
    | ParamsEnd(id: ProviderPartId)
    | ToolCallInput(id: ProviderPartId, toolCallId: ToolCallId, name: Json, params: Json, providerExecuted: bool,
      validation: Validation)
    | ResponseMetadata(metadata: Json)
    | Finish(usage: Option<nat>)
    | StreamError(error: Json)

  /** Live-only emissions, and the two that end the inference. */
  datatype Emission =
    | TextDeltaLive(id: ProviderPartId, delta: Json)
    | ReasoningDeltaLive(id: ProviderPartId, delta: Json)
    | ParamsStartLive(id: ProviderPartId, toolCallId: ToolCallId, name: Json)
    | ParamsDeltaLive(id: ProviderPartId, toolCallId: ToolCallId, delta: Json)
    | ParamsEndLive(id: ProviderPartId, toolCallId: ToolCallId)
    | Finalize(events: seq<Payload>)
    | Fail(failure: Json)
  {
    predicate Terminal() {
      Finalize? || Fail?
    }
  }

  function Initial(identity: Identity): InferenceState {
    InferenceState(identity, false, "", "", None, Empty, [])
  }

  // ---------------------------------------------------------------------------
  // Transitions
  // ---------------------------------------------------------------------------

  function MakeToolCallDecision(input: StepInput, toolCallId: ToolCallId): (d: Decision)
    requires input.ToolCallInput?
    ensures d.providerPartId == input.id && d.toolCallId == toolCallId
    ensures d.rejection.None? <==> input.validation.ValidParams?
  {
    var d := Decision(input.id, toolCallId, input.name, input.params, input.providerExecuted, None);
    match input.validation
    case ValidParams(decoded) => d.(params := decoded)
    case UnknownTool => d.(rejection := Some(("unknown-tool", "Unknown tool: " + input.name)))
    case InvalidParams(message) => d.(rejection := Some(("invalid-params", message)))
  }

  function NotFor(id: ProviderPartId): Decision -> bool {
    (d: Decision) => d.providerPartId != id
  }

  /** The decision of a part replaces an earlier one and goes to the end. */
  function UpsertDecision(decisions: seq<Decision>, d: Decision): seq<Decision> {
    Filter(decisions, NotFor(d.providerPartId)) + [d]
  }

  /** A drafted part keeps the tool-call id its draft has. */
  function ResolvedId(s: InferenceState, input: StepInput): ToolCallId
    requires input.ToolCallInput?
  {
    var draft := s.drafts.Get(input.id);
    if draft.Some? then draft.value.toolCallId else input.toolCallId
  }

  function RecordToolCall(s: InferenceState, input: StepInput): InferenceState
    requires input.ToolCallInput?
  {
    var draft := s.drafts.Get(input.id);
    var d := MakeToolCallDecision(input, ResolvedId(s, input));
    s.(drafts := if draft.None? then s.drafts
                 else s.drafts.Set(input.id, draft.value.(status :=
                   if d.rejection.None? then StagedCreated else StagedRejected)),
       decisions := UpsertDecision(s.decisions, d))
  }

  function DecisionPayload(identity: Identity, d: Decision): Payload {
    match d.rejection
    case None =>
      ToolCallCreated(identity.runId, identity.turnId, identity.inferenceId, d.toolCallId,
                      CallPart(d.providerPartId, d.name, d.params, d.providerExecuted))
    case Some((reason, message)) =>
      ToolCallRejected(identity.runId, identity.turnId, identity.inferenceId, d.toolCallId,
                       ResultPart(d.providerPartId, d.name, message + reason))
  }

  function PayloadOf(identity: Identity): Decision -> Payload {
    (d: Decision) => DecisionPayload(identity, d)
  }

  function FinalEvents(s: InferenceState, usage: Option<nat>): seq<Payload> {
    MapSeq(s.decisions, PayloadOf(s.identity)) + [InferenceCompleted(s.identity.runId, s.identity.inferenceId, usage)]
  }

  datatype StepResult = StepResult(next: InferenceState, emissions: seq<Emission>)

  function Step(s: InferenceState, input: StepInput): StepResult {
    if s.sealed then StepResult(s, [])
    else
      match input
      case Boundary(_) => StepResult(s, [])
      case TextDelta(id, delta) => StepResult(s.(assistantText := s.assistantText + delta), [TextDeltaLive(id, delta)])
      case ReasoningDelta(id, delta) =>
        StepResult(s.(reasoningText := s.reasoningText + delta), [ReasoningDeltaLive(id, delta)])
      case ParamsStart(id, toolCallId, name, providerExecuted) =>
        if s.drafts.Has(id) then StepResult(s, [])
        else
          StepResult(s.(drafts := s.drafts.Set(id, Draft(toolCallId, name, providerExecuted, "", Streaming))),
                     [ParamsStartLive(id, toolCallId, name)])
      case ParamsDelta(id, delta) =>
        if !s.drafts.Has(id) || s.drafts.Get(id).value.status != Streaming then StepResult(s, [])
        else
          var draft := s.drafts.Get(id).value;
          StepResult(s.(drafts := s.drafts.Set(id, draft.(paramsText := draft.paramsText + delta))),
                     [ParamsDeltaLive(id, draft.toolCallId, delta)])
      case ParamsEnd(id) =>
        if !s.drafts.Has(id) || s.drafts.Get(id).value.status != Streaming then StepResult(s, [])
        else
          var draft := s.drafts.Get(id).value;
          StepResult(s.(drafts := s.drafts.Set(id, draft.(status := Ended))), [ParamsEndLive(id, draft.toolCallId)])
      case ToolCallInput(_, _, _, _, _, _) => StepResult(RecordToolCall(s, input), [])
      case ResponseMetadata(metadata) => StepResult(s.(responseMetadata := Some(metadata)), [])
      case Finish(usage) => StepResult(s.(sealed := true), [Finalize(FinalEvents(s, usage))])
      case StreamError(error) => StepResult(s.(sealed := true), [Fail(error)])
  }

  function Run(s: InferenceState, inputs: seq<StepInput>): StepResult {
    if inputs == [] then StepResult(s, [])
    else
      var before := Run(s, inputs[..|inputs| - 1]);
      var last := Step(before.next, inputs[|inputs| - 1]);
      StepResult(last.next, before.emissions + last.emissions)
  }

  // ---------------------------------------------------------------------------
  // Terminal emissions
  // ---------------------------------------------------------------------------

  lemma {:induction false} RunSnoc(s: InferenceState, inputs: seq<StepInput>)
    requires inputs != []
    ensures var before := Run(s, inputs[..|inputs| - 1]);
            Run(s, inputs) == StepResult(Step(before.next, inputs[|inputs| - 1]).next,
                                         before.emissions + Step(before.next, inputs[|inputs| - 1]).emissions)
  {
  }

  /** Only the last emission can be terminal, and it is exactly when the inference is sealed. */
  ghost predicate EndsOnce(r: StepResult) {
    && (forall i :: 0 <= i < |r.emissions| - 1 ==> !r.emissions[i].Terminal())
    && (r.next.sealed <==> r.emissions != [] && r.emissions[|r.emissions| - 1].Terminal())
  }

  /** What one step may emit, from a state that is or is not sealed. */
  ghost predicate EmitsWithin(wasSealed: bool, r: StepResult) {
    if wasSealed then r.emissions == [] && r.next.sealed
    else |r.emissions| <= 1 && (r.next.sealed <==> |r.emissions| == 1 && r.emissions[0].Terminal())
  }

  lemma {:induction false} StepEmits(s: InferenceState, input: StepInput)
    ensures EmitsWithin(s.sealed, Step(s, input))
  {
  }

  lemma {:induction false} EmissionsJoin(before: StepResult, last: StepResult)
    requires EndsOnce(before) && EmitsWithin(before.next.sealed, last)
    ensures EndsOnce(StepResult(last.next, before.emissions + last.emissions))
  {
  }

  /**
   * Over any inputs: nothing comes after a terminal emission, and there is one exactly when the
   * inference is sealed.
   */
  lemma {:induction false} AtMostOneTerminal(identity: Identity, inputs: seq<StepInput>)
    ensures EndsOnce(Run(Initial(identity), inputs))
  {
    if inputs != [] {
      var before := Run(Initial(identity), inputs[..|inputs| - 1]);
      AtMostOneTerminal(identity, inputs[..|inputs| - 1]);
      RunSnoc(Initial(identity), inputs);
      StepEmits(before.next, inputs[|inputs| - 1]);
      EmissionsJoin(before, Step(before.next, inputs[|inputs| - 1]));
    }
  }

  // ---------------------------------------------------------------------------
  // Decisions
  // ---------------------------------------------------------------------------

  function PartId(d: Decision): ProviderPartId {
    d.providerPartId
  }

  lemma {:induction false} UpsertKeepsDistinct(decisions: seq<Decision>, d: Decision)
    requires DistinctBy(decisions, PartId)
    ensures DistinctBy(UpsertDecision(decisions, d), PartId)
  {
    FilterKeepsDistinct(decisions, NotFor(d.providerPartId), PartId);
    DistinctJoin(Filter(decisions, NotFor(d.providerPartId)), [d], PartId);
  }

  /** The last tool-call input for a part, as far as the inputs were taken. */
  function LastCall(inputs: seq<StepInput>, id: ProviderPartId): (r: Option<nat>)
    ensures r.Some? ==> r.value < |inputs| && inputs[r.value].ToolCallInput? && inputs[r.value].id == id
  {
    if inputs == [] then None
    else if inputs[|inputs| - 1].ToolCallInput? && inputs[|inputs| - 1].id == id then Some(|inputs| - 1)
    else LastCall(inputs[..|inputs| - 1], id)
  }

  /** The first announcement of a part's parameters. */
  function FirstStart(inputs: seq<StepInput>, id: ProviderPartId): (r: Option<nat>)
    ensures r.Some? ==> r.value < |inputs| && inputs[r.value].ParamsStart? && inputs[r.value].id == id
  {
    if inputs == [] then None
    else
      var before := FirstStart(inputs[..|inputs| - 1], id);
      if before.Some? then before
      else if inputs[|inputs| - 1].ParamsStart? && inputs[|inputs| - 1].id == id then Some(|inputs| - 1)
      else None
  }

  predicate Ends(input: StepInput) {
    input.Finish? || input.StreamError?
  }

  /** The tool-call id a part's decision carries: the announced one if it was announced before the last call. */
  function DecidedId(inputs: seq<StepInput>, id: ProviderPartId): Option<ToolCallId> {
    var call, start := LastCall(inputs, id), FirstStart(inputs, id);
    if call.None? then None
    else if start.Some? && start.value < call.value then Some(inputs[start.value].toolCallId)
    else Some(inputs[call.value].toolCallId)
  }

  function AnnouncedId(inputs: seq<StepInput>, id: ProviderPartId): Option<ToolCallId> {
    var start := FirstStart(inputs, id);
    if start.None? then None else Some(inputs[start.value].toolCallId)
  }

  /** The decisions hold one entry for the part, with the given tool-call id, or none. */
  ghost predicate DecidesAs(decisions: seq<Decision>, id: ProviderPartId, toolCallId: Option<ToolCallId>) {
    if toolCallId.None? then forall d :: d in decisions ==> d.providerPartId != id
    else
      && (exists d :: d in decisions && d.providerPartId == id)
      && (forall d :: d in decisions && d.providerPartId == id ==> d.toolCallId == toolCallId.value)
  }

  ghost predicate Announces(e: Emission, id: ProviderPartId, toolCallId: ToolCallId) {
    e.ParamsStartLive? && e.id == id && e.toolCallId == toolCallId
  }

  lemma {:induction false} StepDrafts(s: InferenceState, input: StepInput, id: ProviderPartId)
    requires !s.sealed
    ensures var next := Step(s, input).next;
            && next.identity == s.identity
            && (s.drafts.Has(id) ==>
              next.drafts.Has(id)
              && next.drafts.Get(id).value.toolCallId == s.drafts.Get(id).value.toolCallId)
            && (!s.drafts.Has(id) ==>
                  if input.ParamsStart? && input.id == id
                    then next.drafts.Has(id) && next.drafts.Get(id).value.toolCallId == input.toolCallId
                  else !next.drafts.Has(id))
            && (next.sealed <==> Ends(input))
  {
  }

  lemma {:induction false} UpsertDecides(
      decisions: seq<Decision>, d: Decision, id: ProviderPartId, toolCallId: Option<ToolCallId>)
    requires DecidesAs(decisions, id, toolCallId)
    ensures DecidesAs(UpsertDecision(decisions, d), id, if d.providerPartId == id
            then Some(d.toolCallId)
            else toolCallId)
  {
    var kept := Filter(decisions, NotFor(d.providerPartId));
    var next := UpsertDecision(decisions, d);
    assert next == kept + [d];
    assert d in next;
    forall x ensures x in next <==> x == d || (x in decisions && x.providerPartId != d.providerPartId) {
      assert x in kept <==> x in decisions && NotFor(d.providerPartId)(x);
    }
  }

  lemma {:induction false} StepDecisions(s: InferenceState, input: StepInput)
    requires !s.sealed
    ensures Step(s, input).next.decisions ==
            if input.ToolCallInput? then
              UpsertDecision(s.decisions, MakeToolCallDecision(input, ResolvedId(s, input)))
            else s.decisions
  {
  }

  /** The id a part is decided under after one more input. */
  function NextDecidedId(
      s: InferenceState, input: StepInput, id: ProviderPartId, toolCallId: Option<ToolCallId>): Option<ToolCallId> {
    if input.ToolCallInput? && input.id == id then Some(ResolvedId(s, input)) else toolCallId
  }

  lemma {:induction false} StepDecides(
      s: InferenceState, input: StepInput, id: ProviderPartId, toolCallId: Option<ToolCallId>)
    requires !s.sealed && DecidesAs(s.decisions, id, toolCallId)
    ensures DecidesAs(Step(s, input).next.decisions, id, NextDecidedId(s, input, id, toolCallId))
  {
    StepDecisions(s, input);
    if input.ToolCallInput? {
      var d := MakeToolCallDecision(input, ResolvedId(s, input));
      UpsertDecides(s.decisions, d, id, toolCallId);
      assert NextDecidedId(s, input, id, toolCallId) ==
             if d.providerPartId == id then Some(d.toolCallId) else toolCallId;
    }
  }

  lemma {:induction false} StepKeepsDistinct(s: InferenceState, input: StepInput)
    requires !s.sealed && DistinctBy(s.decisions, PartId)
    ensures DistinctBy(Step(s, input).next.decisions, PartId)
  {
    StepDecisions(s, input);
    if input.ToolCallInput? {
      UpsertKeepsDistinct(s.decisions, MakeToolCallDecision(input, ResolvedId(s, input)));
    }
  }

  lemma {:induction false} Unsealed(identity: Identity, inputs: seq<StepInput>)
    requires forall i :: 0 <= i < |inputs| ==> !Ends(inputs[i])
    ensures var s := Run(Initial(identity), inputs).next;
            !s.sealed && s.identity == identity && DistinctBy(s.decisions, PartId)
  {
    if inputs != [] {
      var front, last := inputs[..|inputs| - 1], inputs[|inputs| - 1];
      Unsealed(identity, front);
      var s := Run(Initial(identity), front).next;
      RunSnoc(Initial(identity), inputs);
      StepDrafts(s, last, "");
      StepKeepsDistinct(s, last);
      assert !Ends(last);
    }
  }

  lemma {:induction false} FoldedDrafts(identity: Identity, inputs: seq<StepInput>, id: ProviderPartId)
    requires forall i :: 0 <= i < |inputs| ==> !Ends(inputs[i])
    ensures var s := Run(Initial(identity), inputs).next;
            && (s.drafts.Has(id) <==> AnnouncedId(inputs, id).Some?)
            && (s.drafts.Has(id) ==> s.drafts.Get(id).value.toolCallId == AnnouncedId(inputs, id).value)
  {
    if inputs != [] {
      var front, last := inputs[..|inputs| - 1], inputs[|inputs| - 1];
      FoldedDrafts(identity, front, id);
      Unsealed(identity, front);
      RunSnoc(Initial(identity), inputs);
      StepDrafts(Run(Initial(identity), front).next, last, id);
    }
  }

  lemma {:induction false} FoldedDecision(identity: Identity, inputs: seq<StepInput>, id: ProviderPartId)
    requires forall i :: 0 <= i < |inputs| ==> !Ends(inputs[i])
    ensures DecidesAs(Run(Initial(identity), inputs).next.decisions, id, DecidedId(inputs, id))
  {
    if inputs != [] {
      var front, last := inputs[..|inputs| - 1], inputs[|inputs| - 1];
      FoldedDecision(identity, front, id);
      Unsealed(identity, front);
      FoldedDrafts(identity, front, id);
      var s := Run(Initial(identity), front).next;
      RunSnoc(Initial(identity), inputs);
      StepDecides(s, last, id, DecidedId(front, id));
      DecidedSnoc(inputs, id);
    }
  }

  lemma {:induction false} DecidedSnoc(inputs: seq<StepInput>, id: ProviderPartId)
    requires inputs != []
    ensures var front, last := inputs[..|inputs| - 1], inputs[|inputs| - 1];
            DecidedId(inputs, id) ==
            if last.ToolCallInput? && last.id == id then
              Some(if AnnouncedId(front, id).Some? then AnnouncedId(front, id).value else last.toolCallId)
            else DecidedId(front, id)
  {
  }

  /** What the fold holds after inputs that have not ended the inference. */
  lemma {:induction false} Folded(identity: Identity, inputs: seq<StepInput>, id: ProviderPartId)
    requires forall i :: 0 <= i < |inputs| ==> !Ends(inputs[i])
    ensures var s := Run(Initial(identity), inputs).next;
            && !s.sealed && s.identity == identity
            && DistinctBy(s.decisions, PartId)
            && DecidesAs(s.decisions, id, DecidedId(inputs, id))
            && (s.drafts.Has(id) <==> AnnouncedId(inputs, id).Some?)
  {
    Unsealed(identity, inputs);
    FoldedDrafts(identity, inputs, id);
    FoldedDecision(identity, inputs, id);
  }

  lemma {:induction false} NewAnnouncement(s: InferenceState, input: StepInput, id: ProviderPartId)
    requires !s.sealed
    ensures var emissions := Step(s, input).emissions;
            && |emissions| <= 1
            && (forall t :: emissions != [] && Announces(emissions[0], id, t) ==>
                  !s.drafts.Has(id) && input.ParamsStart? && input.id == id && input.toolCallId == t)
  {
  }

  /** A part announced live is announced under the id its first start gave it. */
  lemma {:induction false} AnnouncedAsStarted(
      identity: Identity, inputs: seq<StepInput>, id: ProviderPartId, i: nat, t: ToolCallId)
    requires forall k :: 0 <= k < |inputs| ==> !Ends(inputs[k])
    requires i < |Run(Initial(identity), inputs).emissions|
             && Announces(Run(Initial(identity), inputs).emissions[i], id, t)
    ensures AnnouncedId(inputs, id) == Some(t)
  {
    if inputs != [] {
      var front, last := inputs[..|inputs| - 1], inputs[|inputs| - 1];
      Folded(identity, front, id);
      RunSnoc(Initial(identity), inputs);
      var before := Run(Initial(identity), front);
      NewAnnouncement(before.next, last, id);
      if i < |before.emissions| {
        AnnouncedAsStarted(identity, front, id, i, t);
      }
    }
  }

  /** Each part is announced live at most once. */
  lemma {:induction false} AnnouncedOnce(
      identity: Identity, inputs: seq<StepInput>, id: ProviderPartId, i: nat, j: nat, t: ToolCallId, u: ToolCallId)
    requires forall k :: 0 <= k < |inputs| ==> !Ends(inputs[k])
    requires i < j < |Run(Initial(identity), inputs).emissions|
             && Announces(Run(Initial(identity), inputs).emissions[i], id, t)
    ensures !Announces(Run(Initial(identity), inputs).emissions[j], id, u)
  {
    if inputs != [] {
      var front, last := inputs[..|inputs| - 1], inputs[|inputs| - 1];
      Folded(identity, front, id);
      RunSnoc(Initial(identity), inputs);
      var before := Run(Initial(identity), front);
      NewAnnouncement(before.next, last, id);
      if j < |before.emissions| {
        AnnouncedOnce(identity, front, id, i, j, t, u);
      } else {
        AnnouncedAsStarted(identity, front, id, i, t);
      }
    }
  }

  // ---------------------------------------------------------------------------
  // The announced id and the committed one
  // ---------------------------------------------------------------------------

  ghost predicate Announced(emissions: seq<Emission>, id: ProviderPartId, t: ToolCallId) {
    exists i :: 0 <= i < |emissions| && Announces(emissions[i], id, t)
  }

  /** An announcement was emitted exactly when the inputs start the part, under that id. */
  lemma {:induction false} AnnouncedExactly(
      identity: Identity, inputs: seq<StepInput>, id: ProviderPartId, t: ToolCallId)
    requires forall k :: 0 <= k < |inputs| ==> !Ends(inputs[k])
    ensures Announced(Run(Initial(identity), inputs).emissions, id, t) <==> AnnouncedId(inputs, id) == Some(t)
  {
    var emissions := Run(Initial(identity), inputs).emissions;
    if AnnouncedId(inputs, id) == Some(t) {
      var i := AnnouncementEmitted(identity, inputs, id);
      assert Announces(emissions[i], id, t);
    }
    forall i | 0 <= i < |emissions| && Announces(emissions[i], id, t) ensures AnnouncedId(inputs, id) == Some(t) {
      AnnouncedAsStarted(identity, inputs, id, i, t);
    }
  }

  lemma {:induction false} AnnouncementEmitted(
      identity: Identity, inputs: seq<StepInput>, id: ProviderPartId) returns (i: nat)
    requires forall k :: 0 <= k < |inputs| ==> !Ends(inputs[k])
    requires AnnouncedId(inputs, id).Some?
    ensures i < |Run(Initial(identity), inputs).emissions|
    ensures Announces(Run(Initial(identity), inputs).emissions[i], id, AnnouncedId(inputs, id).value)
  {
    var front := inputs[..|inputs| - 1];
    RunSnoc(Initial(identity), inputs);
    if AnnouncedId(front, id).Some? {
      i := AnnouncementEmitted(identity, front, id);
    } else {
      Folded(identity, front, id);
      i := |Run(Initial(identity), front).emissions|;
    }
  }

  /** The event decides the part under the given tool-call id. */
  predicate Commits(event: Payload, id: ProviderPartId, t: ToolCallId) {
    || (event.ToolCallCreated? && event.call.id == id && event.toolCallId == t)
    || (event.ToolCallRejected? && event.feedback.id == id && event.toolCallId == t)
  }

  ghost predicate Committed(events: seq<Payload>, id: ProviderPartId, t: ToolCallId) {
    exists i :: 0 <= i < |events| && Commits(events[i], id, t)
  }

  lemma {:induction false} CommittedExactly(
      s: InferenceState, usage: Option<nat>, id: ProviderPartId, decided: Option<ToolCallId>, t: ToolCallId)
    requires DecidesAs(s.decisions, id, decided)
    ensures Committed(FinalEvents(s, usage), id, t) <==> decided == Some(t)
  {
    var events := FinalEvents(s, usage);
    forall i | 0 <= i < |s.decisions|
      ensures Commits(events[i], id, t) <==> s.decisions[i].providerPartId == id && s.decisions[i].toolCallId == t
    {
      assert events[i] == DecisionPayload(s.identity, s.decisions[i]);
    }
    assert !Commits(events[|s.decisions|], id, t);
    if decided == Some(t) {
      var d :| d in s.decisions && d.providerPartId == id;
      var i :| 0 <= i < |s.decisions| && s.decisions[i] == d;
      assert Commits(events[i], id, t);
    }
  }

  lemma {:induction false} FinishedRun(identity: Identity, inputs: seq<StepInput>, usage: Option<nat>)
    requires forall i :: 0 <= i < |inputs| ==> !Ends(inputs[i])
    ensures var before := Run(Initial(identity), inputs);
            && Run(Initial(identity), inputs + [Finish(usage)]).emissions
              == before.emissions + [Finalize(FinalEvents(before.next, usage))]
            && Run(Initial(identity), inputs + [Finish(usage)]).next.decisions == before.next.decisions
  {
    var all := inputs + [Finish(usage)];
    assert all[..|all| - 1] == inputs;
    Unsealed(identity, inputs);
    RunSnoc(Initial(identity), all);
  }

  lemma {:induction false} FinalAnnouncesNothing(
      emissions: seq<Emission>, events: seq<Payload>, id: ProviderPartId, t: ToolCallId)
    ensures Announced(emissions + [Finalize(events)], id, t) <==> Announced(emissions, id, t)
  {
    var all := emissions + [Finalize(events)];
    if Announced(emissions, id, t) {
      var i :| 0 <= i < |emissions| && Announces(emissions[i], id, t);
      assert Announces(all[i], id, t);
    }
  }

  /** The part was first announced before its last call, or both gave it the same id. */
  predicate AnnouncedInTime(inputs: seq<StepInput>, id: ProviderPartId)
    requires FirstStart(inputs, id).Some? && LastCall(inputs, id).Some?
  {
    || FirstStart(inputs, id).value < LastCall(inputs, id).value
    || inputs[FirstStart(inputs, id).value].toolCallId == inputs[LastCall(inputs, id).value].toolCallId
  }

  /**
   * A finished inference emits one batch as its last emission. A part is announced exactly when it was
   * started, and committed, in one decision, exactly when it was called; the two ids are the same
   * exactly when the announcement came in time.
   */
  lemma {:induction false} DecisionsAtFinish(
    identity: Identity, inputs: seq<StepInput>, usage: Option<nat>, id: ProviderPartId, t: ToolCallId, u: ToolCallId)
    returns (events: seq<Payload>)
    requires forall i :: 0 <= i < |inputs| ==> !Ends(inputs[i])
    ensures var all := Run(Initial(identity), inputs + [Finish(usage)]);
            && all.emissions != [] && all.emissions[|all.emissions| - 1] == Finalize(events)
            && DistinctBy(all.next.decisions, PartId)
            && (Announced(all.emissions, id, t) <==> AnnouncedId(inputs, id) == Some(t))
            && (Committed(events, id, u) <==> DecidedId(inputs, id) == Some(u))
            && (Announced(all.emissions, id, t) && Committed(events, id, u) ==>
              (t == u <==> AnnouncedInTime(inputs, id)))
  {
    var before := Run(Initial(identity), inputs);
    events := FinalEvents(before.next, usage);
    FinishedRun(identity, inputs, usage);
    FinalAnnouncesNothing(before.emissions, events, id, t);
    Folded(identity, inputs, id);
    AnnouncedExactly(identity, inputs, id, t);
    CommittedExactly(before.next, usage, id, DecidedId(inputs, id), u);
  }

  /** A call before its announcement is announced live under one id and committed under another. */
  lemma {:induction false} CallBeforeAnnouncementDisagrees(identity: Identity) returns (events: seq<Payload>)
    ensures var inputs := [ToolCallInput("p", "t1", "search", "{}", false, UnknownTool),
            ParamsStart("p", "t2", "search", false)];
            var all := Run(Initial(identity), inputs + [Finish(None)]);
            && all.emissions != [] && all.emissions[|all.emissions| - 1] == Finalize(events)
            && Announced(all.emissions, "p", "t2") && !Committed(events, "p", "t2")
            && Committed(events, "p", "t1") && !Announced(all.emissions, "p", "t1")
  {
    var inputs := [ToolCallInput("p", "t1", "search", "{}", false, UnknownTool),
      ParamsStart("p", "t2", "search", false)];
    assert inputs[..1] == [inputs[0]];
    assert LastCall(inputs[..1], "p") == Some(0);
    assert inputs[..1][..0] == [];
    assert FirstStart(inputs[..1], "p") == None;
    events := DecisionsAtFinish(identity, inputs, None, "p", "t2", "t2");
    var same := DecisionsAtFinish(identity, inputs, None, "p", "t1", "t1");
  }
}
