/** What a stream emits live, input by input. */
module LiveEmissions {
  import opened Collections
  import opened Events
  import opened Inference

  /** The parameters of a part stream from its first announcement to its end or its call. */
  predicate Streams(inputs: seq<StepInput>, id: ProviderPartId) {
    if inputs == [] then false
    else
      var front, last := inputs[..|inputs| - 1], inputs[|inputs| - 1];
      if last.ParamsStart? && last.id == id && FirstStart(front, id).None? then true
      else !((last.ParamsEnd? || last.ToolCallInput?) && last.id == id) && Streams(front, id)
  }

  /** What one more input is heard as: text at once, parameters under their announced id while they stream. */
  function Heard(inputs: seq<StepInput>, input: StepInput): Option<Emission> {
    match input
    case TextDelta(id, delta) => Some(TextDeltaLive(id, delta))
    case ReasoningDelta(id, delta) => Some(ReasoningDeltaLive(id, delta))
    case ParamsStart(id, toolCallId, name, _) =>
      if FirstStart(inputs, id).None? then Some(ParamsStartLive(id, toolCallId, name)) else None
    case ParamsDelta(id, delta) =>
      if Streams(inputs, id) && AnnouncedId(inputs, id).Some?
      then Some(ParamsDeltaLive(id, AnnouncedId(inputs, id).value, delta)) else None
    case ParamsEnd(id) =>
      if Streams(inputs, id) && AnnouncedId(inputs, id).Some?
      then Some(ParamsEndLive(id, AnnouncedId(inputs, id).value)) else None
    case _ => None
  }

  function Live(inputs: seq<StepInput>): seq<Emission> {
    if inputs == [] then []
    else
      var front, last := inputs[..|inputs| - 1], inputs[|inputs| - 1];
      if Heard(front, last).Some? then Live(front) + [Heard(front, last).value] else Live(front)
  }

  /** What the drafts say of the parts that stream. */
  predicate Drafts(s: InferenceState, inputs: seq<StepInput>, id: ProviderPartId) {
    var announced := AnnouncedId(inputs, id);
    && (s.drafts.Has(id) <==> announced.Some?)
    && (s.drafts.Has(id) ==> s.drafts.Get(id).value.toolCallId == announced.value)
    && (Streams(inputs, id) <==> s.drafts.Has(id) && s.drafts.Get(id).value.status == Streaming)
  }

  lemma {:induction false} DraftsMove(s: InferenceState, inputs: seq<StepInput>, input: StepInput, id: ProviderPartId)
    requires !s.sealed && !Ends(input) && Drafts(s, inputs, id)
    ensures Drafts(Step(s, input).next, inputs + [input], id)
  {
    assert (inputs + [input])[..|inputs|] == inputs;
    StepDrafts(s, input, id);
  }

  lemma {:induction false} StepHeard(s: InferenceState, inputs: seq<StepInput>, input: StepInput)
    requires !s.sealed && !Ends(input)
    requires input.ParamsStart? || input.ParamsDelta? || input.ParamsEnd? ==> Drafts(s, inputs, input.id)
    ensures Step(s, input).emissions == if Heard(inputs, input).Some? then [Heard(inputs, input).value] else []
  {
  }

  lemma {:induction false} DraftsAfter(identity: Identity, inputs: seq<StepInput>, id: ProviderPartId)
    requires forall i :: 0 <= i < |inputs| ==> !Ends(inputs[i])
    ensures Drafts(Run(Initial(identity), inputs).next, inputs, id)
  {
    if inputs != [] {
      var front, last := inputs[..|inputs| - 1], inputs[|inputs| - 1];
      DraftsAfter(identity, front, id);
      Unsealed(identity, front);
      RunSnoc(Initial(identity), inputs);
      DraftsMove(Run(Initial(identity), front).next, front, last, id);
      assert inputs == front + [last];
    }
  }

  /**
   * Until it ends, a stream emits exactly this: every text and reasoning delta, the first announcement of each part,
   * and its parameters and their end under the announced id while they stream.
   */
  lemma {:induction false} LiveExactly(identity: Identity, inputs: seq<StepInput>)
    requires forall i :: 0 <= i < |inputs| ==> !Ends(inputs[i])
    ensures Run(Initial(identity), inputs).emissions == Live(inputs)
  {
    if inputs != [] {
      var front, last := inputs[..|inputs| - 1], inputs[|inputs| - 1];
      var s := Run(Initial(identity), front).next;
      LiveExactly(identity, front);
      Unsealed(identity, front);
      RunSnoc(Initial(identity), inputs);
      if last.ParamsStart? || last.ParamsDelta? || last.ParamsEnd? {
        DraftsAfter(identity, front, last.id);
      }
      StepHeard(s, front, last);
    }
  }
}
