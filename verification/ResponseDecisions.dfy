/** Which decisions a provider stream commits, and what it emits live, read off the parts as they arrived. */
module ResponseDecisions {
  import opened Collections
  import opened Events
  import opened Inference
  import opened InferenceRunner
  import opened ResponseContext

  // ---------------------------------------------------------------------------
  // The arrivals that count
  // ---------------------------------------------------------------------------

  /** The arrivals before the first one that ends the stream. */
  function Taken(arrivals: seq<Arrival>): seq<Arrival>
    decreases |arrivals|
  {
    if arrivals == [] || EndsStream(arrivals[0].part) then [] else [arrivals[0]] + Taken(arrivals[1..])
  }

  predicate AllOpen(arrivals: seq<Arrival>) {
    forall i :: 0 <= i < |arrivals| ==> !EndsStream(arrivals[i].part)
  }

  lemma {:induction false} TakenIsOpen(arrivals: seq<Arrival>)
    ensures AllOpen(Taken(arrivals))
    decreases |arrivals|
  {
    if arrivals != [] && !EndsStream(arrivals[0].part) {
      TakenIsOpen(arrivals[1..]);
    }
  }

  lemma {:induction false} ReachedTaken(s: RunState, arrivals: seq<Arrival>)
    ensures Reached(s, arrivals) == RecordAll(s, Taken(arrivals))
    decreases |arrivals|
  {
    if arrivals != [] && !EndsStream(arrivals[0].part) {
      ReachedTaken(RecordPart(s, arrivals[0]), arrivals[1..]);
      assert Taken(arrivals)[1..] == Taken(arrivals[1..]);
    }
  }

  // ---------------------------------------------------------------------------
  // Calls and announcements
  // ---------------------------------------------------------------------------

  /** The id minted with the first announcement of a part's parameters. */
  function StartedAs(arrivals: seq<Arrival>, id: ProviderPartId): Option<ToolCallId> {
    if arrivals == [] then None
    else
      var front, last := arrivals[..|arrivals| - 1], arrivals[|arrivals| - 1];
      if StartedAs(front, id).Some? then StartedAs(front, id)
      else if last.part.ParamsStartPart? && last.part.id == id then Some(last.toolCallId) else None
  }

  predicate CallsFor(a: Arrival, id: ProviderPartId) {
    a.part.ToolCallPart? && a.part.id == id
  }

  /** A call with no later call for the same part. */
  predicate IsLastCall(arrivals: seq<Arrival>, i: int) {
    && 0 <= i < |arrivals| && arrivals[i].part.ToolCallPart?
    && forall j :: i < j < |arrivals| ==> !CallsFor(arrivals[j], arrivals[i].part.id)
  }

  function LastCallsIn(arrivals: seq<Arrival>): int -> bool {
    (i: int) => IsLastCall(arrivals, i)
  }

  function Upto(n: nat): seq<int> {
    if n == 0 then [] else Upto(n - 1) + [n - 1]
  }

  /** Where the calls that count stand, in order. */
  function LastCallsAt(arrivals: seq<Arrival>): seq<int> {
    Filter(Upto(|arrivals|), LastCallsIn(arrivals))
  }

  /** A call decides under the id its part was announced with before, or else under its own. */
  function DecidedAs(arrivals: seq<Arrival>, i: nat): ToolCallId
    requires i < |arrivals| && arrivals[i].part.ToolCallPart?
  {
    var started := StartedAs(arrivals[..i], arrivals[i].part.id);
    if started.Some? then started.value else arrivals[i].toolCallId
  }

  /** The event of a decision: the call with its decoded parameters, or why it was rejected. */
  function DecisionEvent(identity: Identity, arrivals: seq<Arrival>): int -> Payload {
    (i: int) =>
      if i < 0 || i >= |arrivals| || !arrivals[i].part.ToolCallPart? then BaseState("")
      else
        var part, t := arrivals[i].part, DecidedAs(arrivals, i);
        match arrivals[i].validation
        case ValidParams(decoded) =>
          ToolCallCreated(identity.runId, identity.turnId, identity.inferenceId, t,
                          CallPart(part.id, part.name, decoded, false))
        case UnknownTool =>
          ToolCallRejected(identity.runId, identity.turnId, identity.inferenceId, t,
                           ResultPart(part.id, part.name, ("Unknown tool: " + part.name) + "unknown-tool"))
        case InvalidParams(message) =>
          ToolCallRejected(identity.runId, identity.turnId, identity.inferenceId, t,
                           ResultPart(part.id, part.name, message + "invalid-params"))
  }

  function DecisionAt(arrivals: seq<Arrival>): int -> Decision {
    (i: int) =>
      if i < 0 || i >= |arrivals| || !arrivals[i].part.ToolCallPart? then Decision("", "", "", "", false, None)
      else
        var part := arrivals[i].part;
        var input := ToolCallInput(part.id, "", part.name, part.params, false, arrivals[i].validation);
        MakeToolCallDecision(input, DecidedAs(arrivals, i))
  }

  lemma {:induction false} UptoContains(n: nat, i: int)
    ensures i in Upto(n) <==> 0 <= i < n
  {
    if n > 0 {
      UptoContains(n - 1, i);
    }
  }

  function OtherThan(arrivals: seq<Arrival>, id: ProviderPartId): int -> bool {
    (i: int) => 0 <= i < |arrivals| && arrivals[i].part.ToolCallPart? && arrivals[i].part.id != id
  }

  /** A new call takes the place of the earlier one of its part. */
  lemma {:induction false} LastCallsGrow(front: seq<Arrival>, last: Arrival)
    ensures LastCallsAt(front + [last]) ==
            if last.part.ToolCallPart? then Filter(LastCallsAt(front), OtherThan(front, last.part.id)) + [|front|]
            else LastCallsAt(front)
  {
    var all, n := front + [last], |front|;
    FilterOfAppend(Upto(n), [n], LastCallsIn(all));
    assert [n][1..] == [];
    forall i | i in Upto(n)
      ensures LastCallsIn(all)(i) ==
              (LastCallsIn(front)(i) && (last.part.ToolCallPart? ==> OtherThan(front, last.part.id)(i)))
    {
      UptoContains(n, i);
      LastCallGrows(front, last, i);
    }
    if last.part.ToolCallPart? {
      assert LastCallsIn(all)(n);
      FilterTwice(Upto(n), LastCallsIn(front), OtherThan(front, last.part.id), LastCallsIn(all));
    } else {
      FilterAgrees(Upto(n), LastCallsIn(all), LastCallsIn(front));
      FilterNone([n], LastCallsIn(all));
    }
  }

  lemma {:induction false} LastCallGrows(front: seq<Arrival>, last: Arrival, i: nat)
    requires i < |front|
    ensures IsLastCall(front + [last], i) <==> IsLastCall(front, i) && !CallsFor(last, front[i].part.id)
  {
    var all := front + [last];
    if IsLastCall(front, i) && !CallsFor(last, front[i].part.id) {
      forall j | i < j < |all| ensures !CallsFor(all[j], all[i].part.id) {
        assert j < |front| ==> all[j] == front[j];
      }
    }
    if IsLastCall(all, i) {
      assert all[|front|] == last;
      forall j | i < j < |front| ensures !CallsFor(front[j], front[i].part.id) {
        assert all[j] == front[j];
      }
    }
  }

  /** The id a part was announced under. */
  function DraftedAs(s: InferenceState, id: ProviderPartId): Option<ToolCallId> {
    if s.drafts.Has(id) then Some(s.drafts.Get(id).value.toolCallId) else None
  }

  /** What the open fold remembers of its calls. */
  ghost predicate Remembers(s: InferenceState, arrivals: seq<Arrival>) {
    && !s.sealed
    && s.decisions == MapSeq(LastCallsAt(arrivals), DecisionAt(arrivals))
    && forall id :: DraftedAs(s, id) == StartedAs(arrivals, id)
  }

  lemma {:induction false} StartedGrows(front: seq<Arrival>, last: Arrival, id: ProviderPartId)
    ensures StartedAs(front + [last], id) ==
            if StartedAs(front, id).Some? then StartedAs(front, id)
            else if last.part.ParamsStartPart? && last.part.id == id then Some(last.toolCallId) else None
  {
    assert (front + [last])[..|front|] == front;
  }

  lemma {:induction false} EarlierDecisions(front: seq<Arrival>, last: Arrival, xs: seq<int>)
    requires forall i :: i in xs ==> 0 <= i < |front|
    ensures MapSeq(xs, DecisionAt(front + [last])) == MapSeq(xs, DecisionAt(front))
  {
    forall k | 0 <= k < |xs| ensures DecisionAt(front + [last])(xs[k]) == DecisionAt(front)(xs[k]) {
      assert xs[k] in xs;
      assert (front + [last])[..xs[k]] == front[..xs[k]];
    }
  }

  lemma {:induction false} LastCallsWithin(arrivals: seq<Arrival>)
    ensures forall i :: i in LastCallsAt(arrivals) ==> 0 <= i < |arrivals| && arrivals[i].part.ToolCallPart?
  {
    forall i | i in LastCallsAt(arrivals) ensures 0 <= i < |arrivals| {
      UptoContains(|arrivals|, i);
    }
  }

  lemma {:induction false} DraftsGrow(s: InferenceState, front: seq<Arrival>, last: Arrival, id: ProviderPartId)
    requires Remembers(s, front) && !OnlyCounted(last.part) && !EndsStream(last.part)
    ensures var next := Step(s, MakeStepInput(s, last)).next;
            && !next.sealed
            && DraftedAs(next, id) == StartedAs(front + [last], id)
  {
    StepDrafts(s, MakeStepInput(s, last), id);
    StartedGrows(front, last, id);
  }

  lemma {:induction false} OthersKept(front: seq<Arrival>, id: ProviderPartId)
    ensures Filter(MapSeq(LastCallsAt(front), DecisionAt(front)), NotFor(id))
            == MapSeq(Filter(LastCallsAt(front), OtherThan(front, id)), DecisionAt(front))
  {
    LastCallsWithin(front);
    FilterOfMap(LastCallsAt(front), DecisionAt(front), NotFor(id), OtherThan(front, id));
  }

  lemma {:induction false} CallResolves(s: InferenceState, front: seq<Arrival>, last: Arrival)
    requires Remembers(s, front) && last.part.ToolCallPart? && !EndsStream(last.part)
    ensures ResolvedId(s, MakeStepInput(s, last)) == DecidedAs(front + [last], |front|)
  {
    assert (front + [last])[..|front|] == front;
    var id := last.part.id;
    assert DraftedAs(s, id) == StartedAs(front, id);
  }

  lemma {:induction false} DecisionMade(arrivals: seq<Arrival>, i: nat, input: StepInput)
    requires i < |arrivals| && arrivals[i].part.ToolCallPart?
    requires input.ToolCallInput? && input.id == arrivals[i].part.id && input.name == arrivals[i].part.name
    requires input.params == arrivals[i].part.params && !input.providerExecuted
    requires input.validation == arrivals[i].validation
    ensures MakeToolCallDecision(input, DecidedAs(arrivals, i)) == DecisionAt(arrivals)(i)
  {
  }

  lemma {:induction false} CallDecides(s: InferenceState, front: seq<Arrival>, last: Arrival)
    requires Remembers(s, front) && last.part.ToolCallPart? && !EndsStream(last.part)
    ensures Step(s, MakeStepInput(s, last)).next.decisions
            == Filter(s.decisions, NotFor(last.part.id)) + [DecisionAt(front + [last])(|front|)]
  {
    var input := MakeStepInput(s, last);
    StepDecisions(s, input);
    CallResolves(s, front, last);
    DecisionMade(front + [last], |front|, input);
  }

  lemma {:induction false} CallGrows(s: InferenceState, front: seq<Arrival>, last: Arrival)
    requires Remembers(s, front) && last.part.ToolCallPart? && !EndsStream(last.part)
    ensures Step(s, MakeStepInput(s, last)).next.decisions
            == MapSeq(LastCallsAt(front + [last]), DecisionAt(front + [last]))
  {
    var kept := Filter(LastCallsAt(front), OtherThan(front, last.part.id));
    CallDecides(s, front, last);
    OthersKept(front, last.part.id);
    LastCallsWithin(front);
    EarlierDecisions(front, last, kept);
    LastCallsGrow(front, last);
    MapOfAppend(kept, [|front|], DecisionAt(front + [last]));
    assert MapSeq([|front|], DecisionAt(front + [last])) == [DecisionAt(front + [last])(|front|)];
  }

  lemma {:induction false} OtherKeeps(s: InferenceState, a: Arrival)
    requires !s.sealed && !OnlyCounted(a.part) && !EndsStream(a.part) && !a.part.ToolCallPart?
    ensures Step(s, MakeStepInput(s, a)).next.decisions == s.decisions
  {
    StepDecisions(s, MakeStepInput(s, a));
  }

  lemma {:induction false} SameCalls(front: seq<Arrival>, last: Arrival)
    requires !last.part.ToolCallPart?
    ensures MapSeq(LastCallsAt(front + [last]), DecisionAt(front + [last]))
            == MapSeq(LastCallsAt(front), DecisionAt(front))
  {
    LastCallsGrow(front, last);
    LastCallsWithin(front);
    EarlierDecisions(front, last, LastCallsAt(front));
  }

  lemma {:induction false} CountedGrows(s: InferenceState, front: seq<Arrival>, last: Arrival)
    requires Remembers(s, front) && OnlyCounted(last.part)
    ensures Remembers(s, front + [last])
  {
    SameCalls(front, last);
    forall id ensures StartedAs(front + [last], id) == StartedAs(front, id) {
      StartedGrows(front, last, id);
    }
  }

  lemma {:induction false} StepRemembers(s: InferenceState, front: seq<Arrival>, last: Arrival)
    requires Remembers(s, front) && !OnlyCounted(last.part) && !EndsStream(last.part)
    ensures var next := Step(s, MakeStepInput(s, last)).next;
            Remembers(next, front + [last]) && next.identity == s.identity
  {
    var next := Step(s, MakeStepInput(s, last)).next;
    if last.part.ToolCallPart? {
      CallGrows(s, front, last);
    } else {
      OtherKeeps(s, last);
      SameCalls(front, last);
    }
    StepDrafts(s, MakeStepInput(s, last), "");
    forall id
      ensures DraftedAs(next, id) == StartedAs(front + [last], id)
    {
      DraftsGrow(s, front, last, id);
    }
  }

  lemma {:induction false} RecordedRemembers(identity: Identity, arrivals: seq<Arrival>)
    requires AllOpen(arrivals)
    ensures Remembers(RecordAll(InitialRun(identity), arrivals).inference, arrivals)
    ensures RecordAll(InitialRun(identity), arrivals).inference.identity == identity
  {
    if arrivals != [] {
      var front, last := arrivals[..|arrivals| - 1], arrivals[|arrivals| - 1];
      var s := RecordAll(InitialRun(identity), front).inference;
      assert arrivals == front + [last] && !EndsStream(last.part);
      RecordedRemembers(identity, front);
      RecordAllSnoc(InitialRun(identity), front, last);
      if OnlyCounted(last.part) {
        CountedGrows(s, front, last);
      } else {
        StepRemembers(s, front, last);
      }
    }
  }

  lemma {:induction false} DecisionIsEvent(identity: Identity, arrivals: seq<Arrival>, i: nat)
    requires i < |arrivals| && arrivals[i].part.ToolCallPart?
    ensures PayloadOf(identity)(DecisionAt(arrivals)(i)) == DecisionEvent(identity, arrivals)(i)
  {
  }

  /**
   * The decisions of a stream: one for the last call of each part, in the order of these calls, each with the
   * call's own name, parameters and validation, under the id announced before it or else its own.
   */
  lemma {:induction false} DecisionsExactly(identity: Identity, arrivals: seq<Arrival>)
    ensures var taken := Taken(arrivals);
            MapSeq(Reached(InitialRun(identity), arrivals).inference.decisions, PayloadOf(identity))
            == MapSeq(LastCallsAt(taken), DecisionEvent(identity, taken))
  {
    var taken := Taken(arrivals);
    TakenIsOpen(arrivals);
    ReachedTaken(InitialRun(identity), arrivals);
    RecordedRemembers(identity, taken);
    LastCallsWithin(taken);
    forall i | i in LastCallsAt(taken)
      ensures PayloadOf(identity)(DecisionAt(taken)(i)) == DecisionEvent(identity, taken)(i)
    {
      DecisionIsEvent(identity, taken, i);
    }
    MapOfMap(LastCallsAt(taken), DecisionAt(taken), PayloadOf(identity), DecisionEvent(identity, taken));
  }

  /** The one batch of any provider stream, from its parts alone. */
  lemma {:induction false} StreamExactly(identity: Identity, arrivals: seq<Arrival>, messageId: MessageId)
    ensures var taken := Taken(arrivals);
            var decided := MapSeq(LastCallsAt(taken), DecisionEvent(identity, taken));
            RunInference(identity, arrivals, messageId).committed
            == [Batch(identity, decided, Heard(arrivals), FirstEnd(arrivals), messageId)]
  {
    DecisionsExactly(identity, arrivals);
    BatchExactly(identity, arrivals, messageId);
  }
}
