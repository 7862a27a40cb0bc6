/** The approximate-token compaction planner and the check every plan must pass. */
module Compaction {
  import opened Collections
  import opened Events
  import opened Records
  import opened CommandQueues
  import opened ReducedState
  import opened ReplayInvariants
  import opened PromptProjection

  datatype CompactionPlan = CompactionPlan(policyId: Json, sourceFromSeq: Seq, sourceToSeq: Seq,
    retainedFromContextSeq: Seq)

  datatype Rejection = CursorNotAdvanced | SourcePastHead | SkipsFutureContext | EmptySource | RetainsSource

  datatype Retain = TailTokens | LastResponse

  datatype Options = Options(
    retain: Retain,
    policyId: Json,
    thresholdTokens: real,
    retainTailTokens: real,
    minSummarizableTokens: real,
    charsPerToken: real)
  {
    /** What normalization guarantees of every option. */
    predicate Valid() {
      thresholdTokens > 0.0 && retainTailTokens >= 0.0 && minSummarizableTokens >= 0.0 && charsPerToken > 0.0
    }

    function RetainTailChars(): real {
      retainTailTokens * charsPerToken
    }
  }

  type PolicyOptions = o: Options | o.Valid() witness Options(TailTokens, "approximate-token-threshold", 1.0, 0.0, 0.0,
    1.0)

  /** A transcript message with its own position and its estimated size. */
  datatype EstimatedMessage = EstimatedMessage(message: MessageRecord, at: Seq, chars: nat)

  /** The size estimates, which depend on content the model does not interpret. */
  datatype Estimates = Estimates(messageChars: MessageRecord -> nat, summaryChars: Summary -> nat,
    systemChars: MessageRecord -> nat)

  // ---------------------------------------------------------------------------
  // The check
  // ---------------------------------------------------------------------------

  function ValidatePlan(plan: CompactionPlan, lastSeq: Seq, summary: Option<Summary>): Option<Rejection> {
    if plan.retainedFromContextSeq <= RetainedFrom(summary) then Some(CursorNotAdvanced)
    else if plan.sourceToSeq > lastSeq then Some(SourcePastHead)
    else if plan.retainedFromContextSeq > lastSeq + 1 then Some(SkipsFutureContext)
    else if plan.sourceFromSeq > plan.sourceToSeq then Some(EmptySource)
    else if plan.retainedFromContextSeq <= plan.sourceToSeq then Some(RetainsSource)
    else None
  }

  // ---------------------------------------------------------------------------
  // Choosing the cursor
  // ---------------------------------------------------------------------------

  /** Steering counts where it was consumed, every other message where it was committed. */
  function MessageSeq(m: MessageRecord): Seq {
    if m.meta.Steering? && m.meta.life.consumedSeq.Some? then m.meta.life.consumedSeq.value else m.meta.at
  }

  function Estimate(estimates: Estimates): MessageRecord -> EstimatedMessage {
    (m: MessageRecord) => EstimatedMessage(m, MessageSeq(m), estimates.messageChars(m))
  }

  function EstimatedContextMessages(messages: Messages, estimates: Estimates): seq<EstimatedMessage> {
    MapSeq(DurableMessageTranscript(messages), Estimate(estimates))
  }

  function CharsOf(m: EstimatedMessage): nat {
    m.chars
  }

  function TotalChars(ms: seq<EstimatedMessage>): nat {
    SumOf(ms, CharsOf)
  }

  /** Where the scan from the end stops when the messages from `n` on count `tail` and stay below the budget. */
  function TailIndex(ms: seq<EstimatedMessage>, n: nat, tail: nat, budget: real): nat
    requires n <= |ms|
  {
    if n == 0 then 0
    else if (tail + ms[n - 1].chars) as real >= budget then n - 1
    else TailIndex(ms, n - 1, tail + ms[n - 1].chars, budget)
  }

  function SelectRetained(ms: seq<EstimatedMessage>, lastSeq: Seq, options: PolicyOptions): Seq {
    if options.retainTailTokens == 0.0 || ms == [] then lastSeq + 1
    else
      TailIndexInRange(ms, |ms|, 0, options.RetainTailChars());
      ms[TailIndex(ms, |ms|, 0, options.RetainTailChars())].at
  }

  lemma {:induction false} TailIndexInRange(ms: seq<EstimatedMessage>, n: nat, tail: nat, budget: real)
    requires 0 < n <= |ms|
    ensures TailIndex(ms, n, tail, budget) < n
  {
    if n > 1 {
      TailIndexInRange(ms, n - 1, tail + ms[n - 1].chars, budget);
    }
  }

  /** Add message sizes from the end until the budget is reached. */
  method SelectRetainedFromSeq(ms: seq<EstimatedMessage>, lastSeq: Seq, options: PolicyOptions) returns (at: Seq)
    ensures at == SelectRetained(ms, lastSeq, options)
  {
    if options.retainTailTokens == 0.0 {
      return lastSeq + 1;
    }
    var retainTailChars := options.RetainTailChars();
    var tailChars: nat, retainedIndex: nat := 0, |ms|;
    var index := |ms|;
    while index > 0
      invariant 0 <= index <= |ms|
      invariant retainedIndex == index
      invariant TailIndex(ms, |ms|, 0, retainTailChars) == TailIndex(ms, index, tailChars, retainTailChars)
    {
      index := index - 1;
      tailChars := tailChars + ms[index].chars;
      retainedIndex := index;
      if tailChars as real >= retainTailChars {
        break;
      }
    }
    if ms != [] {
      TailIndexInRange(ms, |ms|, 0, retainTailChars);
    }
    at := if retainedIndex >= |ms| then lastSeq + 1 else ms[retainedIndex].at;
  }

  /** Index `i` starts the shortest suffix reaching the budget, or all messages when none reaches it. */
  ghost predicate ShortestTail(ms: seq<EstimatedMessage>, i: nat, budget: real) {
    && i < |ms|
    && (i > 0 ==> TotalChars(ms[i..]) as real >= budget)
    && (forall j :: i < j <= |ms| ==> (TotalChars(ms[j..]) as real) < budget)
  }

  lemma {:induction false} TailIndexIsShortest(ms: seq<EstimatedMessage>, n: nat, budget: real)
    requires 0 < n <= |ms| && budget > 0.0
    requires forall j :: n <= j <= |ms| ==> (TotalChars(ms[j..]) as real) < budget
    ensures ShortestTail(ms, TailIndex(ms, n, TotalChars(ms[n..]), budget), budget)
  {
    assert ms[n - 1..][1..] == ms[n..];
    assert TotalChars(ms[n - 1..]) == ms[n - 1].chars + TotalChars(ms[n..]);
    if TotalChars(ms[n - 1..]) as real < budget && n > 1 {
      TailIndexIsShortest(ms, n - 1, budget);
    }
  }

  /**
   * With a positive budget the cursor is the start of the shortest tail that reaches it; without
   * messages it is past the head.
   */
  lemma {:induction false} TailModeSelectsShortestSuffix(
      ms: seq<EstimatedMessage>, lastSeq: Seq, options: PolicyOptions)
    requires options.retainTailTokens > 0.0
    ensures ms == [] ==> SelectRetained(ms, lastSeq, options) == lastSeq + 1
    ensures ms != [] ==>
              exists i: nat :: ShortestTail(ms, i, options.RetainTailChars())
                && SelectRetained(ms, lastSeq, options) == ms[i].at
  {
    if ms != [] {
      var budget := options.RetainTailChars();
      assert ms[|ms|..] == [] && TotalChars([]) == 0;
      TailIndexIsShortest(ms, |ms|, budget);
      assert ShortestTail(ms, TailIndex(ms, |ms|, 0, budget), budget);
    }
  }

  /** The latest assistant message past the cursor with nothing at or before the cursor after it. */
  ghost predicate LatestResponse(ms: seq<EstimatedMessage>, i: nat, cursor: Seq) {
    && i < |ms| && IsAssistant(ms[i].message) && cursor < ms[i].at
    && forall j :: i < j < |ms| ==> !IsAssistant(ms[j].message) && cursor < ms[j].at
  }

  function LastResponseIn(ms: seq<EstimatedMessage>, cursor: Seq): Option<Seq> {
    if ms == [] then None
    else
      var last := ms[|ms| - 1];
      if last.at <= cursor then None
      else if IsAssistant(last.message) then Some(last.at)
      else LastResponseIn(ms[..|ms| - 1], cursor)
  }

  /** Scan the messages from the end. */
  method LastResponseSeq(ms: seq<EstimatedMessage>, cursor: Seq) returns (at: Option<Seq>)
    ensures at == LastResponseIn(ms, cursor)
  {
    var n := |ms|;
    assert ms[..n] == ms;
    while n > 0
      invariant 0 <= n <= |ms|
      invariant LastResponseIn(ms, cursor) == LastResponseIn(ms[..n], cursor)
    {
      var entry := ms[n - 1];
      assert ms[..n][..n - 1] == ms[..n - 1];
      if entry.at <= cursor {
        return None;
      }
      if IsAssistant(entry.message) {
        return Some(entry.at);
      }
      n := n - 1;
    }
    at := None;
  }

  lemma {:induction false} LastResponseIsLatest(ms: seq<EstimatedMessage>, cursor: Seq)
    ensures LastResponseIn(ms, cursor).Some? ==>
              exists i: nat :: LatestResponse(ms, i, cursor) && LastResponseIn(ms, cursor) == Some(ms[i].at)
    ensures LastResponseIn(ms, cursor).None? ==> forall i: nat :: !LatestResponse(ms, i, cursor)
  {
    if ms != [] {
      var front, last := ms[..|ms| - 1], ms[|ms| - 1];
      if cursor < last.at && IsAssistant(last.message) {
        assert LatestResponse(ms, |front|, cursor);
      } else if cursor < last.at {
        LastResponseIsLatest(front, cursor);
        forall i: nat | i < |front| ensures LatestResponse(ms, i, cursor) <==> LatestResponse(front, i, cursor) {
          if LatestResponse(front, i, cursor) {
            assert forall j :: i < j < |front| ==> ms[j] == front[j];
          }
          if LatestResponse(ms, i, cursor) {
            assert forall j :: i < j < |front| ==> front[j] == ms[j];
          }
        }
      } else {
        forall i: nat ensures !LatestResponse(ms, i, cursor) {
          assert ms[|front|].at <= cursor;
        }
      }
    }
  }

  // ---------------------------------------------------------------------------
  // The plan
  // ---------------------------------------------------------------------------

  function Ceiling(x: real): int {
    -((-x).Floor)
  }

  function CharsToTokens(chars: nat, charsPerToken: real): int
    requires charsPerToken > 0.0
  {
    Ceiling(chars as real / charsPerToken)
  }

  function SystemChars(estimates: Estimates): MessageRecord -> nat {
    (m: MessageRecord) => var chars: nat := if m.meta.System? then estimates.systemChars(m) else 0; chars
  }

  function EstimateCurrentPromptChars(messages: Messages, summary: Option<Summary>, estimates: Estimates): nat {
    SumOf(messages.Values(), SystemChars(estimates))
    + (if summary.Some? then estimates.summaryChars(summary.value) else 0)
    + TotalChars(EstimatedContextMessages(messages, estimates))
  }

  function Before(at: Seq): EstimatedMessage -> bool {
    (m: EstimatedMessage) => m.at < at
  }

  function PlanApproximateTokenCompaction(
      r: Replay, summary: Option<Summary>, options: PolicyOptions, estimates: Estimates): Option<CompactionPlan> {
    var ms := EstimatedContextMessages(r.messages, estimates);
    if EstimateCurrentPromptChars(r.messages, summary,
      estimates) as real <= options.thresholdTokens * options.charsPerToken then None
    else
      var cursor := RetainedFrom(summary);
      var retained :=
        if options.retain == LastResponse
          then LastResponseIn(ms, cursor)
          else Some(SelectRetained(ms, r.lastSeq, options));
      if retained.None? || retained.value <= cursor then None
      else
        var source := Filter(ms, Before(retained.value));
        if source == [] || CharsToTokens(TotalChars(source),
          options.charsPerToken) as real < options.minSummarizableTokens then None
        else
          var from := if cursor > 0 then cursor else source[0].at;
          if from > retained.value - 1 then None
          else Some(CompactionPlan(options.policyId, from, retained.value - 1, retained.value))
  }

  lemma {:induction false} EstimatedWithinHead(messages: Messages, head: Seq, estimates: Estimates)
    requires MessagesBounded(messages, head)
    ensures forall m :: m in EstimatedContextMessages(messages, estimates) ==> m.at <= head
  {
    var durable := Filter(messages.Values(), IsDurableTranscriptMessage);
    SortIsPermutation(durable, TranscriptOrder);
    SameElements(StableSort(durable, TranscriptOrder), durable);
    forall m | m in EstimatedContextMessages(messages, estimates) ensures m.at <= head {
      var i :| 0 <= i < |EstimatedContextMessages(messages, estimates)|
        && EstimatedContextMessages(messages, estimates)[i] == m;
      var record := DurableMessageTranscript(messages)[i];
      assert record in durable;
      var k := ValueHasKey(messages, record);
    }
  }

  lemma {:induction false} LastResponseIsAMessage(ms: seq<EstimatedMessage>, cursor: Seq)
    ensures LastResponseIn(ms, cursor).Some? ==> exists m :: m in ms && m.at == LastResponseIn(ms, cursor).value
  {
    if ms != [] {
      LastResponseIsAMessage(ms[..|ms| - 1], cursor);
    }
  }

  lemma {:induction false} SelectRetainedWithinHead(ms: seq<EstimatedMessage>, lastSeq: Seq, options: PolicyOptions)
    requires forall m :: m in ms ==> m.at <= lastSeq
    ensures SelectRetained(ms, lastSeq, options) <= lastSeq + 1
  {
    if options.retainTailTokens != 0.0 && ms != [] {
      var budget := options.RetainTailChars();
      TailIndexInRange(ms, |ms|, 0, budget);
      assert ms[TailIndex(ms, |ms|, 0, budget)] in ms;
    }
  }

  /** A plan the check accepts: the cursor advances and nothing is skipped or summarized twice. */
  predicate Acceptable(plan: CompactionPlan, head: Seq, summary: Option<Summary>) {
    && ValidatePlan(plan, head, summary).None?
    && RetainedFrom(summary) < plan.retainedFromContextSeq <= head + 1
    && plan.sourceToSeq + 1 == plan.retainedFromContextSeq
    && (RetainedFrom(summary) > 0 ==> plan.sourceFromSeq == RetainedFrom(summary))
  }

  /** Where the planner cuts is within the log. */
  lemma {:induction false} CutWithinHead(
      r: Replay, summary: Option<Summary>, options: PolicyOptions, estimates: Estimates)
    requires MessagesBounded(r.messages, r.lastSeq)
    ensures var ms := EstimatedContextMessages(r.messages, estimates);
            var last := LastResponseIn(ms, RetainedFrom(summary));
            (last.Some? ==> last.value <= r.lastSeq + 1) && SelectRetained(ms, r.lastSeq, options) <= r.lastSeq + 1
  {
    var ms := EstimatedContextMessages(r.messages, estimates);
    EstimatedWithinHead(r.messages, r.lastSeq, estimates);
    SelectRetainedWithinHead(ms, r.lastSeq, options);
    LastResponseIsAMessage(ms, RetainedFrom(summary));
  }

  lemma {:induction false} PlanOfStateIsAccepted(
      r: Replay, summary: Option<Summary>, options: PolicyOptions, estimates: Estimates)
    requires MessagesBounded(r.messages, r.lastSeq)
    ensures var plan := PlanApproximateTokenCompaction(r, summary, options, estimates);
            plan.Some? ==> Acceptable(plan.value, r.lastSeq, summary)
  {
    CutWithinHead(r, summary, options, estimates);
  }

  /** The planner gives nothing, or a plan the check accepts, for the state of every log. */
  lemma {:induction false} PlanIsAccepted(
      log: seq<Committed>, summary: Option<Summary>, options: PolicyOptions, estimates: Estimates)
    requires Dense(log, 0)
    ensures var plan := PlanApproximateTokenCompaction(Reduce(log).replay, summary, options, estimates);
            plan.Some? ==> Acceptable(plan.value, |log|, summary)
  {
    FoldKeepsBounds(log);
    PlanOfStateIsAccepted(Reduce(log).replay, summary, options, estimates);
  }

  /** A plan is valid exactly when its cursor advances without passing the head and its source ends before it. */
  lemma {:induction false} ValidExactly(plan: CompactionPlan, head: Seq, summary: Option<Summary>)
    ensures ValidatePlan(plan, head, summary).None? <==>
              && RetainedFrom(summary) < plan.retainedFromContextSeq <= head + 1
              && plan.sourceFromSeq <= plan.sourceToSeq < plan.retainedFromContextSeq
  {
  }

  // ---------------------------------------------------------------------------
  // When there is a plan
  // ---------------------------------------------------------------------------

  /** Where the two modes cut: before the latest response, or before the shortest tail that fills the budget. */
  ghost predicate CutsAt(ms: seq<EstimatedMessage>, head: Seq, cursor: Seq, options: PolicyOptions, cut: Seq) {
    if options.retain == LastResponse then exists i: nat :: LatestResponse(ms, i, cursor) && cut == ms[i].at
    else if options.retainTailTokens == 0.0 || ms == [] then cut == head + 1
    else exists i: nat :: ShortestTail(ms, i, options.RetainTailChars()) && cut == ms[i].at
  }

  function ChosenCut(ms: seq<EstimatedMessage>, head: Seq, cursor: Seq, options: PolicyOptions): Option<Seq> {
    if options.retain == LastResponse then LastResponseIn(ms, cursor) else Some(SelectRetained(ms, head, options))
  }

  lemma {:induction false} LatestOnce(ms: seq<EstimatedMessage>, cursor: Seq, i: nat, j: nat)
    requires LatestResponse(ms, i, cursor) && LatestResponse(ms, j, cursor)
    ensures i == j
  {
  }

  lemma {:induction false} ShortestOnce(ms: seq<EstimatedMessage>, budget: real, i: nat, j: nat)
    requires ShortestTail(ms, i, budget) && ShortestTail(ms, j, budget)
    ensures i == j
  {
  }

  /** There is one cut at most. */
  lemma {:induction false} CutsExactly(
      ms: seq<EstimatedMessage>, head: Seq, cursor: Seq, options: PolicyOptions, cut: Seq)
    ensures CutsAt(ms, head, cursor, options, cut) <==> ChosenCut(ms, head, cursor, options) == Some(cut)
  {
    if options.retain == LastResponse {
      LastResponseIsLatest(ms, cursor);
      if i: nat :| LatestResponse(ms, i, cursor) && cut == ms[i].at {
        var j: nat :| LatestResponse(ms, j, cursor) && LastResponseIn(ms, cursor) == Some(ms[j].at);
        LatestOnce(ms, cursor, i, j);
      }
    } else if options.retainTailTokens > 0.0 && ms != [] {
      var budget := options.RetainTailChars();
      TailModeSelectsShortestSuffix(ms, head, options);
      if i: nat :| ShortestTail(ms, i, budget) && cut == ms[i].at {
        var j: nat :| ShortestTail(ms, j, budget) && SelectRetained(ms, head, options) == ms[j].at;
        ShortestOnce(ms, budget, i, j);
      }
    }
  }

  /** The sizes of the messages before the cut, added up. */
  function CharsBefore(ms: seq<EstimatedMessage>, cut: Seq): nat {
    if ms == [] then 0
    else CharsBefore(ms[..|ms| - 1], cut) + if ms[|ms| - 1].at < cut then ms[|ms| - 1].chars else 0
  }

  lemma {:induction false} TotalJoins(a: seq<EstimatedMessage>, b: seq<EstimatedMessage>)
    ensures TotalChars(a + b) == TotalChars(a) + TotalChars(b)
  {
    if a == [] {
      assert a + b == b;
    } else {
      assert (a + b)[1..] == a[1..] + b;
      TotalJoins(a[1..], b);
    }
  }

  lemma {:induction false} TotalOfOne(m: EstimatedMessage)
    ensures TotalChars([m]) == m.chars && TotalChars([]) == 0
  {
    var none: seq<EstimatedMessage> := [m][1..];
    assert none == [];
    assert SumOf(none, CharsOf) == 0;
    assert SumOf([m], CharsOf) == CharsOf(m) + SumOf(none, CharsOf);
  }

  lemma {:induction false} SourceChars(ms: seq<EstimatedMessage>, cut: Seq)
    ensures TotalChars(Filter(ms, Before(cut))) == CharsBefore(ms, cut)
  {
    if ms != [] {
      var front, last := ms[..|ms| - 1], ms[|ms| - 1];
      SourceChars(front, cut);
      assert ms == front + [last];
      FilterOfAppend(front, [last], Before(cut));
      TotalJoins(Filter(front, Before(cut)), Filter([last], Before(cut)));
      TotalOfOne(last);
      assert Filter([last], Before(cut)) == if last.at < cut then [last] else [];
    }
  }

  /** The message that is first before the cut. */
  ghost predicate FirstBefore(ms: seq<EstimatedMessage>, i: nat, cut: Seq) {
    i < |ms| && ms[i].at < cut && forall j :: 0 <= j < i ==> cut <= ms[j].at
  }

  lemma {:induction false} SourceStarts(ms: seq<EstimatedMessage>, cut: Seq)
    ensures var source := Filter(ms, Before(cut));
            && (source == [] <==> forall i: nat :: !FirstBefore(ms, i, cut))
            && (source != [] ==> exists i: nat :: FirstBefore(ms, i, cut) && ms[i] == source[0])
  {
    if ms != [] {
      var rest := ms[1..];
      SourceStarts(rest, cut);
      if ms[0].at < cut {
        assert FirstBefore(ms, 0, cut);
      } else {
        forall i: nat ensures FirstBefore(rest, i, cut) ==> FirstBefore(ms, i + 1, cut) && ms[i + 1] == rest[i] {
          assert FirstBefore(rest, i, cut) ==> forall j :: 0 < j < i + 1 ==> ms[j] == rest[j - 1];
        }
        forall i: nat ensures FirstBefore(ms, i, cut) ==> i > 0 && FirstBefore(rest, i - 1, cut) {
          if FirstBefore(ms, i, cut) {
            assert rest[i - 1] == ms[i] && forall j :: 0 <= j < i - 1 ==> rest[j] == ms[j + 1];
          }
        }
      }
    }
  }

  /** The number of tokens is the least integer that covers the characters. */
  predicate Tokens(n: int, chars: nat, charsPerToken: real) {
    (n - 1) as real * charsPerToken < chars as real <= n as real * charsPerToken
  }

  lemma {:induction false} TokensExactly(n: int, chars: nat, charsPerToken: real)
    requires charsPerToken > 0.0
    ensures Tokens(n, chars, charsPerToken) <==> n == CharsToTokens(chars, charsPerToken)
  {
    var x := chars as real / charsPerToken;
    CeilingExactly(n, x);
    Scaled((n - 1) as real, x, charsPerToken, (n - 1) as real * charsPerToken, chars as real);
    Scaled(n as real, x, charsPerToken, n as real * charsPerToken, chars as real);
  }

  lemma {:induction false} CeilingExactly(n: int, x: real)
    ensures n == Ceiling(x) <==> (n - 1) as real < x <= n as real
  {
  }

  lemma {:induction false} Scaled(a: real, x: real, unit: real, scaledA: real, scaledX: real)
    requires unit > 0.0 && scaledA == a * unit && scaledX == x * unit
    ensures x > a <==> scaledX > scaledA
  {
    if x > a {
      assert (x - a) * unit > 0.0;
    } else {
      assert (a - x) * unit >= 0.0;
    }
  }

  /** What is before the cut is worth a summary. */
  ghost predicate WorthSummary(ms: seq<EstimatedMessage>, cut: Seq, options: PolicyOptions) {
    exists n: int :: Tokens(n, CharsBefore(ms, cut), options.charsPerToken)
      && n as real >= options.minSummarizableTokens
  }

  lemma {:induction false} WorthExactly(ms: seq<EstimatedMessage>, cut: Seq, options: PolicyOptions)
    ensures WorthSummary(ms, cut, options) <==>
            CharsToTokens(CharsBefore(ms, cut), options.charsPerToken) as real >= options.minSummarizableTokens
  {
    var n := CharsToTokens(CharsBefore(ms, cut), options.charsPerToken);
    TokensExactly(n, CharsBefore(ms, cut), options.charsPerToken);
    if other: int :|
      && Tokens(other, CharsBefore(ms, cut), options.charsPerToken) && other as real >= options.minSummarizableTokens {
      TokensExactly(other, CharsBefore(ms, cut), options.charsPerToken);
    }
  }

  /** The source starts at the cursor, or at the first message before the cut when nothing was summarized yet. */
  ghost predicate StartsAt(ms: seq<EstimatedMessage>, cursor: Seq, cut: Seq, from: Seq) {
    && (exists i: nat :: FirstBefore(ms, i, cut) && (cursor == 0 ==> from == ms[i].at))
    && (cursor > 0 ==> from == cursor)
  }

  ghost predicate Planned(
      ms: seq<EstimatedMessage>, head: Seq, cursor: Seq, options: PolicyOptions, plan: CompactionPlan) {
    var cut := plan.retainedFromContextSeq;
    && CutsAt(ms, head, cursor, options, cut)
    && cursor < cut
    && WorthSummary(ms, cut, options)
    && StartsAt(ms, cursor, cut, plan.sourceFromSeq)
    && plan.policyId == options.policyId
    && plan.sourceFromSeq <= plan.sourceToSeq && plan.sourceToSeq + 1 == cut
  }

  function PlanAt(ms: seq<EstimatedMessage>, cursor: Seq, options: PolicyOptions, cut: Seq): Option<CompactionPlan> {
    var source := Filter(ms, Before(cut));
    if cut <= cursor || source == [] then None
    else if CharsToTokens(TotalChars(source), options.charsPerToken) as real < options.minSummarizableTokens then None
    else
      var from := if cursor > 0 then cursor else source[0].at;
      if from > cut - 1 then None else Some(CompactionPlan(options.policyId, from, cut - 1, cut))
  }

  lemma {:induction false} FirstOnce(ms: seq<EstimatedMessage>, cut: Seq, i: nat, j: nat)
    requires FirstBefore(ms, i, cut) && FirstBefore(ms, j, cut)
    ensures i == j
  {
  }

  lemma {:induction false} StartsExactly(ms: seq<EstimatedMessage>, cursor: Seq, cut: Seq, from: Seq)
    ensures var source := Filter(ms, Before(cut));
            StartsAt(ms, cursor, cut, from) <==> source != [] && from == if cursor > 0 then cursor else source[0].at
  {
    SourceStarts(ms, cut);
    var source := Filter(ms, Before(cut));
    if source != [] {
      var first: nat :| FirstBefore(ms, first, cut) && ms[first] == source[0];
      if i: nat :| FirstBefore(ms, i, cut) && (cursor == 0 ==> from == ms[i].at) {
        FirstOnce(ms, cut, i, first);
      }
    }
  }

  lemma {:induction false} PlanAtExactly(
      ms: seq<EstimatedMessage>, head: Seq, cursor: Seq, options: PolicyOptions, plan: CompactionPlan)
    ensures Planned(ms, head, cursor, options, plan) <==>
              && CutsAt(ms, head, cursor, options, plan.retainedFromContextSeq)
              && PlanAt(ms, cursor, options, plan.retainedFromContextSeq) == Some(plan)
  {
    var cut := plan.retainedFromContextSeq;
    StartsExactly(ms, cursor, cut, plan.sourceFromSeq);
    WorthExactly(ms, cut, options);
    SourceChars(ms, cut);
  }

  lemma {:induction false} PlannerInParts(
      r: Replay, summary: Option<Summary>, options: PolicyOptions, estimates: Estimates)
    ensures var ms, cursor := EstimatedContextMessages(r.messages, estimates), RetainedFrom(summary);
            var cut := ChosenCut(ms, r.lastSeq, cursor, options);
            var size := EstimateCurrentPromptChars(r.messages, summary, estimates) as real;
            PlanApproximateTokenCompaction(r, summary, options, estimates) ==
            if size <= options.thresholdTokens * options.charsPerToken || cut.None? then None
            else PlanAt(ms, cursor, options, cut.value)
  {
  }

  /**
   * A plan is given exactly when the prompt is over the threshold and the cut of the mode lies past the cursor with
   * enough before it to summarize: from the cursor, or the first message, up to right before the cut.
   */
  lemma {:induction false} PlannedExactly(
      r: Replay, summary: Option<Summary>, options: PolicyOptions, estimates: Estimates, plan: CompactionPlan)
    ensures PlanApproximateTokenCompaction(r, summary, options, estimates) == Some(plan) <==>
              && EstimateCurrentPromptChars(r.messages, summary, estimates) as real
                 > options.thresholdTokens * options.charsPerToken
              && Planned(EstimatedContextMessages(r.messages, estimates), r.lastSeq, RetainedFrom(summary), options,
                plan)
  {
    var ms, cursor := EstimatedContextMessages(r.messages, estimates), RetainedFrom(summary);
    PlannerInParts(r, summary, options, estimates);
    PlanAtExactly(ms, r.lastSeq, cursor, options, plan);
    CutsExactly(ms, r.lastSeq, cursor, options, plan.retainedFromContextSeq);
  }

  /**
   * What is estimated: each message of the transcript, at its consumption for steering and its own
   * position otherwise.
   */
  lemma {:induction false} EstimatedExactly(messages: Messages, estimates: Estimates)
    ensures var transcript, ms := DurableMessageTranscript(messages), EstimatedContextMessages(messages, estimates);
            && |ms| == |transcript|
            && forall i :: 0 <= i < |ms| ==>
                 && ms[i].message == transcript[i] && ms[i].chars == estimates.messageChars(transcript[i])
                 && match transcript[i].meta {
                      case Steering(_, _, _, _, _, life) => life.consumedSeq == Some(ms[i].at)
                      case _ => ms[i].at == transcript[i].meta.at
                    }
  {
    var durable := Filter(messages.Values(), IsDurableTranscriptMessage);
    var transcript := DurableMessageTranscript(messages);
    SortIsPermutation(durable, TranscriptOrder);
    SameElements(transcript, durable);
    forall i | 0 <= i < |transcript| ensures IsDurableTranscriptMessage(transcript[i]) {
      assert transcript[i] in transcript && transcript[i] in durable;
    }
  }
}
