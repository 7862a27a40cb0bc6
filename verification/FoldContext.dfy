/** What the folded state records of compactions, recoveries, the open request, the model and its usage. */
module FoldContext {
  import opened Collections
  import opened Events
  import opened Records
  import opened CommandQueues
  import opened ReducedState
  import opened LogQueries
  import opened FoldRecords

  // ---------------------------------------------------------------------------
  // The context and the configured model
  // ---------------------------------------------------------------------------

  lemma {:induction false} HeadRecorded(log: seq<Committed>)
    ensures FoldReplay(GENESIS, log).lastSeq == if log == [] then 0 else log[|log| - 1].at
  {
  }

  function Rebases(): Committed -> bool {
    (e: Committed) => e.event.payload.ContextRebased?
  }

  function SetsContext(): Committed -> bool {
    (e: Committed) => e.event.payload.ContextProjected? || e.event.payload.ContextRebased?
  }

  /** The summary an event names. */
  function SummaryOf(named: Option<Committed>): Option<SummaryId> {
    if named.None? then None
    else
      match named.value.event.payload
      case SummaryCreated(_, summaryId, _, _, _) => Some(summaryId)
      case ContextRebased(_, summaryId, _, _) => Some(summaryId)
      case _ => None
  }

  /** The summary of the last rebase. */
  function CurrentSummary(log: seq<Committed>): Option<SummaryId> {
    SummaryOf(Latest(log, Rebases()))
  }

  lemma {:induction false} SummaryStep(log: seq<Committed>, e: Committed, context: ContextRecord)
    requires context.currentSummaryId == CurrentSummary(log)
    ensures ApplyContext(context, e).currentSummaryId == CurrentSummary(log + [e])
  {
    LatestSnoc(log, e, Rebases());
    if e.event.payload.ContextRebased? {
      assert Rebases()(e);
    } else {
      assert !Rebases()(e);
    }
  }

  lemma {:induction false} SummaryRecorded(log: seq<Committed>)
    ensures FoldReplay(GENESIS, log).context.currentSummaryId == CurrentSummary(log)
  {
    if log != [] {
      var front, e := log[..|log| - 1], log[|log| - 1];
      SummaryRecorded(front);
      SummaryStep(front, e, FoldReplay(GENESIS, front).context);
      assert log == front + [e];
    }
  }

  /** The version is that of the last projection or rebase, 0 before any. */
  function VersionIn(log: seq<Committed>): nat {
    var last := Latest(log, SetsContext());
    if last.None? then 0 else last.value.event.payload.contextVersion
  }

  lemma {:induction false} VersionStep(log: seq<Committed>, e: Committed, context: ContextRecord)
    requires context.version == VersionIn(log)
    ensures ApplyContext(context, e).version == VersionIn(log + [e])
  {
    LatestSnoc(log, e, SetsContext());
  }

  lemma {:induction false} VersionRecorded(log: seq<Committed>)
    ensures FoldReplay(GENESIS, log).context.version == VersionIn(log)
  {
    if log != [] {
      var front, e := log[..|log| - 1], log[|log| - 1];
      VersionRecorded(front);
      VersionStep(front, e, FoldReplay(GENESIS, front).context);
      assert log == front + [e];
    }
  }

  function NamesModel(): Committed -> bool {
    (e: Committed) => e.event.payload.RunStarted? || e.event.payload.SessionConfigured?
  }

  /** The first model configured or run with. */
  function ModelIn(log: seq<Committed>): Option<Json> {
    var first := Earliest(log, NamesModel());
    if first.None? then None
    else if first.value.event.payload.RunStarted? then Some(first.value.event.payload.runModel)
    else Some(first.value.event.payload.model)
  }

  lemma {:induction false} ModelStep(log: seq<Committed>, e: Committed, model: Option<Json>)
    requires model == ModelIn(log)
    ensures ApplyModel(model, e) == ModelIn(log + [e])
  {
    Snoc(log, e, NamesModel());
  }

  lemma {:induction false} ModelRecorded(log: seq<Committed>)
    ensures FoldReplay(GENESIS, log).model == ModelIn(log)
  {
    if log != [] {
      var front, e := log[..|log| - 1], log[|log| - 1];
      ModelRecorded(front);
      ModelStep(front, e, FoldReplay(GENESIS, front).model);
      assert log == front + [e];
    }
  }

  // ---------------------------------------------------------------------------
  // The open request
  // ---------------------------------------------------------------------------

  function RequestsRun(): Committed -> bool {
    (e: Committed) => e.event.payload.RunSchedulingRequested?
  }

  function Delivers(id: RequestId): Committed -> bool {
    (e: Committed) => e.event.payload == RunSchedulingDelivered(id)
  }

  function ClosesRequest(id: RequestId): Committed -> bool {
    (e: Committed) =>
      || (e.event.payload.RunSchedulingInvalidated? && e.event.payload.requestId == id)
      || (e.event.payload.RunSchedulingGranted? && e.event.payload.requestId == id)
  }

  function RequestFrom(asked: Option<Committed>, closed: Option<Committed>, delivered: Option<Committed>)
    : Option<RequestRecord>
    requires asked.Some? ==> asked.value.event.payload.RunSchedulingRequested?
  {
    if asked.None? || closed.Some? then None
    else
      var p := asked.value.event.payload;
      Some(RequestRecord(p.requestId, p.work, asked.value.at, AtOf(delivered)))
  }

  /** The last request, unless it was closed since; delivered at its last delivery. */
  function RequestIn(log: seq<Committed>): Option<RequestRecord> {
    var asked, since := Latest(log, RequestsRun()), AfterLatest(log, RequestsRun());
    if asked.None? then None
    else
      var id := asked.value.event.payload.requestId;
      RequestFrom(asked, Latest(since, ClosesRequest(id)), Latest(since, Delivers(id)))
  }

  lemma {:induction false} RequestMoved(
      asked: Committed, closed: Option<Committed>, delivered: Option<Committed>, e: Committed)
    requires asked.event.payload.RunSchedulingRequested?
    requires !e.event.payload.RunSchedulingRequested?
    ensures var id := asked.event.payload.requestId;
            ApplyRequest(RequestFrom(Some(asked), closed, delivered), e)
            == RequestFrom(Some(asked), if ClosesRequest(id)(e) then Some(e) else closed,
                           if Delivers(id)(e) then Some(e) else delivered)
  {
  }

  lemma {:induction false} RequestStep(log: seq<Committed>, e: Committed, request: Option<RequestRecord>)
    requires request == RequestIn(log)
    ensures ApplyRequest(request, e) == RequestIn(log + [e])
  {
    AfterSnoc(log, e, RequestsRun());
    var asked, since := Latest(log, RequestsRun()), AfterLatest(log, RequestsRun());
    if asked.Some? && !e.event.payload.RunSchedulingRequested? {
      var id := asked.value.event.payload.requestId;
      LatestSnoc(since, e, ClosesRequest(id));
      LatestSnoc(since, e, Delivers(id));
      RequestMoved(asked.value, Latest(since, ClosesRequest(id)), Latest(since, Delivers(id)), e);
    }
  }

  lemma {:induction false} RequestRecorded(log: seq<Committed>)
    ensures FoldReplay(GENESIS, log).request == RequestIn(log)
  {
    if log != [] {
      var front, e := log[..|log| - 1], log[|log| - 1];
      RequestRecorded(front);
      RequestStep(front, e, FoldReplay(GENESIS, front).request);
      assert log == front + [e];
    }
  }

  // ---------------------------------------------------------------------------
  // Recoveries
  // ---------------------------------------------------------------------------

  function ContinuesAs(id: RunId): Committed -> bool {
    (e: Committed) =>
      && e.event.payload.RecoveryCompleted? && e.event.payload.continuation.Some?
      && e.event.payload.continuation.value.replacementRunId == id
  }

  /** The last continuation into the run. */
  function RecoveryIn(events: seq<Committed>, id: RunId): Option<ContinuationRecord> {
    var last := Latest(events, ContinuesAs(id));
    if last.None? then None else Some(ContinuationRecord(last.value.event.payload.continuation.value, last.value.at))
  }

  /** A rebase drops the continuation into a run of which no start counts after it. */
  function RecoveryDrops(id: RunId): Drops {
    (log: seq<Committed>, events: seq<Committed>, e: Committed) =>
      && e.event.payload.ContextRebased?
      && Latest(After(RunDrops(id), log, Counting(log, RunDrops(id)), e), StartsRun(id)).None?
  }

  function NextRecovery(before: Option<ContinuationRecord>, run: Option<RunRecord>, e: Committed, id: RunId)
    : Option<ContinuationRecord>
  {
    if ContinuesAs(id)(e) then Some(ContinuationRecord(e.event.payload.continuation.value, e.at))
    else if e.event.payload.ContextRebased? && run.None? then None
    else before
  }

  lemma {:induction false} RecoveryAt(m: Recoveries, runs: Runs, e: Committed, id: RunId)
    ensures ApplyRecoveries(m, runs, e).Get(id) == NextRecovery(m.Get(id), ApplyRuns(runs, e).Get(id), e, id)
  {
  }

  lemma {:induction false} RecoveryStep(log: seq<Committed>, e: Committed, id: RunId, run: Option<RunRecord>)
    requires run.None? <==> Latest(After(RunDrops(id), log, Counting(log, RunDrops(id)), e), StartsRun(id)).None?
    ensures RecoveryIn(Counting(log + [e], RecoveryDrops(id)), id)
            == NextRecovery(RecoveryIn(Counting(log, RecoveryDrops(id)), id), run, e, id)
  {
    CountingSnoc(log, e, RecoveryDrops(id));
    LatestSnoc(Counting(log, RecoveryDrops(id)), e, ContinuesAs(id));
  }

  lemma {:induction false} RecoveryNext(log: seq<Committed>, e: Committed, id: RunId, m: Recoveries, runs: Runs)
    requires m.Get(id) == RecoveryIn(Counting(log, RecoveryDrops(id)), id)
    requires runs.Get(id) == RunIn(Counting(log, RunDrops(id)), id)
    ensures ApplyRecoveries(m, runs, e).Get(id) == RecoveryIn(Counting(log + [e], RecoveryDrops(id)), id)
  {
    RecoveryAt(m, runs, e, id);
    RunAt(runs, e, id);
    RunStep(log, Counting(log, RunDrops(id)), e, id);
    RecoveryStep(log, e, id, ApplyRuns(runs, e).Get(id));
  }

  lemma {:induction false} RecoveryLast(log: seq<Committed>, e: Committed, id: RunId, before: Replay)
    requires before == FoldReplay(GENESIS, log)
    requires before.recoveries.Get(id) == RecoveryIn(Counting(log, RecoveryDrops(id)), id)
    ensures Apply(before, e).recoveries.Get(id) == RecoveryIn(Counting(log + [e], RecoveryDrops(id)), id)
  {
    RunsRecorded(log, id);
    RecoveryNext(log, e, id, before.recoveries, before.runs);
  }

  lemma {:induction false} RecoveriesRecorded(log: seq<Committed>, id: RunId)
    ensures FoldReplay(GENESIS, log).recoveries.Get(id) == RecoveryIn(Counting(log, RecoveryDrops(id)), id)
  {
    if log != [] {
      var front, e := log[..|log| - 1], log[|log| - 1];
      RecoveriesRecorded(front, id);
      RecoveryLast(front, e, id, FoldReplay(GENESIS, front));
      assert log == front + [e];
    }
  }

  // ---------------------------------------------------------------------------
  // Compactions
  // ---------------------------------------------------------------------------

  function RequestsCompaction(id: CompactionId): Committed -> bool {
    (e: Committed) => e.event.payload.CompactionRequested? && e.event.payload.compactionId == id
  }

  function StartsCompaction(id: CompactionId): Committed -> bool {
    (e: Committed) => e.event.payload == CompactionStarted(id)
  }

  function Summarizes(id: CompactionId): Committed -> bool {
    (e: Committed) => e.event.payload.SummaryCreated? && e.event.payload.compactionId == id
  }

  /** The events that say what the compaction covers. */
  function Covers(id: CompactionId): Committed -> bool {
    (e: Committed) =>
      (e.event.payload.CompactionRequested? || e.event.payload.SummaryCreated?) && e.event.payload.compactionId == id
  }

  /** The events that name the summary of the compaction. */
  function NamesSummary(id: CompactionId): Committed -> bool {
    (e: Committed) =>
      (e.event.payload.SummaryCreated? || e.event.payload.ContextRebased?) && e.event.payload.compactionId == id
  }

  function RebasesBy(id: CompactionId): Committed -> bool {
    (e: Committed) => e.event.payload.ContextRebased? && e.event.payload.compactionId == id
  }

  function EndsCompaction(id: CompactionId): Committed -> bool {
    (e: Committed) =>
      (e.event.payload.CompactionCompleted? || e.event.payload.CompactionFailed?) && e.event.payload.compactionId == id
  }

  predicate IsOf(id: CompactionId, p: Payload) {
    match p
    case CompactionRequested(other, _, _) => other == id
    case CompactionStarted(other) => other == id
    case SummaryCreated(other, _, _, _, _) => other == id
    case ContextRebased(other, _, _, _) => other == id
    case CompactionCompleted(other, _, _) => other == id
    case CompactionFailed(other, _, _, _) => other == id
    case _ => false
  }

  function OfCompaction(id: CompactionId): Committed -> bool {
    (e: Committed) => IsOf(id, e.event.payload)
  }

  function SourceOf(covered: Option<Committed>): (Option<Seq>, Option<Seq>) {
    if covered.None? then (None, None)
    else
      match covered.value.event.payload
      case CompactionRequested(_, from, to) => (Some(from), Some(to))
      case SummaryCreated(_, _, from, to, _) => (Some(from), Some(to))
      case _ => (None, None)
  }

  function VersionOf(rebased: Option<Committed>): Option<nat> {
    if rebased.Some? && rebased.value.event.payload.ContextRebased?
    then Some(rebased.value.event.payload.contextVersion) else None
  }

  function EndOfCompaction(ended: Option<Committed>): Option<Terminal> {
    if ended.None? then None
    else
      var p := ended.value.event.payload;
      Some(Terminal(ended.value.at, if p.CompactionFailed? then Failed(p.failure) else Completed(None)))
  }

  /** The record of a compaction with the last event of each stage. */
  function CompactionFrom(id: CompactionId, requested: Option<Committed>, started: Option<Committed>,
                          summarized: Option<Committed>, covered: Option<Committed>, named: Option<Committed>,
                          rebased: Option<Committed>, ended: Option<Committed>): CompactionRecord
  {
    CompactionRecord(id, AtOf(requested), AtOf(started), AtOf(summarized), SummaryOf(named), SourceOf(covered).0,
                     SourceOf(covered).1, AtOf(rebased), VersionOf(rebased), EndOfCompaction(ended))
  }

  function CompactionIn(events: seq<Committed>, id: CompactionId): Option<CompactionRecord> {
    if Latest(events, OfCompaction(id)).None? then None
    else
      Some(CompactionFrom(
             id, Latest(events, RequestsCompaction(id)), Latest(events, StartsCompaction(id)),
             Latest(events, Summarizes(id)), Latest(events, Covers(id)), Latest(events, NamesSummary(id)),
             Latest(events, RebasesBy(id)), Latest(events, EndsCompaction(id))))
  }

  /**
   * Another compaction's rebase drops it once ended, unless to its summary; its failure does, unless
   * that is current.
   */
  function CompactionDrops(id: CompactionId): Drops {
    (log: seq<Committed>, events: seq<Committed>, e: Committed) =>
      var summary := SummaryOf(Latest(events, NamesSummary(id)));
      if e.event.payload.ContextRebased? then
        && e.event.payload.compactionId != id
        && Latest(events, EndsCompaction(id)).Some?
        && summary != Some(e.event.payload.summaryId)
      else
        && e.event.payload.CompactionFailed? && e.event.payload.compactionId == id
        && (summary.None? || summary != CurrentSummary(log))
  }

  /** What an event of the compaction itself makes of its record. */
  function NextOwn(known: CompactionRecord, e: Committed): CompactionRecord {
    match e.event.payload
    case CompactionRequested(_, from, to) =>
      known.(requestedSeq := Some(e.at), sourceFromSeq := Some(from), sourceToSeq := Some(to))
    case CompactionStarted(_) => known.(startedSeq := Some(e.at))
    case SummaryCreated(_, summaryId, from, to, _) =>
      known.(summaryCreatedSeq := Some(e.at), summaryId := Some(summaryId),
             sourceFromSeq := Some(from), sourceToSeq := Some(to))
    case ContextRebased(_, summaryId, version, _) =>
      known.(rebasedSeq := Some(e.at), summaryId := Some(summaryId), contextVersion := Some(version))
    case CompactionCompleted(_, _, _) => known.(terminal := Some(Terminal(e.at, Completed(None))))
    case CompactionFailed(_, failure, _, _) => known.(terminal := Some(Terminal(e.at, Failed(failure))))
    case _ => known
  }

  function NextCompaction(c: Option<CompactionRecord>, current: Option<SummaryId>, e: Committed, id: CompactionId)
    : Option<CompactionRecord>
  {
    var p := e.event.payload;
    if OfCompaction(id)(e) then
      var known := if c.Some? then c.value
                   else CompactionRecord(id, None, None, None, None, None, None, None, None, None);
      if p.CompactionFailed? && (known.summaryId.None? || known.summaryId != current) then None
      else Some(NextOwn(known, e))
    else if p.ContextRebased? && c.Some? && c.value.terminal.Some? && c.value.summaryId != Some(p.summaryId) then None
    else c
  }

  lemma {:induction false} CompactionAt(m: Compactions, context: ContextRecord, e: Committed, id: CompactionId)
    ensures ApplyCompactions(m, context, e).Get(id) == NextCompaction(m.Get(id), context.currentSummaryId, e, id)
  {
  }

  lemma {:induction false} CompactionSnocs(events: seq<Committed>, e: Committed, id: CompactionId)
    ensures Latest(events + [e], OfCompaction(id)) ==
            if OfCompaction(id)(e) then Some(e) else Latest(events, OfCompaction(id))
    ensures Latest(events + [e], RequestsCompaction(id)) ==
            if RequestsCompaction(id)(e) then Some(e) else Latest(events, RequestsCompaction(id))
    ensures Latest(events + [e], StartsCompaction(id)) ==
            if StartsCompaction(id)(e) then Some(e) else Latest(events, StartsCompaction(id))
    ensures Latest(events + [e], Summarizes(id)) ==
            if Summarizes(id)(e) then Some(e) else Latest(events, Summarizes(id))
    ensures Latest(events + [e], Covers(id)) == if Covers(id)(e) then Some(e) else Latest(events, Covers(id))
    ensures Latest(events + [e], NamesSummary(id)) ==
            if NamesSummary(id)(e) then Some(e) else Latest(events, NamesSummary(id))
    ensures Latest(events + [e], RebasesBy(id)) == if RebasesBy(id)(e) then Some(e) else Latest(events, RebasesBy(id))
    ensures Latest(events + [e], EndsCompaction(id)) ==
            if EndsCompaction(id)(e) then Some(e) else Latest(events, EndsCompaction(id))
  {
    LatestSnoc(events, e, OfCompaction(id));
    LatestSnoc(events, e, RequestsCompaction(id));
    LatestSnoc(events, e, StartsCompaction(id));
    LatestSnoc(events, e, Summarizes(id));
    LatestSnoc(events, e, Covers(id));
    LatestSnoc(events, e, NamesSummary(id));
    LatestSnoc(events, e, RebasesBy(id));
    LatestSnoc(events, e, EndsCompaction(id));
  }

  /** Stages are events of the compaction. */
  lemma {:induction false} NoStages(events: seq<Committed>, id: CompactionId)
    requires Latest(events, OfCompaction(id)).None?
    ensures Latest(events, RequestsCompaction(id)).None? && Latest(events, StartsCompaction(id)).None?
    ensures Latest(events, Summarizes(id)).None? && Latest(events, Covers(id)).None?
    ensures Latest(events, NamesSummary(id)).None? && Latest(events, RebasesBy(id)).None?
    ensures Latest(events, EndsCompaction(id)).None?
  {
    forall e | e in events
      ensures !Covers(id)(e) && !StartsCompaction(id)(e) && !NamesSummary(id)(e) && !EndsCompaction(id)(e)
      ensures !RequestsCompaction(id)(e) && !Summarizes(id)(e) && !RebasesBy(id)(e)
    {
      assert !OfCompaction(id)(e);
    }
  }

  lemma {:induction false} StageAdded(
      id: CompactionId, requested: Option<Committed>, started: Option<Committed>, summarized: Option<Committed>,
      covered: Option<Committed>, named: Option<Committed>, rebased: Option<Committed>, ended: Option<Committed>,
      e: Committed)
    requires OfCompaction(id)(e)
    ensures NextOwn(CompactionFrom(id, requested, started, summarized, covered, named, rebased, ended), e)
            == CompactionFrom(id, if RequestsCompaction(id)(e) then Some(e) else requested,
                              if StartsCompaction(id)(e) then Some(e) else started,
                              if Summarizes(id)(e) then Some(e) else summarized,
                              if Covers(id)(e) then Some(e) else covered,
                              if NamesSummary(id)(e) then Some(e) else named,
                              if RebasesBy(id)(e) then Some(e) else rebased,
                              if EndsCompaction(id)(e) then Some(e) else ended)
  {
  }

  lemma {:induction false} CompactionAdded(events: seq<Committed>, e: Committed, id: CompactionId)
    requires OfCompaction(id)(e)
    ensures CompactionIn(events + [e], id) ==
            Some(NextOwn(if CompactionIn(events, id).Some? then CompactionIn(events, id).value
                         else CompactionRecord(id, None, None, None, None, None, None, None, None, None), e))
  {
    CompactionSnocs(events, e, id);
    if Latest(events, OfCompaction(id)).None? {
      NoStages(events, id);
    }
    StageAdded(id, Latest(events, RequestsCompaction(id)), Latest(events, StartsCompaction(id)),
               Latest(events, Summarizes(id)), Latest(events, Covers(id)), Latest(events, NamesSummary(id)),
               Latest(events, RebasesBy(id)), Latest(events, EndsCompaction(id)), e);
  }

  lemma {:induction false} NoStage(e: Committed, id: CompactionId)
    requires !OfCompaction(id)(e)
    ensures !Covers(id)(e) && !StartsCompaction(id)(e) && !NamesSummary(id)(e) && !EndsCompaction(id)(e)
    ensures !RequestsCompaction(id)(e) && !Summarizes(id)(e) && !RebasesBy(id)(e)
  {
  }

  lemma {:induction false} CompactionOther(events: seq<Committed>, e: Committed, id: CompactionId)
    requires !OfCompaction(id)(e)
    ensures CompactionIn(events + [e], id) == CompactionIn(events, id)
  {
    CompactionSnocs(events, e, id);
    NoStage(e, id);
  }

  lemma {:induction false} CompactionStages(events: seq<Committed>, id: CompactionId)
    ensures CompactionIn(events, id).Some? ==>
              && CompactionIn(events, id).value.summaryId == SummaryOf(Latest(events, NamesSummary(id)))
              && (CompactionIn(events, id).value.terminal.Some? <==> Latest(events, EndsCompaction(id)).Some?)
    ensures CompactionIn(events, id).None? ==>
              Latest(events, NamesSummary(id)).None? && Latest(events, EndsCompaction(id)).None?
    ensures CompactionIn([], id) == None
  {
    if Latest(events, OfCompaction(id)).None? {
      NoStages(events, id);
    }
  }

  lemma {:induction false} CompactionDropped(
      log: seq<Committed>, events: seq<Committed>, e: Committed, id: CompactionId)
    requires CompactionDrops(id)(log, events, e)
    ensures NextCompaction(CompactionIn(events, id), CurrentSummary(log), e, id) == None
  {
    CompactionStages(events, id);
  }

  lemma {:induction false} CompactionKept(log: seq<Committed>, events: seq<Committed>, e: Committed, id: CompactionId)
    requires !CompactionDrops(id)(log, events, e)
    ensures NextCompaction(CompactionIn(events, id), CurrentSummary(log), e, id) == CompactionIn(events + [e], id)
  {
    if OfCompaction(id)(e) {
      OwnKept(log, events, e, id);
    } else {
      CompactionStages(events, id);
      CompactionOther(events, e, id);
    }
  }

  lemma {:induction false} OwnKept(log: seq<Committed>, events: seq<Committed>, e: Committed, id: CompactionId)
    requires !CompactionDrops(id)(log, events, e) && OfCompaction(id)(e)
    ensures NextCompaction(CompactionIn(events, id), CurrentSummary(log), e, id) == CompactionIn(events + [e], id)
  {
    CompactionStages(events, id);
    CompactionAdded(events, e, id);
  }

  lemma {:induction false} CompactionStep(log: seq<Committed>, events: seq<Committed>, e: Committed, id: CompactionId)
    ensures CompactionIn(After(CompactionDrops(id), log, events, e), id)
            == NextCompaction(CompactionIn(events, id), CurrentSummary(log), e, id)
  {
    if CompactionDrops(id)(log, events, e) {
      CompactionDropped(log, events, e, id);
      CompactionStages([], id);
    } else {
      CompactionKept(log, events, e, id);
    }
  }

  lemma {:induction false} CompactionsRecorded(log: seq<Committed>, id: CompactionId)
    ensures FoldReplay(GENESIS, log).compactions.Get(id) == CompactionIn(Counting(log, CompactionDrops(id)), id)
  {
    if log != [] {
      var front, e := log[..|log| - 1], log[|log| - 1];
      CompactionsRecorded(front, id);
      SummaryRecorded(front);
      CompactionStep(front, Counting(front, CompactionDrops(id)), e, id);
      CompactionAt(FoldReplay(GENESIS, front).compactions, FoldReplay(GENESIS, front).context, e, id);
    }
  }

  // ---------------------------------------------------------------------------
  // Usage
  // ---------------------------------------------------------------------------

  function ModelOfRun(log: seq<Committed>, id: RunId): Option<Json> {
    var run := RunIn(Counting(log, RunDrops(id)), id);
    if run.Some? then run.value.model else None
  }

  /** A recorded inference that did not complete before. */
  predicate FirstCompletion(log: seq<Committed>, id: InferenceId) {
    var inference := InferenceIn(Counting(log, InferenceDrops(id)), id);
    inference.Some? && !(inference.value.terminal.Some? && inference.value.terminal.value.outcome.Completed?)
  }

  /** A compaction that did not complete before, recorded or not. */
  predicate FirstCompactionEnd(log: seq<Committed>, id: CompactionId) {
    var compaction := CompactionIn(Counting(log, CompactionDrops(id)), id);
    compaction.None? || compaction.value.terminal.None? || !compaction.value.terminal.value.outcome.Completed?
  }

  /** The usage an event reports after the log, with the model that used it, when it counts. */
  function Usage(log: seq<Committed>, e: Committed): Option<(Json, nat)> {
    match e.event.payload
    case InferenceCompleted(runId, id, Some(used)) =>
      if FirstCompletion(log, id) && ModelOfRun(log, runId).Some?
      then Some((ModelOfRun(log, runId).value, used)) else None
    case CompactionCompleted(id, Some(model), Some(used)) =>
      if FirstCompactionEnd(log, id) then Some((model, used)) else None
    case CompactionFailed(_, _, Some(model), Some(used)) => Some((model, used))
    case _ => None
  }

  function Counted(usages: seq<nat>, used: Option<(Json, nat)>, model: Json): seq<nat> {
    if used.Some? && used.value.0 == model then usages + [used.value.1] else usages
  }

  /** The usages of a model, in order. */
  function UsagesOf(log: seq<Committed>, model: Json): seq<nat> {
    if log == [] then []
    else Counted(UsagesOf(log[..|log| - 1], model), Usage(log[..|log| - 1], log[|log| - 1]), model)
  }

  function Sum(xs: seq<nat>): nat {
    if xs == [] then 0 else Sum(xs[..|xs| - 1]) + xs[|xs| - 1]
  }

  /** The usage map with one more usage counted. */
  function Tokens(before: Option<nat>, used: Option<(Json, nat)>, model: Json): Option<nat> {
    if used.Some? && used.value.0 == model then Some((if before.Some? then before.value else 0) + used.value.1)
    else before
  }

  function UsageAfter(
      inference: Option<InferenceRecord>, run: Option<RunRecord>, compaction: Option<CompactionRecord>, e: Committed)
    : Option<(Json, nat)>
  {
    match e.event.payload
    case InferenceCompleted(_, _, Some(used)) =>
      if && inference.Some? && !CompletedAlready(inference.value.terminal)
         && run.Some? && run.value.model.Some?
      then Some((run.value.model.value, used)) else None
    case CompactionCompleted(_, Some(model), Some(used)) =>
      if compaction.Some? && CompletedAlready(compaction.value.terminal) then None else Some((model, used))
    case CompactionFailed(_, _, Some(model), Some(used)) => Some((model, used))
    case _ => None
  }

  lemma {:induction false} TokensAt(r: Replay, e: Committed, model: Json)
    ensures var p := e.event.payload;
            var used := UsageAfter(
              if p.InferenceCompleted? then r.inferences.Get(p.inferenceId) else None,
              if p.InferenceCompleted? then r.runs.Get(p.runId) else None,
              if p.CompactionCompleted? then r.compactions.Get(p.compactionId) else None, e);
            ApplyTokens(r, e).Get(model) == Tokens(r.tokens.Get(model), used, model)
  {
  }

  lemma {:induction false} UsageIs(
      log: seq<Committed>, e: Committed, inference: Option<InferenceRecord>, run: Option<RunRecord>,
      compaction: Option<CompactionRecord>)
    requires e.event.payload.InferenceCompleted? ==>
               && inference == InferenceIn(Counting(log, InferenceDrops(e.event.payload.inferenceId)),
                                           e.event.payload.inferenceId)
               && run == RunIn(Counting(log, RunDrops(e.event.payload.runId)), e.event.payload.runId)
    requires e.event.payload.CompactionCompleted? ==>
               compaction == CompactionIn(Counting(log, CompactionDrops(e.event.payload.compactionId)),
                                          e.event.payload.compactionId)
    ensures Usage(log, e) == UsageAfter(inference, run, compaction, e)
  {
  }

  lemma {:induction false} UsageCounted(log: seq<Committed>, e: Committed, model: Json)
    ensures ApplyTokens(FoldReplay(GENESIS, log), e).Get(model)
            == Tokens(FoldReplay(GENESIS, log).tokens.Get(model), Usage(log, e), model)
  {
    var r, p := FoldReplay(GENESIS, log), e.event.payload;
    TokensAt(r, e, model);
    var inference := if p.InferenceCompleted? then r.inferences.Get(p.inferenceId) else None;
    var run := if p.InferenceCompleted? then r.runs.Get(p.runId) else None;
    var compaction := if p.CompactionCompleted? then r.compactions.Get(p.compactionId) else None;
    if p.InferenceCompleted? {
      InferencesRecorded(log, p.inferenceId);
      RunsRecorded(log, p.runId);
    } else if p.CompactionCompleted? {
      CompactionsRecorded(log, p.compactionId);
    }
    UsageIs(log, e, inference, run, compaction);
  }

  lemma {:induction false} SumSnoc(xs: seq<nat>, x: nat)
    ensures Sum(xs + [x]) == Sum(xs) + x
  {
    assert (xs + [x])[..|xs|] == xs;
  }

  function Total(usages: seq<nat>): Option<nat> {
    if usages == [] then None else Some(Sum(usages))
  }

  lemma {:induction false} TotalStep(usages: seq<nat>, used: Option<(Json, nat)>, model: Json)
    ensures Total(Counted(usages, used, model)) == Tokens(Total(usages), used, model)
  {
    if used.Some? && used.value.0 == model {
      SumSnoc(usages, used.value.1);
    }
  }

  /** The usage of a model is the sum of what counted for it. */
  lemma {:induction false} TokensRecorded(log: seq<Committed>, model: Json)
    ensures FoldReplay(GENESIS, log).tokens.Get(model) == Total(UsagesOf(log, model))
  {
    if log != [] {
      var front, e := log[..|log| - 1], log[|log| - 1];
      TokensRecorded(front, model);
      UsageCounted(front, e, model);
      TotalStep(UsagesOf(front, model), Usage(front, e), model);
    }
  }
}
