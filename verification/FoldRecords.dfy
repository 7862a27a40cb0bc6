/** What the folded state of a log records, read off the log: every record, field by field, from its last events. */
module FoldRecords {
  import opened Collections
  import opened Events
  import opened Records
  import opened CommandQueues
  import opened ReducedState
  import opened LogQueries

  function AtOf(e: Option<Committed>): Option<Seq> {
    if e.Some? then Some(e.value.at) else None
  }

  function TimeOf(e: Option<Committed>): Option<int> {
    if e.Some? then Some(e.value.event.createdAtMs) else None
  }

  /** The time between two events, never negative. */
  function Between(start: Option<Committed>, end: Option<Committed>): Option<int> {
    if start.Some? && end.Some? then
      var ms := end.value.event.createdAtMs - start.value.event.createdAtMs;
      Some(if ms < 0 then 0 else ms)
    else None
  }

  /** The event is a rebase past the position of the other. */
  predicate RebasesPast(e: Committed, end: Option<Committed>) {
    e.event.payload.ContextRebased? && end.Some? && end.value.at < e.event.payload.retainedFromContextSeq
  }

  // ---------------------------------------------------------------------------
  // Commands
  // ---------------------------------------------------------------------------

  function Admits(id: CommandId): Committed -> bool {
    (e: Committed) => e.event.payload.CommandAdmitted? && e.event.payload.command.commandId == id
  }

  function StartsCommand(id: CommandId): Committed -> bool {
    (e: Committed) => e.event.payload == CommandStarted(id)
  }

  function ClosesCommand(id: CommandId): Committed -> bool {
    (e: Committed) => e.event.payload.CommandClosed? && e.event.payload.commandId == id
  }

  /** The record of a command: its last admission, its last start and its last close. */
  function CommandIn(events: seq<Committed>, id: CommandId): Option<CommandRecord> {
    var admitted, started := Latest(events, Admits(id)), Latest(events, StartsCommand(id));
    var closed := Latest(events, ClosesCommand(id));
    if admitted.None? && started.None? && closed.None? then None
    else
      Some(CommandRecord(
             id,
             if admitted.Some? then Some(admitted.value.event.payload.command) else None,
             AtOf(admitted),
             if admitted.Some? then Some(admitted.value.event.trace) else None,
             AtOf(started),
             if closed.Some? then Some(Terminal(closed.value.at, closed.value.event.payload.outcome)) else None))
  }

  /** A rebase past the last close drops the record. */
  function CommandDrops(id: CommandId): Drops {
    (log: seq<Committed>, events: seq<Committed>, e: Committed) => RebasesPast(e, Latest(events, ClosesCommand(id)))
  }

  function After(drops: Drops, log: seq<Committed>, events: seq<Committed>, e: Committed): seq<Committed> {
    if drops(log, events, e) then [] else events + [e]
  }

  /** What an event makes of the record, if it is there. */
  function NextCommand(c: Option<CommandRecord>, e: Committed, id: CommandId): Option<CommandRecord> {
    var known := if c.Some? then c.value else CommandRecord(id, None, None, None, None, None);
    var p := e.event.payload;
    if Admits(id)(e) then
      Some(known.(command := Some(p.command), admittedSeq := Some(e.at), admissionTrace := Some(e.event.trace)))
    else if StartsCommand(id)(e) then Some(known.(startedSeq := Some(e.at)))
    else if ClosesCommand(id)(e) then Some(known.(terminal := Some(Terminal(e.at, p.outcome))))
    else if && p.ContextRebased? && c.Some? && c.value.terminal.Some?
            && c.value.terminal.value.at < p.retainedFromContextSeq then None
    else c
  }

  lemma {:induction false} CommandAt(m: Commands, e: Committed, id: CommandId)
    ensures ApplyCommands(m, e).Get(id) == NextCommand(m.Get(id), e, id)
  {
  }

  lemma {:induction false} CommandAdded(events: seq<Committed>, e: Committed, id: CommandId)
    requires Admits(id)(e) || StartsCommand(id)(e) || ClosesCommand(id)(e)
    ensures CommandIn(events + [e], id) == NextCommand(CommandIn(events, id), e, id)
  {
    Snoc(events, e, Admits(id));
    Snoc(events, e, StartsCommand(id));
    Snoc(events, e, ClosesCommand(id));
  }

  lemma {:induction false} CommandStep(log: seq<Committed>, events: seq<Committed>, e: Committed, id: CommandId)
    ensures CommandIn(After(CommandDrops(id), log, events, e), id) == NextCommand(CommandIn(events, id), e, id)
  {
    if Admits(id)(e) || StartsCommand(id)(e) || ClosesCommand(id)(e) {
      CommandAdded(events, e, id);
    } else {
      Snoc(events, e, Admits(id));
      Snoc(events, e, StartsCommand(id));
      Snoc(events, e, ClosesCommand(id));
    }
  }

  lemma {:induction false} CommandsFolded(log: seq<Committed>, id: CommandId)
    ensures FoldCommands(Empty, log).Get(id) == CommandIn(Counting(log, CommandDrops(id)), id)
  {
    if log != [] {
      var front, e := log[..|log| - 1], log[|log| - 1];
      CommandsFolded(front, id);
      CommandStep(front, Counting(front, CommandDrops(id)), e, id);
      CommandAt(FoldCommands(Empty, front), e, id);
    }
  }

  lemma {:induction false} CommandsRecorded(log: seq<Committed>, id: CommandId)
    ensures FoldReplay(GENESIS, log).commands.Get(id) == CommandIn(Counting(log, CommandDrops(id)), id)
  {
    CommandsFolded(log, id);
    FoldByMap(GENESIS, log);
  }

  /** Before any rebase everything counts: the record names the last admission, start and close of the log. */
  lemma {:induction false} CommandsBeforeRebase(log: seq<Committed>, id: CommandId)
    requires forall e :: e in log ==> !e.event.payload.ContextRebased?
    ensures FoldReplay(GENESIS, log).commands.Get(id) == CommandIn(log, id)
  {
    CommandsRecorded(log, id);
    CountingAll(log, CommandDrops(id));
  }

  // ---------------------------------------------------------------------------
  // Runs, turns and inferences
  // ---------------------------------------------------------------------------

  /** Times since the last start: that start and the last close behind it. */
  function TimesIn(events: seq<Committed>, starts: Committed -> bool, closes: Committed -> bool): Timing {
    var start, end := Latest(events, starts), Latest(AfterLatest(events, starts), closes);
    Timing(TimeOf(start), TimeOf(end), Between(start, end))
  }

  /** The close that counts: the last one behind the first start. */
  function CloseIn(events: seq<Committed>, starts: Committed -> bool, closes: Committed -> bool): Option<Committed> {
    Latest(AfterEarliest(events, starts), closes)
  }

  /** A rebase past the close that counts drops the record. */
  function ClosedDrops(starts: Committed -> bool, closes: Committed -> bool): Drops {
    (log: seq<Committed>, events: seq<Committed>, e: Committed) => RebasesPast(e, CloseIn(events, starts, closes))
  }

  lemma {:induction false} CloseSnoc(
      events: seq<Committed>, e: Committed, starts: Committed -> bool, closes: Committed -> bool)
    ensures Latest(events + [e], starts) == if starts(e) then Some(e) else Latest(events, starts)
    ensures CloseIn(events + [e], starts, closes) ==
            if Latest(events, starts).Some? && closes(e) then Some(e) else CloseIn(events, starts, closes)
    ensures Latest(AfterLatest(events + [e], starts), closes) ==
            if starts(e) then None
            else if closes(e) then Some(e) else Latest(AfterLatest(events, starts), closes)
    ensures Latest(events, starts).None? ==> CloseIn(events, starts, closes).None?
  {
    Snoc(events, e, starts);
    Snoc(AfterEarliest(events, starts), e, closes);
    Snoc(AfterLatest(events, starts), e, closes);
    NothingAfter(events, starts);
  }

  lemma {:induction false} NothingAfter(events: seq<Committed>, starts: Committed -> bool)
    ensures Latest(events, starts).None? ==> AfterEarliest(events, starts) == []
  {
  }

  function StartsRun(id: RunId): Committed -> bool {
    (e: Committed) => e.event.payload.RunStarted? && e.event.payload.runId == id
  }

  function ClosesRun(id: RunId): Committed -> bool {
    (e: Committed) => e.event.payload.RunClosed? && e.event.payload.runId == id
  }

  function TerminalOf(close: Option<Committed>): Option<Terminal>
    requires close.Some? ==> close.value.event.payload.RunClosed? || close.value.event.payload.TurnClosed?
  {
    if close.Some? then Some(Terminal(close.value.at, close.value.event.payload.outcome)) else None
  }

  /** The record of a run: the data of its last start, and the last close behind its first one. */
  function RunIn(events: seq<Committed>, id: RunId): Option<RunRecord> {
    var start := Latest(events, StartsRun(id));
    if start.None? then None
    else
      var p := start.value.event.payload;
      Some(RunRecord(id, p.commandIds, start.value.at, TimesIn(events, StartsRun(id), ClosesRun(id)),
                     start.value.event.trace, Some(p.runModel),
                     TerminalOf(CloseIn(events, StartsRun(id), ClosesRun(id)))))
  }

  function RunDrops(id: RunId): Drops {
    ClosedDrops(StartsRun(id), ClosesRun(id))
  }

  function NextRun(r: Option<RunRecord>, e: Committed, id: RunId): Option<RunRecord> {
    var p, now := e.event.payload, e.event.createdAtMs;
    var terminal := if r.Some? then r.value.terminal else None;
    if StartsRun(id)(e) then
      var timing := Timing(Some(now), None, None);
      Some(RunRecord(id, p.commandIds, e.at, timing, e.event.trace, Some(p.runModel), terminal))
    else if ClosesRun(id)(e) then
      if r.None? then None
      else Some(r.value.(timing := Closed(r.value.timing, now), terminal := Some(Terminal(e.at, p.outcome))))
    else if p.ContextRebased? && terminal.Some? && terminal.value.at < p.retainedFromContextSeq then None
    else r
  }

  lemma {:induction false} RunAt(m: Runs, e: Committed, id: RunId)
    ensures ApplyRuns(m, e).Get(id) == NextRun(m.Get(id), e, id)
  {
  }

  lemma {:induction false} RunStep(log: seq<Committed>, events: seq<Committed>, e: Committed, id: RunId)
    ensures RunIn(After(RunDrops(id), log, events, e), id) == NextRun(RunIn(events, id), e, id)
  {
    CloseSnoc(events, e, StartsRun(id), ClosesRun(id));
    if ClosesRun(id)(e) {
      RunClosedBy(events, e, id);
    }
  }

  lemma {:induction false} RunClosedBy(events: seq<Committed>, e: Committed, id: RunId)
    requires ClosesRun(id)(e)
    ensures RunIn(events + [e], id) == NextRun(RunIn(events, id), e, id)
  {
    CloseSnoc(events, e, StartsRun(id), ClosesRun(id));
  }

  lemma {:induction false} RunsRecorded(log: seq<Committed>, id: RunId)
    ensures FoldReplay(GENESIS, log).runs.Get(id) == RunIn(Counting(log, RunDrops(id)), id)
  {
    if log != [] {
      var front, e := log[..|log| - 1], log[|log| - 1];
      RunsRecorded(front, id);
      RunStep(front, Counting(front, RunDrops(id)), e, id);
      RunAt(FoldReplay(GENESIS, front).runs, e, id);
    }
  }

  function StartsTurn(id: TurnId): Committed -> bool {
    (e: Committed) => e.event.payload.TurnStarted? && e.event.payload.turnId == id
  }

  function ClosesTurn(id: TurnId): Committed -> bool {
    (e: Committed) => e.event.payload.TurnClosed? && e.event.payload.turnId == id
  }

  function TurnIn(events: seq<Committed>, id: TurnId): Option<TurnRecord> {
    var start := Latest(events, StartsTurn(id));
    if start.None? then None
    else
      Some(TurnRecord(start.value.event.payload.runId, id, start.value.at,
                      TimesIn(events, StartsTurn(id), ClosesTurn(id)),
                      TerminalOf(CloseIn(events, StartsTurn(id), ClosesTurn(id)))))
  }

  function TurnDrops(id: TurnId): Drops {
    ClosedDrops(StartsTurn(id), ClosesTurn(id))
  }

  function NextTurn(r: Option<TurnRecord>, e: Committed, id: TurnId): Option<TurnRecord> {
    var p, now := e.event.payload, e.event.createdAtMs;
    var terminal := if r.Some? then r.value.terminal else None;
    if StartsTurn(id)(e) then Some(TurnRecord(p.runId, id, e.at, Timing(Some(now), None, None), terminal))
    else if ClosesTurn(id)(e) then
      if r.None? then None
      else Some(r.value.(timing := Closed(r.value.timing, now), terminal := Some(Terminal(e.at, p.outcome))))
    else if p.ContextRebased? && terminal.Some? && terminal.value.at < p.retainedFromContextSeq then None
    else r
  }

  lemma {:induction false} TurnAt(m: Turns, e: Committed, id: TurnId)
    ensures ApplyTurns(m, e).Get(id) == NextTurn(m.Get(id), e, id)
  {
  }

  lemma {:induction false} TurnStep(log: seq<Committed>, events: seq<Committed>, e: Committed, id: TurnId)
    ensures TurnIn(After(TurnDrops(id), log, events, e), id) == NextTurn(TurnIn(events, id), e, id)
  {
    CloseSnoc(events, e, StartsTurn(id), ClosesTurn(id));
    if ClosesTurn(id)(e) {
      TurnClosed(events, e, id);
    }
  }

  lemma {:induction false} TurnClosed(events: seq<Committed>, e: Committed, id: TurnId)
    requires ClosesTurn(id)(e)
    ensures TurnIn(events + [e], id) == NextTurn(TurnIn(events, id), e, id)
  {
    CloseSnoc(events, e, StartsTurn(id), ClosesTurn(id));
  }

  lemma {:induction false} TurnsRecorded(log: seq<Committed>, id: TurnId)
    ensures FoldReplay(GENESIS, log).turns.Get(id) == TurnIn(Counting(log, TurnDrops(id)), id)
  {
    if log != [] {
      var front, e := log[..|log| - 1], log[|log| - 1];
      TurnsRecorded(front, id);
      TurnStep(front, Counting(front, TurnDrops(id)), e, id);
      TurnAt(FoldReplay(GENESIS, front).turns, e, id);
    }
  }

  function StartsInference(id: InferenceId): Committed -> bool {
    (e: Committed) => e.event.payload.InferenceStarted? && e.event.payload.inferenceId == id
  }

  function ClosesInference(id: InferenceId): Committed -> bool {
    (e: Committed) =>
      (e.event.payload.InferenceCompleted? || e.event.payload.InferenceFailed?) && e.event.payload.inferenceId == id
  }

  function EndOfInference(e: Committed): Terminal {
    var p := e.event.payload;
    Terminal(e.at,
             if p.InferenceCompleted? then Completed(p.usage)
             else if p.InferenceFailed? then Failed(p.failure) else Completed(None))
  }

  function InferenceIn(events: seq<Committed>, id: InferenceId): Option<InferenceRecord> {
    var start := Latest(events, StartsInference(id));
    var close := CloseIn(events, StartsInference(id), ClosesInference(id));
    if start.None? then None
    else
      var p := start.value.event.payload;
      Some(InferenceRecord(
             p.runId, p.turnId, id, start.value.at, TimesIn(events, StartsInference(id), ClosesInference(id)),
             if close.Some? then Some(EndOfInference(close.value)) else None))
  }

  function InferenceDrops(id: InferenceId): Drops {
    ClosedDrops(StartsInference(id), ClosesInference(id))
  }

  function NextInference(r: Option<InferenceRecord>, e: Committed, id: InferenceId): Option<InferenceRecord> {
    var p, now := e.event.payload, e.event.createdAtMs;
    var terminal := if r.Some? then r.value.terminal else None;
    if StartsInference(id)(e) then
      Some(InferenceRecord(p.runId, p.turnId, id, e.at, Timing(Some(now), None, None), terminal))
    else if ClosesInference(id)(e) then
      if r.None? then None
      else Some(r.value.(timing := Closed(r.value.timing, now), terminal := Some(EndOfInference(e))))
    else if p.ContextRebased? && terminal.Some? && terminal.value.at < p.retainedFromContextSeq then None
    else r
  }

  lemma {:induction false} InferenceAt(m: Inferences, e: Committed, id: InferenceId)
    ensures ApplyInferences(m, e).Get(id) == NextInference(m.Get(id), e, id)
  {
  }

  lemma {:induction false} InferenceStep(log: seq<Committed>, events: seq<Committed>, e: Committed, id: InferenceId)
    ensures InferenceIn(After(InferenceDrops(id), log, events, e), id) == NextInference(InferenceIn(events, id), e, id)
  {
    CloseSnoc(events, e, StartsInference(id), ClosesInference(id));
    if ClosesInference(id)(e) {
      InferenceClosed(events, e, id);
    }
  }

  lemma {:induction false} InferenceClosed(events: seq<Committed>, e: Committed, id: InferenceId)
    requires ClosesInference(id)(e)
    ensures InferenceIn(events + [e], id) == NextInference(InferenceIn(events, id), e, id)
  {
    CloseSnoc(events, e, StartsInference(id), ClosesInference(id));
  }

  lemma {:induction false} InferencesRecorded(log: seq<Committed>, id: InferenceId)
    ensures FoldReplay(GENESIS, log).inferences.Get(id) == InferenceIn(Counting(log, InferenceDrops(id)), id)
  {
    if log != [] {
      var front, e := log[..|log| - 1], log[|log| - 1];
      InferencesRecorded(front, id);
      InferenceStep(front, Counting(front, InferenceDrops(id)), e, id);
      InferenceAt(FoldReplay(GENESIS, front).inferences, e, id);
    }
  }
}
