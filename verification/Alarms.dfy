/** One platform alarm shared by owners that each keep a durable wakeup, and the handler it fires. */
module Alarms {
  import opened Collections

  type Owner = string

  const RUNTIME: Owner := "runtime"
  const TRANSCRIPT: Owner := "transcript"

  predicate IsOwner(owner: Owner) {
    owner == RUNTIME || owner == TRANSCRIPT
  }

  datatype Wakeup = Wakeup(at: int, failures: nat)

  type Wakeups = OrderedMap<Owner, Wakeup>

  /** The earliest wakeup of any owner, known or not. */
  function Earliest(rows: OMap<Owner, Wakeup>): (r: Option<int>)
    ensures r.None? <==> rows.Empty?
    ensures r.Some? ==> forall w :: w in rows.Values() ==> r.value <= w.at
    ensures r.Some? ==> exists w :: w in rows.Values() && w.at == r.value
  {
    match rows
    case Empty => None
    case Entry(_, w, rest) =>
      assert forall v :: v in rows.Values() <==> v == w || v in rest.Values();
      var other := Earliest(rest);
      if other.Some? && other.value < w.at then other else Some(w.at)
  }

  function FailureCount(rows: Wakeups, owner: Owner): nat {
    if rows.Has(owner) then rows.Get(owner).value.failures else 0
  }

  /** The row an upsert without a failure count leaves: an existing count is kept. */
  function Rearmed(rows: Wakeups, owner: Owner, at: int): Wakeup {
    Wakeup(at, FailureCount(rows, owner))
  }

  predicate AtOrBefore(row: Option<Wakeup>, at: int) {
    row.Some? && row.value.at <= at
  }

  /** What an owner's own call, or the platform, does while other work is awaited. */
  datatype Happening =
    | Arm(owner: Owner, at: int)
    | Disarm(owner: Owner)
    | Ask(owner: Owner, at: int)
    | SyncGoesOn
    | SyncRefused

  predicate IsCall(h: Happening) {
    h.Arm? || h.Disarm? || h.Ask?
  }

  /** The rows after one happening. */
  function Applied(rows: Wakeups, h: Happening): Wakeups {
    match h
    case Arm(owner, at) => rows.Set(owner, Rearmed(rows, owner, at))
    case Disarm(owner) => rows.Delete(owner)
    case Ask(owner, at) => if AtOrBefore(rows.Get(owner), at) then rows else rows.Set(owner, Rearmed(rows, owner, at))
    case SyncGoesOn => rows
    case SyncRefused => rows
  }

  function Apply(rows: Wakeups, during: seq<Happening>): Wakeups {
    if during == [] then rows else Applied(Apply(rows, during[..|during| - 1]), during[|during| - 1])
  }

  /** The calls one owner made, in order. */
  function CallsOf(during: seq<Happening>, owner: Owner): seq<Happening> {
    if during == [] then []
    else
      var before, last := CallsOf(during[..|during| - 1], owner), during[|during| - 1];
      if IsCall(last) && last.owner == owner then before + [last] else before
  }

  function LastCall(during: seq<Happening>, owner: Owner): Option<Happening> {
    var calls := CallsOf(during, owner);
    if calls == [] then None else Some(calls[|calls| - 1])
  }

  /** The owner called, and its last call gave its wakeup up. */
  predicate Disarms(during: seq<Happening>, owner: Owner) {
    LastCall(during, owner) == Some(Disarm(owner))
  }

  predicate Silent(during: seq<Happening>, owner: Owner) {
    CallsOf(during, owner) == []
  }

  lemma {:induction false} ApplyConcat(rows: Wakeups, a: seq<Happening>, b: seq<Happening>)
    ensures Apply(rows, a + b) == Apply(Apply(rows, a), b)
  {
    if b == [] {
      assert a + b == a;
    } else {
      assert (a + b)[..|a + b| - 1] == a + b[..|b| - 1];
      ApplyConcat(rows, a, b[..|b| - 1]);
    }
  }

  lemma {:induction false} AppliedAt(rows: Wakeups, others: Wakeups, h: Happening, owner: Owner)
    requires rows.Get(owner) == others.Get(owner)
    ensures Applied(rows, h).Get(owner) == if IsCall(h) && h.owner == owner
            then Applied(others, h).Get(owner)
            else rows.Get(owner)
  {
  }

  /** Whatever happens meanwhile, an owner's wakeup is what its own calls make of it. */
  lemma {:induction false} OnlyOwnCallsCount(rows: Wakeups, others: Wakeups, during: seq<Happening>, owner: Owner)
    requires rows.Get(owner) == others.Get(owner)
    ensures Apply(rows, during).Get(owner) == Apply(others, CallsOf(during, owner)).Get(owner)
  {
    if during != [] {
      var front, last := during[..|during| - 1], during[|during| - 1];
      OnlyOwnCallsCount(rows, others, front, owner);
      AppliedAt(Apply(rows, front), Apply(others, CallsOf(front, owner)), last, owner);
      if IsCall(last) && last.owner == owner {
        var calls := CallsOf(front, owner) + [last];
        assert calls[..|calls| - 1] == CallsOf(front, owner);
      }
    }
  }

  /** A wakeup is gone after its owner's calls exactly when the last of them, or the lack of a row, says so. */
  lemma {:induction false} AbsentExactly(rows: Wakeups, during: seq<Happening>, owner: Owner)
    ensures !Apply(rows, during).Has(owner) <==> if Silent(during, owner)
            then !rows.Has(owner)
            else Disarms(during, owner)
    ensures LastCall(during, owner).Some? ==>
            IsCall(LastCall(during, owner).value)
            && LastCall(during, owner).value.owner == owner
    ensures LastCall(during, owner).Some? && LastCall(during, owner).value.Arm? ==>
              Apply(rows, during).Has(owner) && Apply(rows, during).Get(owner).value.at
                == LastCall(during, owner).value.at
    ensures Silent(during, owner) ==> Apply(rows, during).Get(owner) == rows.Get(owner)
  {
    if during != [] {
      AbsentExactly(rows, during[..|during| - 1], owner);
    }
  }

  predicate OnlyAsks(during: seq<Happening>, owner: Owner) {
    forall h :: h in CallsOf(during, owner) ==> h.Ask?
  }

  /** Requests alone never postpone a wakeup nor touch its failure count. */
  lemma {:induction false} AsksNeverPostpone(rows: Wakeups, during: seq<Happening>, owner: Owner)
    requires rows.Has(owner) && OnlyAsks(during, owner)
    ensures Apply(rows, during).Has(owner)
    ensures Apply(rows, during).Get(owner).value.at <= rows.Get(owner).value.at
    ensures Apply(rows, during).Get(owner).value.failures == rows.Get(owner).value.failures
  {
    if during != [] {
      var front, last := during[..|during| - 1], during[|during| - 1];
      if IsCall(last) && last.owner == owner {
        assert CallsOf(during, owner) == CallsOf(front, owner) + [last];
        assert last in CallsOf(during, owner);
      }
      assert forall h :: h in CallsOf(front, owner) ==> h in CallsOf(during, owner);
      AsksNeverPostpone(rows, front, owner);
    }
  }

  /** Owners an alarm fired for: every wakeup up to now, and the earliest whatever the time. */
  predicate IsDue(rows: Wakeups, now: int, owner: Owner) {
    && IsOwner(owner) && rows.Has(owner)
    && (rows.Get(owner).value.at <= now || Earliest(rows) == Some(rows.Get(owner).value.at))
  }

  function Pow2(n: nat): nat {
    if n == 0 then 1 else 2 * Pow2(n - 1)
  }

  const MAX_BUILDER_RETRY_DELAY_MS := 3_600_000

  /** Doubled for every consecutive failure after the first, up to a limit. */
  function RetryDelay(first: nat, consecutiveFailures: nat): nat
    requires consecutiveFailures > 0
  {
    var delay := first * Pow2(consecutiveFailures - 1);
    if delay < MAX_BUILDER_RETRY_DELAY_MS then delay else MAX_BUILDER_RETRY_DELAY_MS
  }

  /** Where the running sync is: it has read the earliest wakeup, and maybe found the alarm different. */
  datatype Phase = Resting | Deleting | Comparing(earliest: int) | Setting(earliest: int)

  class AlarmScheduler {
    var rows: Wakeups
    var platform: Option<int>
    /** Syncs queued behind the running one. */
    var queued: nat
    var phase: Phase
    /** Whether something changed that no queued sync will pick up. */
    ghost var unsynced: bool

    /**
     * Unless something is unsynced, a queued or running sync will leave the alarm at the earliest
     * wakeup, or it is there already.
     */
    ghost predicate Valid()
      reads this
    {
      unsynced || queued > 0 ||
      match phase
      case Resting => platform == Earliest(rows)
      case Deleting => Earliest(rows) == None
      case Comparing(at) => Earliest(rows) == Some(at)
      case Setting(at) => Earliest(rows) == Some(at)
    }

    /** The object starts, or starts again, over the wakeups it stored. */
    constructor (stored: Wakeups, armed: Option<int>)
      ensures Valid() && rows == stored && platform == armed && queued == 0 && phase == Resting
    {
      rows, platform, queued, phase := stored, armed, 0, Resting;
      unsynced := true;
    }

    // -------------------------------------------------------------------------
    // Wakeups
    // -------------------------------------------------------------------------

    method Write(owner: Owner, at: int)
      requires Valid()
      modifies `rows, `unsynced
      ensures Valid() && rows == old(rows).Set(owner, Rearmed(old(rows), owner, at))
    {
      rows := rows.Set(owner, Rearmed(rows, owner, at));
      unsynced := unsynced || queued == 0;
    }

    /** Record a wakeup with its failure count; the platform alarm is left alone. */
    method Retain(owner: Owner, at: int, failures: nat)
      requires Valid()
      modifies `rows, `unsynced
      ensures Valid() && rows == old(rows).Set(owner, Wakeup(at, failures))
    {
      rows := rows.Set(owner, Wakeup(at, failures));
      unsynced := unsynced || queued == 0;
    }

    function Failures(owner: Owner): nat
      reads this
    {
      FailureCount(rows, owner)
    }

    method Clear(owner: Owner)
      requires Valid()
      modifies `rows, `unsynced
      ensures Valid() && rows == old(rows).Delete(owner)
    {
      rows := rows.Delete(owner);
      unsynced := unsynced || queued == 0;
    }

    /** Remove a wakeup at or before the one its work was for; a later one stays. */
    method ClearThrough(owner: Owner, at: int)
      requires Valid()
      modifies `rows, `unsynced
      ensures Valid()
      ensures rows == if old(rows).Has(owner) && old(rows).Get(owner).value.at <= at
              then old(rows).Delete(owner)
              else old(rows)
    {
      if rows.Has(owner) && rows.Get(owner).value.at <= at {
        rows := rows.Delete(owner);
        unsynced := unsynced || queued == 0;
      }
    }

    /** Wake the owner no later than the given time; an earlier wakeup is kept. */
    method Request(owner: Owner, at: int)
      requires Valid()
      modifies this
      ensures Valid() && !unsynced && queued > 0
      ensures rows.Has(owner) && rows.Get(owner).value.at <= at
      ensures rows == if old(rows).Has(owner) && old(rows).Get(owner).value.at <= at then old(rows)
                      else old(rows).Set(owner, Rearmed(old(rows), owner, at))
    {
      if !(rows.Has(owner) && rows.Get(owner).value.at <= at) {
        Write(owner, at);
      }
      Sync();
    }

    method SetAlarm(owner: Owner, at: int)
      requires Valid()
      modifies this
      ensures Valid() && !unsynced && queued > 0
      ensures rows == old(rows).Set(owner, Rearmed(old(rows), owner, at))
    {
      Write(owner, at);
      Sync();
    }

    method DeleteAlarm(owner: Owner)
      requires Valid()
      modifies this
      ensures Valid() && !unsynced && queued > 0
      ensures rows == old(rows).Delete(owner)
    {
      Clear(owner);
      Sync();
    }

    /** Adopt an alarm no owner recorded as the runtime's. */
    method AdoptUnrecordedAlarm()
      requires Valid()
      modifies `rows, `unsynced
      ensures Valid()
      ensures rows == if old(rows).Empty? && platform.Some?
              then Empty.Set(RUNTIME, Wakeup(platform.value, 0))
              else old(rows)
    {
      if rows.Empty? && platform.Some? {
        Write(RUNTIME, platform.value);
      }
    }

    /** Visit the rows; the owners due, with the wakeup each held. */
    method Due(now: int) returns (due: OrderedMap<Owner, int>)
      ensures forall owner :: due.Get(owner) == if IsDue(rows, now, owner) then Some(rows.Get(owner).value.at) else None
    {
      due := Empty;
      var earliest := Earliest(rows);
      var visiting: OMap<Owner, Wakeup> := rows;
      ghost var visited: OMap<Owner, Wakeup> := Empty;
      while visiting.Entry?
        invariant rows == Concat(visited, visiting)
        invariant earliest == Earliest(rows)
        invariant forall owner :: due.Get(owner) ==
                    if visited.Has(owner) && IsDue(rows, now, owner) then Some(rows.Get(owner).value.at) else None
        decreases visiting
      {
        var owner, at := visiting.key, visiting.value.at;
        UniqueConcat(visited, visiting);
        ConcatSnoc(visited, visiting);
        FoundInConcat(visited, visiting);
        forall o ensures Concat(visited, Entry(owner, visiting.value, Empty)).Has(o) <==> visited.Has(o) || o == owner {
          HasConcat(visited, Entry(owner, visiting.value, Empty), o);
        }
        if IsOwner(owner) && (at <= now || earliest == Some(at)) {
          due := due.Set(owner, at);
        }
        visited := Concat(visited, Entry(owner, visiting.value, Empty));
        visiting := visiting.rest;
      }
      ConcatNil(visited);
    }

    // -------------------------------------------------------------------------
    // The platform alarm
    // -------------------------------------------------------------------------

    /** Queue a sync behind the running one. */
    method Sync()
      requires Valid()
      modifies `queued, `unsynced
      ensures Valid() && !unsynced && queued == old(queued) + 1
    {
      queued := queued + 1;
      unsynced := false;
    }

    /** The next queued sync reads the earliest wakeup, and so picks up everything written before. */
    method StartSync()
      requires Valid() && phase == Resting && queued > 0
      modifies `queued, `phase, `unsynced
      ensures Valid() && queued == old(queued) - 1 && !unsynced
    {
      queued := queued - 1;
      unsynced := false;
      var earliest := Earliest(rows);
      phase := if earliest.None? then Deleting else Comparing(earliest.value);
    }

    /** The platform answers the running sync: its read of the alarm, or its write. */
    method StepSync()
      requires Valid() && phase != Resting
      modifies `phase, `platform
      ensures Valid()
      ensures phase == Resting || (old(phase).Comparing? && phase == Setting(old(phase).earliest))
    {
      match phase {
        case Deleting =>
          platform, phase := None, Resting;
        case Comparing(at) =>
          phase := if platform == Some(at) then Resting else Setting(at);
        case Setting(at) =>
          platform, phase := Some(at), Resting;
      }
    }

    /** The platform refuses; the next queued sync goes on. */
    method FailSync()
      requires Valid() && phase != Resting
      modifies `phase, `unsynced
      ensures Valid() && phase == Resting && unsynced == (old(unsynced) || queued == 0)
    {
      phase := Resting;
      unsynced := unsynced || queued == 0;
    }

    /** The alarm fires and is gone from the platform; the handler or its retry takes over. */
    method Fire()
      requires Valid()
      modifies `platform, `unsynced
      ensures Valid() && platform == None
    {
      platform := None;
      unsynced := unsynced || queued == 0;
    }

    /**
     * Run the queued syncs to the end, nothing else happening; the platform may refuse some, counted from
     * the last one. When the last one goes through, the alarm is at the earliest wakeup.
     */
    method Drain(refuses: nat -> bool)
      requires Valid()
      modifies `queued, `phase, `platform, `unsynced
      ensures Valid() && queued == 0 && phase == Resting
      ensures !refuses(0) && (old(queued) > 0 || !old(unsynced)) ==> platform == Earliest(rows)
    {
      while queued > 0 || phase != Resting
        invariant Valid()
        invariant !refuses(0) && (old(queued) > 0 || !old(unsynced)) ==> queued > 0 || !unsynced
        decreases queued, match phase case Resting => 0 case Deleting => 1 case Comparing(_) => 2 case Setting(_) => 1
      {
        if phase == Resting {
          StartSync();
        } else if refuses(queued) {
          FailSync();
        } else {
          StepSync();
        }
      }
    }
  }

  lemma {:induction false} FoundInConcat(a: OMap<Owner, Wakeup>, b: OMap<Owner, Wakeup>)
    requires b.Entry? && !a.Has(b.key)
    ensures Concat(a, b).Get(b.key) == Some(b.value)
  {
    if a.Entry? {
      FoundInConcat(a.rest, b);
    }
  }

  // ---------------------------------------------------------------------------
  // The handler
  // ---------------------------------------------------------------------------

  /** What awaiting some work brings: what happens meanwhile, and how the work ends; the object may die instead. */
  datatype RuntimeWork =
    | RuntimeDone(during: seq<Happening>)
    | RuntimeFailed(during: seq<Happening>)
    | RuntimeDies(during: seq<Happening>)

  datatype BuilderWork =
    | BuilderMore(during: seq<Happening>)
    | BuilderDone(during: seq<Happening>)
    | BuilderFailed(during: seq<Happening>)
    | BuilderDies(during: seq<Happening>)

  datatype Participants = Participants(
    now: int,
    later: int,
    runtime: RuntimeWork,
    builder: Option<BuilderWork>,
    maxBuilderFailures: nat,
    builderRetryDelayMs: nat)

  datatype Outcome = Died | Rethrown | Synced

  /** The runtime runs for its own wakeup, and for an alarm nobody recorded. */
  predicate RuntimeRuns(rows: Wakeups, now: int) {
    IsDue(rows, now, RUNTIME) || !IsDue(rows, now, TRANSCRIPT)
  }

  function RuntimeThrough(rows: Wakeups, now: int): int {
    if IsDue(rows, now, RUNTIME) then rows.Get(RUNTIME).value.at else now
  }

  function ClearedThrough(rows: Wakeups, owner: Owner, at: int): Wakeups {
    if AtOrBefore(rows.Get(owner), at) then rows.Delete(owner) else rows
  }

  predicate DiesInRuntime(rows: Wakeups, p: Participants) {
    RuntimeRuns(rows, p.now) && p.runtime.RuntimeDies?
  }

  /** The handler reaches the builder's part. */
  predicate ReachesBuilder(rows: Wakeups, p: Participants) {
    IsDue(rows, p.now, TRANSCRIPT) && !DiesInRuntime(rows, p)
  }

  /** What happens while the runtime's work is awaited, if it runs. */
  function DuringRuntime(rows: Wakeups, p: Participants): seq<Happening> {
    if RuntimeRuns(rows, p.now) then p.runtime.during else []
  }

  function DuringBuilder(rows: Wakeups, p: Participants): seq<Happening> {
    if ReachesBuilder(rows, p) && p.builder.Some? then p.builder.value.during else []
  }

  /** The rows when the runtime's part of the handler is over. */
  function AfterRuntime(rows: Wakeups, p: Participants): Wakeups {
    var worked := Apply(rows, DuringRuntime(rows, p));
    if RuntimeRuns(rows, p.now) && p.runtime.RuntimeDone?
      then ClearedThrough(worked, RUNTIME, RuntimeThrough(rows, p.now)) else worked
  }

  /** What the builder's part makes of the rows its awaited work left. */
  function BuilderSettled(worked: Wakeups, dueAt: int, p: Participants): Wakeups {
    match p.builder
    case None => worked.Delete(TRANSCRIPT)
    case Some(BuilderMore(_)) => worked.Set(TRANSCRIPT, Wakeup(p.later, 0))
    case Some(BuilderDone(_)) => ClearedThrough(worked, TRANSCRIPT, dueAt)
    case Some(BuilderDies(_)) => worked
    case Some(BuilderFailed(_)) =>
      var failures := FailureCount(worked, TRANSCRIPT) + 1;
      if failures >= p.maxBuilderFailures then worked.Delete(TRANSCRIPT)
      else worked.Set(TRANSCRIPT, Wakeup(p.later + RetryDelay(p.builderRetryDelayMs, failures), failures))
  }

  /** The rows when the handler is over, or where the object died. */
  function AfterHandler(rows: Wakeups, p: Participants): Wakeups {
    if ReachesBuilder(rows, p)
    then BuilderSettled(Apply(AfterRuntime(rows, p), DuringBuilder(rows, p)), rows.Get(TRANSCRIPT).value.at, p)
    else AfterRuntime(rows, p)
  }

  /** Await some work: the owners' calls and the platform's answers meanwhile. */
  method Work(alarms: AlarmScheduler, during: seq<Happening>)
    requires alarms.Valid()
    modifies alarms
    ensures alarms.Valid() && alarms.rows == Apply(old(alarms.rows), during)
  {
    for i := 0 to |during|
      invariant alarms.Valid() && alarms.rows == Apply(old(alarms.rows), during[..i])
    {
      assert during[..i + 1][..i] == during[..i];
      match during[i] {
        case Arm(owner, at) => alarms.SetAlarm(owner, at);
        case Disarm(owner) => alarms.DeleteAlarm(owner);
        case Ask(owner, at) => alarms.Request(owner, at);
        case SyncGoesOn =>
          if alarms.phase != Resting {
            alarms.StepSync();
          } else if alarms.queued > 0 {
            alarms.StartSync();
          }
        case SyncRefused =>
          if alarms.phase != Resting {
            alarms.FailSync();
          }
      }
    }
    assert during[..|during|] == during;
  }

  method RunRuntimePart(
      alarms: AlarmScheduler, due: OrderedMap<Owner, int>, p: Participants) returns (died: bool, failed: bool)
    requires alarms.Valid()
    requires forall owner :: due.Get(owner) == if IsDue(alarms.rows, p.now, owner)
             then Some(alarms.rows.Get(owner).value.at) else None
    modifies alarms
    ensures alarms.Valid()
    ensures alarms.rows == AfterRuntime(old(alarms.rows), p)
    ensures died == DiesInRuntime(old(alarms.rows), p)
    ensures failed == (RuntimeRuns(old(alarms.rows), p.now) && p.runtime.RuntimeFailed?)
  {
    died, failed := false, false;
    if due.Has(RUNTIME) || due.Empty? {
      assert due.Empty? ==> forall owner :: due.Get(owner).None?;
      Work(alarms, p.runtime.during);
      match p.runtime {
        case RuntimeDone(_) =>
          alarms.ClearThrough(RUNTIME, if due.Has(RUNTIME) then due.Get(RUNTIME).value else p.now);
        case RuntimeFailed(_) => failed := true;
        case RuntimeDies(_) => died := true;
      }
    } else {
      OnlyKnownOwnersDue(due);
    }
  }

  lemma {:induction false} OnlyKnownOwnersDue(due: OrderedMap<Owner, int>)
    requires due.Entry? && !due.Has(RUNTIME) && forall owner :: due.Has(owner) ==> IsOwner(owner)
    ensures due.Has(TRANSCRIPT)
  {
    assert due.Has(due.key);
  }

  method RunBuilderPart(alarms: AlarmScheduler, dueAt: int, p: Participants) returns (died: bool)
    requires alarms.Valid()
    modifies alarms
    ensures alarms.Valid()
    ensures var during := if p.builder.Some? then p.builder.value.during else [];
            alarms.rows == BuilderSettled(Apply(old(alarms.rows), during), dueAt, p)
    ensures died == (p.builder.Some? && p.builder.value.BuilderDies?)
  {
    died := false;
    if p.builder.None? {
      alarms.Clear(TRANSCRIPT);
      return;
    }
    Work(alarms, p.builder.value.during);
    match p.builder.value {
      case BuilderMore(_) => alarms.Retain(TRANSCRIPT, p.later, 0);
      case BuilderDone(_) => alarms.ClearThrough(TRANSCRIPT, dueAt);
      case BuilderDies(_) => died := true;
      case BuilderFailed(_) =>
        var consecutiveFailures := alarms.Failures(TRANSCRIPT) + 1;
        if consecutiveFailures >= p.maxBuilderFailures {
          alarms.Clear(TRANSCRIPT);
        } else {
          alarms.Retain(TRANSCRIPT, p.later + RetryDelay(p.builderRetryDelayMs, consecutiveFailures),
            consecutiveFailures);
        }
    }
  }

  // ---------------------------------------------------------------------------
  // What the handler does to each wakeup
  // ---------------------------------------------------------------------------

  /** The runtime's wakeup when its work is over, as its own calls left it. */
  function RuntimeRow(rows: Wakeups, p: Participants): Option<Wakeup> {
    Apply(rows, CallsOf(p.runtime.during, RUNTIME)).Get(RUNTIME)
  }

  /** The runtime gave its wakeup up, or succeeded without re-arming it for later. */
  predicate RuntimeWakeupSpent(rows: Wakeups, p: Participants) {
    && RuntimeRuns(rows, p.now)
    && (|| Disarms(p.runtime.during, RUNTIME)
        || (p.runtime.RuntimeDone? && AtOrBefore(RuntimeRow(rows, p), RuntimeThrough(rows, p.now))))
  }

  /** The transcript's wakeup when all awaited work is over, as its own calls left it. */
  function TranscriptRow(rows: Wakeups, p: Participants): Option<Wakeup> {
    Apply(rows, CallsOf(DuringRuntime(rows, p) + DuringBuilder(rows, p), TRANSCRIPT)).Get(TRANSCRIPT)
  }

  /** The builder was disabled, reached its limit, or succeeded without being re-armed for later. */
  predicate TranscriptWakeupSpent(rows: Wakeups, p: Participants) {
    && ReachesBuilder(rows, p)
    && (match p.builder
        case None => true
        case Some(BuilderMore(_)) => false
        case Some(BuilderDone(_)) => AtOrBefore(TranscriptRow(rows, p), rows.Get(TRANSCRIPT).value.at)
        case Some(BuilderDies(_)) => false
        case Some(BuilderFailed(_)) =>
          (if TranscriptRow(rows, p).Some? then TranscriptRow(rows, p).value.failures else 0)
            + 1 >= p.maxBuilderFailures)
  }

  /** The handler writes the transcript's wakeup anew after the builder's work. */
  predicate BuilderRearms(rows: Wakeups, p: Participants) {
    ReachesBuilder(rows, p) && p.builder.Some? && (p.builder.value.BuilderMore? || p.builder.value.BuilderFailed?)
  }

  /** Which of the wakeups it found a handler, finished or dead, leaves no row for. */
  predicate WakeupGoes(rows: Wakeups, p: Participants, owner: Owner) {
    if owner == RUNTIME then
      if Silent(DuringBuilder(rows, p), RUNTIME) then RuntimeWakeupSpent(rows, p)
      else Disarms(DuringBuilder(rows, p), RUNTIME)
    else
      var during := DuringRuntime(rows, p) + DuringBuilder(rows, p);
      || (owner == TRANSCRIPT && TranscriptWakeupSpent(rows, p))
      || (Disarms(during, owner) && !(owner == TRANSCRIPT && BuilderRearms(rows, p)))
  }

  /** Between the handler's own writes, the rows are those of the calls made so far. */
  lemma {:induction false} AwaitedRow(rows: Wakeups, p: Participants, owner: Owner)
    requires owner != RUNTIME
    ensures Apply(AfterRuntime(rows, p), DuringBuilder(rows, p)).Get(owner) ==
            Apply(rows, CallsOf(DuringRuntime(rows, p) + DuringBuilder(rows, p), owner)).Get(owner)
  {
    var a, b := DuringRuntime(rows, p), DuringBuilder(rows, p);
    OnlyOwnCallsCount(AfterRuntime(rows, p), Apply(rows, a), b, owner);
    OnlyOwnCallsCount(Apply(rows, a), Apply(rows, a), b, owner);
    ApplyConcat(rows, a, b);
    OnlyOwnCallsCount(rows, rows, a + b, owner);
  }

  /** The builder's part writes no row but the transcript's. */
  lemma {:induction false} BuilderWritesItsOwn(rows: Wakeups, p: Participants, owner: Owner)
    requires owner != TRANSCRIPT
    ensures AfterHandler(rows, p).Get(owner) == Apply(AfterRuntime(rows, p), DuringBuilder(rows, p)).Get(owner)
  {
  }

  lemma {:induction false} RuntimeWakeupGoes(rows: Wakeups, p: Participants)
    requires rows.Has(RUNTIME)
    ensures !AfterHandler(rows, p).Has(RUNTIME) <==> WakeupGoes(rows, p, RUNTIME)
  {
    var a, b := DuringRuntime(rows, p), DuringBuilder(rows, p);
    BuilderWritesItsOwn(rows, p, RUNTIME);
    OnlyOwnCallsCount(rows, rows, a, RUNTIME);
    AbsentExactly(rows, a, RUNTIME);
    AbsentExactly(AfterRuntime(rows, p), b, RUNTIME);
  }

  lemma {:induction false} TranscriptWakeupGoes(rows: Wakeups, p: Participants)
    requires rows.Has(TRANSCRIPT)
    ensures !AfterHandler(rows, p).Has(TRANSCRIPT) <==> WakeupGoes(rows, p, TRANSCRIPT)
  {
    var a, b := DuringRuntime(rows, p), DuringBuilder(rows, p);
    AwaitedRow(rows, p, TRANSCRIPT);
    OnlyOwnCallsCount(rows, rows, a + b, TRANSCRIPT);
    AbsentExactly(rows, a + b, TRANSCRIPT);
  }

  /**
   * A wakeup is gone exactly when its owner's work succeeded without a later re-arm, the builder is
   * disabled or reached its limit, or the owner's own last call gave it up.
   */
  lemma {:induction false} WakeupGoesExactly(rows: Wakeups, p: Participants, owner: Owner)
    requires rows.Has(owner)
    ensures !AfterHandler(rows, p).Has(owner) <==> WakeupGoes(rows, p, owner)
  {
    var a, b := DuringRuntime(rows, p), DuringBuilder(rows, p);
    if owner == RUNTIME {
      RuntimeWakeupGoes(rows, p);
    } else if owner == TRANSCRIPT {
      TranscriptWakeupGoes(rows, p);
    } else {
      BuilderWritesItsOwn(rows, p, owner);
      AwaitedRow(rows, p, owner);
      OnlyOwnCallsCount(rows, rows, a + b, owner);
      AbsentExactly(rows, a + b, owner);
    }
  }

  /**
   * One platform alarm. The rows left are those of the owners' own calls and outcomes, so a wakeup
   * is gone exactly when `WakeupGoes` says, wherever the handler dies; a failed runtime rethrows
   * without syncing, so the platform's own retry applies.
   */
  method RunSessionAlarm(alarms: AlarmScheduler, p: Participants) returns (outcome: Outcome)
    requires alarms.Valid()
    modifies alarms
    ensures alarms.Valid()
    ensures alarms.rows == AfterHandler(old(alarms.rows), p)
    ensures forall owner :: old(alarms.rows).Has(owner) ==>
            (!alarms.rows.Has(owner) <==> WakeupGoes(old(alarms.rows), p, owner))
    ensures outcome ==
            if DiesInRuntime(old(alarms.rows), p) then Died
            else if ReachesBuilder(old(alarms.rows), p) && p.builder.Some? && p.builder.value.BuilderDies? then Died
            else if RuntimeRuns(old(alarms.rows), p.now) && p.runtime.RuntimeFailed? then Rethrown
            else Synced
    ensures outcome == Synced ==> !alarms.unsynced && alarms.queued > 0
  {
    ghost var rows := alarms.rows;
    forall owner | rows.Has(owner) ensures !AfterHandler(rows, p).Has(owner) <==> WakeupGoes(rows, p, owner) {
      WakeupGoesExactly(rows, p, owner);
    }
    var due := alarms.Due(p.now);
    var died, runtimeFailed := RunRuntimePart(alarms, due, p);
    if died {
      return Died;
    }
    if due.Has(TRANSCRIPT) {
      died := RunBuilderPart(alarms, due.Get(TRANSCRIPT).value, p);
      if died {
        return Died;
      }
    }
    if runtimeFailed {
      return Rethrown;
    }
    alarms.Sync();
    outcome := Synced;
  }

  /** Neither part changes another owner's wakeup: it is what that owner's own calls made of it. */
  lemma {:induction false} PartsLeaveOthers(rows: Wakeups, p: Participants, owner: Owner)
    ensures owner != RUNTIME ==>
              AfterRuntime(rows, p).Get(owner) == Apply(rows, CallsOf(DuringRuntime(rows, p), owner)).Get(owner)
    ensures owner != TRANSCRIPT ==>
              AfterHandler(rows, p).Get(owner)
                == Apply(AfterRuntime(rows, p), CallsOf(DuringBuilder(rows, p), owner)).Get(owner)
  {
    OnlyOwnCallsCount(rows, rows, DuringRuntime(rows, p), owner);
    if owner != TRANSCRIPT {
      BuilderWritesItsOwn(rows, p, owner);
    }
    OnlyOwnCallsCount(AfterRuntime(rows, p), AfterRuntime(rows, p), DuringBuilder(rows, p), owner);
  }

  /** A wakeup its runtime re-armed for later stays, however the handler goes on or ends. */
  lemma {:induction false} LaterRearmSurvives(rows: Wakeups, p: Participants, at: int)
    requires RuntimeRuns(rows, p.now) && at > RuntimeThrough(rows, p.now)
    requires LastCall(p.runtime.during, RUNTIME) == Some(Arm(RUNTIME, at))
    requires Silent(DuringBuilder(rows, p), RUNTIME)
    ensures AfterHandler(rows, p).Has(RUNTIME) && AfterHandler(rows, p).Get(RUNTIME).value.at == at
  {
    BuilderWritesItsOwn(rows, p, RUNTIME);
    AbsentExactly(rows, p.runtime.during, RUNTIME);
    AbsentExactly(AfterRuntime(rows, p), DuringBuilder(rows, p), RUNTIME);
  }

  /** The wait before the next try: the first delay, doubled for each failure after the first, an hour at most. */
  function DelayAfter(first: nat, failures: nat): nat {
    var delay := if failures <= 1 then first else 2 * DelayAfter(first, failures - 1);
    if delay < 3_600_000 then delay else 3_600_000
  }

  lemma {:induction false} DelayExactly(first: nat, failures: nat)
    requires failures > 0
    ensures RetryDelay(first, failures) == DelayAfter(first, failures)
  {
    if failures > 1 {
      DelayExactly(first, failures - 1);
      assert first * Pow2(failures - 1) == 2 * (first * Pow2(failures - 2));
    } else {
      assert Pow2(0) == 1;
    }
  }

  /** The runtime's wakeup after its work: what its own calls left, unless it succeeded and that is not later. */
  lemma {:induction false} RuntimeRowExactly(rows: Wakeups, p: Participants)
    ensures var row := RuntimeRow(rows, p);
            var through := if IsDue(rows, p.now, RUNTIME) then rows.Get(RUNTIME).value.at else p.now;
            AfterRuntime(rows, p).Get(RUNTIME) ==
            if !RuntimeRuns(rows, p.now) then rows.Get(RUNTIME)
            else if p.runtime.RuntimeDone? && row.Some? && row.value.at <= through then None else row
  {
    OnlyOwnCallsCount(rows, rows, DuringRuntime(rows, p), RUNTIME);
  }

  /**
   * The builder's wakeup after the handler: what its own calls left of it, but none for a builder that is disabled,
   * done with nothing later, or out of tries; at once when it has more to do, and after the delay when it failed.
   */
  lemma {:induction false} TranscriptRowExactly(rows: Wakeups, p: Participants)
    ensures var row := TranscriptRow(rows, p);
            var failures := (if row.Some? then row.value.failures else 0) + 1;
            AfterHandler(rows, p).Get(TRANSCRIPT) ==
            if !ReachesBuilder(rows, p) then row
            else
              match p.builder
              case None => None
              case Some(BuilderMore(_)) => Some(Wakeup(p.later, 0))
              case Some(BuilderDone(_)) =>
                if row.Some? && row.value.at <= rows.Get(TRANSCRIPT).value.at then None else row
              case Some(BuilderDies(_)) => row
              case Some(BuilderFailed(_)) =>
                if failures >= p.maxBuilderFailures then None
                else Some(Wakeup(p.later + DelayAfter(p.builderRetryDelayMs, failures), failures))
  {
    var row := TranscriptRow(rows, p);
    AwaitedRow(rows, p, TRANSCRIPT);
    DelayExactly(p.builderRetryDelayMs, (if row.Some? then row.value.failures else 0) + 1);
  }

  /** The owner's own work did not finish, so what it fired for is still to be done. */
  predicate Unfinished(rows: Wakeups, p: Participants, owner: Owner) {
    if owner == RUNTIME then !p.runtime.RuntimeDone?
    else DiesInRuntime(rows, p) || (p.builder.Some? && p.builder.value.BuilderDies?)
  }

  /** The wakeup of an owner whose work did not finish is what its own calls made of it. */
  lemma {:induction false} UnfinishedRow(rows: Wakeups, p: Participants, owner: Owner)
    requires IsDue(rows, p.now, owner) && Unfinished(rows, p, owner)
    ensures AfterHandler(rows, p).Get(owner) == Apply(rows, DuringRuntime(rows, p) + DuringBuilder(rows, p)).Get(owner)
  {
    var a, b := DuringRuntime(rows, p), DuringBuilder(rows, p);
    ApplyConcat(rows, a, b);
    if owner == TRANSCRIPT {
      AwaitedRow(rows, p, owner);
      OnlyOwnCallsCount(rows, rows, a + b, owner);
    } else {
      BuilderWritesItsOwn(rows, p, owner);
    }
  }

  /**
   * The platform's retry is for every owner whose work died, or whose runtime threw, if meanwhile it
   * only asked for wakeups.
   */
  lemma {:induction false} RetryIsAttributed(rows: Wakeups, p: Participants, owner: Owner, retry: int)
    requires IsDue(rows, p.now, owner) && rows.Get(owner).value.at <= retry
    requires Unfinished(rows, p, owner)
    requires OnlyAsks(DuringRuntime(rows, p) + DuringBuilder(rows, p), owner)
    ensures IsDue(AfterHandler(rows, p), retry, owner)
  {
    UnfinishedRow(rows, p, owner);
    AsksNeverPostpone(rows, DuringRuntime(rows, p) + DuringBuilder(rows, p), owner);
  }

  /** No retry, however late, is for such an owner exactly when its own last call gave its wakeup up. */
  lemma {:induction false} NeverRetriedExactly(rows: Wakeups, p: Participants, owner: Owner)
    requires IsDue(rows, p.now, owner) && Unfinished(rows, p, owner)
    ensures (forall retry :: !IsDue(AfterHandler(rows, p), retry, owner))
            <==> Disarms(DuringRuntime(rows, p) + DuringBuilder(rows, p), owner)
  {
    var after := AfterHandler(rows, p);
    UnfinishedRow(rows, p, owner);
    AbsentExactly(rows, DuringRuntime(rows, p) + DuringBuilder(rows, p), owner);
    if after.Has(owner) {
      assert IsDue(after, after.Get(owner).value.at, owner);
    }
  }

  // ---------------------------------------------------------------------------
  // The heartbeat as the runtime's work
  // ---------------------------------------------------------------------------

  /** An owner's view reports no alarm once its time has come. */
  function ViewAlarm(rows: Wakeups, owner: Owner, now: int): Option<int> {
    if rows.Has(owner) && rows.Get(owner).value.at > now then Some(rows.Get(owner).value.at) else None
  }

  /** The calls of the heartbeat's alarm handler through the runtime's view. */
  function HeartbeatCalls(rows: Wakeups, active: bool, now: int, intervalMs: nat): seq<Happening> {
    if !active then [Disarm(RUNTIME)]
    else
      var current := ViewAlarm(rows, RUNTIME, now);
      if current.None? || current.value > now + intervalMs then [Arm(RUNTIME, now + intervalMs)] else []
  }

  lemma {:induction false} OneCall(rows: Wakeups, h: Happening)
    ensures Apply(rows, [h]) == Applied(rows, h)
    ensures CallsOf([h], RUNTIME) == if IsCall(h) && h.owner == RUNTIME then [h] else []
  {
    assert [h][..0] == [];
  }

  /**
   * A heartbeat with work left stays armed after its successful alarm exactly when the alarm did not
   * come early: a wakeup still ahead looks armed to the heartbeat and is then cleared as served.
   */
  lemma {:induction false} ActiveHeartbeatStaysExactly(rows: Wakeups, p: Participants, intervalMs: nat, at: int)
    requires RuntimeRuns(rows, p.now) && p.now <= at && intervalMs > 0
    requires p.runtime == RuntimeDone(HeartbeatCalls(rows, true, at, intervalMs))
    requires Silent(DuringBuilder(rows, p), RUNTIME)
    ensures AfterHandler(rows, p).Has(RUNTIME) <==> (IsDue(rows, p.now, RUNTIME) ==> rows.Get(RUNTIME).value.at <= at)
    ensures AfterHandler(rows, p).Has(RUNTIME) ==> AfterHandler(rows, p).Get(RUNTIME).value.at > at
    ensures AfterHandler(rows, p).Has(RUNTIME) ==> AfterHandler(rows, p).Get(RUNTIME).value.at <= at + intervalMs
  {
    OneCall(rows, Arm(RUNTIME, at + intervalMs));
    BuilderWritesItsOwn(rows, p, RUNTIME);
    AbsentExactly(AfterRuntime(rows, p), DuringBuilder(rows, p), RUNTIME);
  }

  lemma {:induction false} SyncsChangeNothing(rows: Wakeups, during: seq<Happening>, h: Happening)
    requires !IsCall(h)
    ensures Apply(rows, during + [h]) == Apply(rows, during)
  {
    assert (during + [h])[..|during|] == during;
  }

  function TranscriptArmed(at: int): (r: Wakeups)
    ensures forall owner :: r.Get(owner) == if owner == TRANSCRIPT then Some(Wakeup(at, 0)) else None
    ensures Earliest(r) == Some(at)
  {
    var r: OMap<Owner, Wakeup> := Entry(TRANSCRIPT, Wakeup(at, 0), Empty);
    assert r.Unique() && Earliest(r) == Some(at);
    r
  }

  /** With the transcript's wakeup alone left, no later alarm is the runtime's. */
  lemma {:induction false} OnlyTheBuilderIsDue(now: int, at: int)
    ensures !RuntimeRuns(TranscriptArmed(at), now)
  {
  }

  lemma {:induction false} DeletedWhileAwaited(rows: Wakeups, p: Participants, during: seq<Happening>)
    requires RuntimeRuns(rows, p.now) && p.builder.None?
    requires p.runtime == RuntimeDies(during) || (p.runtime == RuntimeFailed(during) && !IsDue(rows, p.now, TRANSCRIPT))
    ensures AfterHandler(rows, p) == Apply(rows, during)
  {
  }

  /** Two wakeups, the runtime's due at 100 and the transcript's at 200. */
  function BothArmed(): Wakeups {
    Entry(RUNTIME, Wakeup(100, 0), TranscriptArmed(200))
  }

  lemma {:induction false} RuntimeIsDueFirst()
    ensures IsDue(BothArmed(), 100, RUNTIME) && !IsDue(BothArmed(), 100, TRANSCRIPT)
    ensures BothArmed().Delete(RUNTIME) == TranscriptArmed(200)
  {
    assert Earliest(BothArmed()) == Some(100);
    assert BothArmed().Get(TRANSCRIPT) == TranscriptArmed(200).Get(TRANSCRIPT);
    var e: OMap<Owner, Wakeup> := Empty;
    assert e.Delete(RUNTIME) == e;
  }

  /**
   * An idle heartbeat gives its wakeup up before its sync is over: if the object dies there, or the
   * platform refuses the sync, the retry is for a later transcript wakeup alone and never for the runtime.
   */
  lemma {:induction false} IdleHeartbeatLosesItsRetry(retry: int)
    ensures var calls := HeartbeatCalls(BothArmed(), false, 100, 30_000);
            var dies := Participants(100, 100, RuntimeDies(calls), None, 3, 1000);
            var refused := dies.(runtime := RuntimeFailed(calls + [SyncGoesOn] + [SyncRefused]));
            && IsDue(BothArmed(), 100, RUNTIME)
            && Unfinished(BothArmed(), dies, RUNTIME) && Unfinished(BothArmed(), refused, RUNTIME)
            && !RuntimeRuns(AfterHandler(BothArmed(), dies), retry)
            && !RuntimeRuns(AfterHandler(BothArmed(), refused), retry)
  {
    var rows := BothArmed();
    var calls := HeartbeatCalls(rows, false, 100, 30_000);
    var dies := Participants(100, 100, RuntimeDies(calls), None, 3, 1000);
    var refused := dies.(runtime := RuntimeFailed(calls + [SyncGoesOn] + [SyncRefused]));
    RuntimeIsDueFirst();
    OneCall(rows, Disarm(RUNTIME));
    SyncsChangeNothing(rows, calls, SyncGoesOn);
    SyncsChangeNothing(rows, calls + [SyncGoesOn], SyncRefused);
    DeletedWhileAwaited(rows, dies, calls);
    DeletedWhileAwaited(rows, refused, calls + [SyncGoesOn] + [SyncRefused]);
    OnlyTheBuilderIsDue(retry, 200);
  }

  lemma {:induction false} Pow2Grows(n: nat)
    ensures n > 0 ==> Pow2(n) == 2 * Pow2(n - 1)
    ensures Pow2(n) > 0
  {
    if n > 0 {
      Pow2Grows(n - 1);
    }
  }

  /** The backoff doubles until it reaches its limit and never passes it. */
  lemma {:induction false} BackoffDoubles(first: nat, failures: nat)
    requires failures > 0
    ensures RetryDelay(first, failures) <= MAX_BUILDER_RETRY_DELAY_MS
    ensures RetryDelay(first, failures) <= RetryDelay(first, failures + 1)
    ensures RetryDelay(first, failures + 1) < MAX_BUILDER_RETRY_DELAY_MS ==>
            RetryDelay(first, failures + 1) == 2 * RetryDelay(first, failures)
  {
    Pow2Grows(failures - 1);
    Pow2Grows(failures);
    assert first * Pow2(failures) == 2 * (first * Pow2(failures - 1));
  }
}
