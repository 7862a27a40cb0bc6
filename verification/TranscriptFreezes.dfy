/** When a transcript version freezes, and what every step leaves of it otherwise. */
module TranscriptFreezes {
  import opened Collections
  import opened Events
  import opened TranscriptPlan
  import opened TranscriptSlots
  import opened TranscriptInvariants
  import opened TranscriptSlices
  import opened TranscriptRuns

  // ---------------------------------------------------------------------------
  // When a plan exists
  // ---------------------------------------------------------------------------

  function KeysOf(puts: seq<(RecordId, Record)>): set<RecordId> {
    set r | r in puts :: r.0
  }

  /** The records the projection of the events puts. */
  function PutKeys(d: Definition, c: Content, events: seq<Committed>): set<RecordId> {
    if events == [] then {}
    else
      var front, e := events[..|events| - 1], events[|events| - 1];
      var before := Project(d, c, front);
      if before.None? || d.step(before.value, e).None? then {}
      else PutKeys(d, c, front) + KeysOf(d.step(before.value, e).value.puts)
  }

  /** The events project, and every record they leave can be stored. */
  ghost predicate Projects(d: Definition, c: Content, events: seq<Committed>) {
    && Project(d, c, events).Some?
    && var records := Project(d, c, events).value.records;
       forall k :: k in PutKeys(d, c, events) ==> k in records && d.storable(k, records[k])
  }

  lemma {:induction false} PutAllKeys(o: OrderedMap<RecordId, Record>, puts: seq<(RecordId, Record)>, k: RecordId)
    ensures PutAll(o, puts).Has(k) <==> o.Has(k) || k in KeysOf(puts)
  {
    if puts != [] {
      var front, last := puts[..|puts| - 1], puts[|puts| - 1];
      assert puts == front + [last];
      PutAllKeys(o, front, k);
      assert k in KeysOf(puts) <==> k in KeysOf(front) || k == last.0 by {
        assert forall r :: r in puts <==> r in front || r == last;
      }
    }
  }

  lemma {:induction false} InterpretKeys(d: Definition, c: Content, cursor: Seq, events: seq<Committed>, k: RecordId)
    requires Follows(events, cursor)
    requires Interpret(d, c, Overlay(Empty, Empty, cursor), events).Some?
    ensures Interpret(d, c, Overlay(Empty, Empty, cursor), events).value.records.Has(k) <==> k in PutKeys(d, c, events)
  {
    if events != [] {
      var o := Overlay(Empty, Empty, cursor);
      var front, e := events[..|events| - 1], events[|events| - 1];
      InterpretIsProject(d, c, o, front);
      assert View(c, o) == c;
      var before := Interpret(d, c, o, front);
      InterpretKeys(d, c, cursor, front, k);
      PutAllKeys(before.value.records, d.step(View(c, before.value), e).value.puts, k);
    }
  }

  /** The batch planner plans the events exactly when they project into storable records. */
  lemma {:induction false} PlannedExactly(d: Definition, c: Content, cursor: Seq, events: seq<Committed>)
    requires Follows(events, cursor)
    ensures PlanTranscriptBatch(d, c, cursor, events).Some? <==> Projects(d, c, events)
  {
    var o := Overlay(Empty, Empty, cursor);
    var r := Interpret(d, c, o, events);
    InterpretIsProject(d, c, o, events);
    assert View(c, o) == c;
    if r.Some? {
      var records := r.value.records;
      PutEntries(c.records, records);
      forall k ensures records.Has(k) <==> k in PutKeys(d, c, events) {
        InterpretKeys(d, c, cursor, events, k);
      }
      forall e | e in records.Entries() ensures records.Get(e.0) == Some(e.1) {
        EntryIsValue(records, e);
      }
      forall k | records.Has(k) ensures (k, records.Get(k).value) in records.Entries() {
        EntryOfKey(records, k);
      }
    }
  }

  // ---------------------------------------------------------------------------
  // Advancing
  // ---------------------------------------------------------------------------

  /** Projecting the events into the slot fails, for a reason of its own or because of the events. */
  ghost predicate CannotPass(s: Slot, d: Definition, env: Env, events: seq<Committed>) {
    env.fails(s.slot, s.cursor) || !Projects(d, s.content, events)
  }

  /** The row with the events projected into it. */
  function Passed(s: Slot, d: Definition, events: seq<Committed>): Slot
    requires Project(d, s.content, events).Some?
  {
    s.(content := Project(d, s.content, events).value, cursor := s.cursor + |events|)
  }

  /**
   * A healthy live slot freezes in front of the events exactly when it cannot pass them; otherwise it ends
   * behind them with their one-pass projection.
   */
  lemma {:induction false} AdvancedExactly(s: Slot, d: Definition, env: Env, events: seq<Committed>)
    requires d == env.definition(s.version)
    requires Dense(events, s.cursor) && events != [] && s.status.Healthy? && s.Live()
    ensures CannotPass(s, d, env, events) ==> Advanced(s, env, events) == s.(status := Frozen(s.cursor + 1))
    ensures !CannotPass(s, d, env, events) ==> Advanced(s, env, events) == Passed(s, d, events)
  {
    FirstPast(events, s.cursor);
    PlannedExactly(d, s.content, s.cursor, events);
    PlanIsProjection(d, s.content, s.cursor, events);
  }

  // ---------------------------------------------------------------------------
  // Reconciling
  // ---------------------------------------------------------------------------

  ghost predicate AnyLive(t: Tables) {
    exists id :: t.meta.Has(id) && t.meta.Get(id).value.Live()
  }

  ghost predicate AnyLiveOf(t: Tables, version: Version) {
    exists id :: t.meta.Has(id) && t.meta.Get(id).value.Live() && t.meta.Get(id).value.version == version
  }

  /** The row of a slot after a reconciliation. */
  ghost function RowReconciled(t: Tables, current: Version, head: Seq, id: SlotId): Option<Slot> {
    if t.meta.Has(id) then
      var s := t.meta.Get(id).value;
      Some(if Stale(s, current) then s.(role := Retired) else s)
    else if id == t.nextSlot && !AnyLiveOf(t, current) then
      Some(Slot(id, current, if head == 0 && !AnyLive(t) then Active else Building, 0, Healthy, 0, NO_ROWS))
    else None
  }

  lemma {:induction false} NothingLive(t: Tables)
    requires TableOk(t)
    ensures AnyLive(t) <==> LiveSlots(t) != []
  {
    LiveAt(t);
  }

  lemma {:induction false} CurrentIsLive(t: Tables, config: Config)
    requires TableOk(t) && RolesOk(t)
    ensures AnyLiveOf(t, config.current)
            <==> || ActiveIs(LiveSlots(t), config.current)
                 || TranscriptSlots.Has(LiveSlots(t), BuildingOf(config.current))
  {
    LiveConditions(t, config);
  }

  /**
   * A reconciliation retires the stale builds and inserts the current version, without rows, exactly when it
   * is not live: active on an empty log with nothing live, building otherwise.
   */
  lemma {:induction false} ReconciledExactly(
      t: Tables, config: Config, log: seq<Committed>, definition: Version -> Definition, head: Seq, id: SlotId)
    requires Inv(t, log, definition)
    ensures Reconcile(t, config, head).meta.Get(id) == RowReconciled(t, config.current, head, id)
  {
    NothingLive(t);
    CurrentIsLive(t, config);
    LiveAt(t);
    if LiveSlots(t) != [] {
      ReconcileRetires(t, config, log, definition);
    }
  }

  // ---------------------------------------------------------------------------
  // The append hook
  // ---------------------------------------------------------------------------

  /** A live carried healthy version at the head the batch started from. */
  predicate IsMaintained(s: Slot, config: Config, head: Seq) {
    s.role != Retired && (s.version == config.current || config.previous == Some(s.version)) && s.status.Healthy?
      && s.cursor == head
  }

  /** The row of a slot of the reconciled table after the hook. */
  ghost function RowMaintained(s: Slot, config: Config, env: Env, head: Seq, appended: seq<Committed>): Slot {
    var d := env.definition(s.version);
    if !IsMaintained(s, config, head) then s
    else if CannotPass(s, d, env, appended) then s.(status := Frozen(head + 1))
    else Passed(s, d, appended)
  }

  /** The rest of the log a slot still has to project starts right behind its cursor. */
  lemma {:induction false} AppendedIsDense(log: seq<Committed>, appended: seq<Committed>)
    requires Dense(log + appended, 0)
    ensures Dense(appended, |log|)
  {
    assert forall i :: 0 <= i < |appended| ==> (log + appended)[|log| + i] == appended[i];
  }

  /**
   * The hook leaves each maintained version at the new head with its projection, unless its own projection of
   * the batch fails: then it freezes at the old head. Every other row is left as reconciliation left it.
   */
  lemma {:induction false} HookExactly(
      t: Tables, config: Config, env: Env, log: seq<Committed>, appended: seq<Committed>, id: SlotId)
    requires Inv(t, log, env.definition) && Dense(log + appended, 0) && appended != []
    ensures var row := RowReconciled(t, config.current, |log|, id);
            MaintainOnAppend(t, config, env, |log|, appended).meta.Get(id)
            == if row.Some? then Some(RowMaintained(row.value, config, env, |log|, appended)) else None
  {
    ReconciledExactly(t, config, log, env.definition, |log|, id);
    ReconcileKeeps(t, config, |log|, log, env.definition);
    var reconciled := Reconcile(t, config, |log|);
    RowAfterHook(reconciled, config, env, |log|, appended, id);
    AppendedIsDense(log, appended);
    if reconciled.meta.Has(id) && IsMaintained(reconciled.meta.Get(id).value, config, |log|) {
      var s := reconciled.meta.Get(id).value;
      AdvancedExactly(s, env.definition(s.version), env, appended);
    }
  }

  // ---------------------------------------------------------------------------
  // A counted failure
  // ---------------------------------------------------------------------------

  predicate IsBuild(config: Config, s: Slot) {
    s.role == Building && s.status.Healthy? && (s.version == config.current || config.previous == Some(s.version))
  }

  predicate IsBehind(config: Config, head: Seq, s: Slot) {
    && s.role == Active && s.status.Healthy? && (s.version == config.current || config.previous == Some(s.version))
    && s.cursor < head
  }

  ghost predicate AnyBuild(t: Tables, config: Config) {
    exists id :: t.meta.Has(id) && IsBuild(config, t.meta.Get(id).value)
  }

  /** The version a slice would build: a healthy carried build, or else a healthy carried active one behind the head. */
  ghost predicate IsTarget(t: Tables, config: Config, head: Seq, s: Slot) {
    && t.meta.Get(s.slot) == Some(s)
    && (IsBuild(config, s) || (IsBehind(config, head, s) && !AnyBuild(t, config)))
  }

  /** There is at most one such version, and slices build it. */
  lemma {:induction false} TargetExactly(t: Tables, config: Config, head: Seq, s: Slot)
    requires TableOk(t) && RolesOk(t)
    ensures BuildTarget(config, LiveSlots(t), head) == Some(s) <==> IsTarget(t, config, head, s)
  {
    TargetFacts(t, config, head);
    LiveAt(t);
    forall x: Slot
      ensures BuildableBuilding(config)(x) == IsBuild(config, x)
              && BuildableBehind(config, head)(x) == IsBehind(config, head, x)
    {
    }
    var target := BuildTarget(config, LiveSlots(t), head);
    if target.Some? && IsTarget(t, config, head, s) {
      var found := target.value;
      assert t.meta.Get(found.slot) == Some(found) && t.meta.Get(s.slot) == Some(s);
      assert found.role == s.role;
    }
    if IsTarget(t, config, head, s) {
      assert t.meta.Has(s.slot) && t.meta.Get(s.slot).value == s;
    }
    if target == Some(s) {
      TargetIsFound(t, config, head, s);
    }
  }

  lemma {:induction false} TargetIsFound(t: Tables, config: Config, head: Seq, s: Slot)
    requires TableOk(t) && BuildTarget(config, LiveSlots(t), head) == Some(s)
    ensures BuildableBuilding(config)(s) || BuildableBehind(config, head)(s)
  {
  }

  /** A slice that threw counts against its target, which freezes exactly at the limit; no other row changes. */
  lemma {:induction false} FailureExactly(
      t: Tables, config: Config, log: seq<Committed>, limits: SliceLimits, definition: Version -> Definition,
      id: SlotId)
    requires Inv(t, log, definition)
    ensures var a := Reconcile(t, config, |log|);
            var row := RowReconciled(t, config.current, |log|, id);
            RecordSliceFailure(t, config, log, limits).meta.Get(id) ==
            if row.None? || !IsTarget(a, config, |log|, row.value) then row
            else
              var counted := row.value.(sliceFailures := row.value.sliceFailures + 1);
              Some(if counted.sliceFailures >= limits.maxSliceFailures
                   then counted.(status := Frozen(counted.cursor + 1)) else counted)
  {
    ReconciledExactly(t, config, log, definition, |log|, id);
    ReconcileKeeps(t, config, |log|, log, definition);
    var a := Reconcile(t, config, |log|);
    RecordFailureIsRewrite(t, config, log, limits);
    var target := BuildTarget(config, LiveSlots(a), |log|);
    if target.Some? {
      TargetExactly(a, config, |log|, target.value);
    }
    if a.meta.Has(id) {
      TargetExactly(a, config, |log|, a.meta.Get(id).value);
      assert a.meta.Get(id).value.slot == id;
    }
  }

  // ---------------------------------------------------------------------------
  // A builder slice
  // ---------------------------------------------------------------------------

  /** Where a slice stops at the latest. */
  function SliceEndsAt(s: Slot, log: seq<Committed>, maxEvents: nat): Seq {
    Min(|log|, s.cursor + maxEvents)
  }

  /** The page a slice reads from the position on. */
  function SlicePage(s: Slot, log: seq<Committed>, pageEvents: nat, maxEvents: nat, at: Seq): seq<Committed>
    requires at <= SliceEndsAt(s, log, maxEvents)
  {
    log[at..Min(at + pageEvents, SliceEndsAt(s, log, maxEvents))]
  }

  /** The slot with the log projected into it up to the position. */
  ghost function UpTo(s: Slot, d: Definition, log: seq<Committed>, at: Seq): Slot
    requires s.cursor <= at <= |log|
  {
    var content := Project(d, s.content, log[s.cursor..at]);
    if content.Some? then s.(cursor := at, content := content.value) else s
  }

  /** An event of the page cannot be decoded, or the slot cannot pass it. */
  ghost predicate Stuck(s: Slot, d: Definition, env: Env, page: seq<Committed>) {
    (exists e :: e in page && !env.decodes(e)) || CannotPass(s, d, env, page)
  }

  /** What a slice makes of its target: page by page until one is stuck, at most to the end of the slice. */
  ghost predicate BuiltThrough(
      s: Slot, d: Definition, env: Env, log: seq<Committed>, pageEvents: nat, maxEvents: nat, built: Slot) {
    var end := SliceEndsAt(s, log, maxEvents);
    && s.cursor <= built.cursor <= end
    && built == UpTo(s, d, log, built.cursor).(status := built.status)
    && Project(d, s.content, log[s.cursor..built.cursor]).Some?
    && NoneStuck(s, d, env, log, pageEvents, maxEvents, built.cursor)
    && (if built.status.Healthy? then built.cursor == end
        else
          && built.status == Frozen(built.cursor + 1) && built.cursor < end
          && StartsPage(s, pageEvents, built.cursor)
          && StuckAt(s, d, env, log, pageEvents, maxEvents, built.cursor))
  }

  /** The page at the position is stuck, once the log before it is projected. */
  ghost predicate StuckAt(
      s: Slot, d: Definition, env: Env, log: seq<Committed>, pageEvents: nat, maxEvents: nat, at: Seq)
    requires s.cursor <= at <= SliceEndsAt(s, log, maxEvents)
  {
    Stuck(UpTo(s, d, log, at), d, env, SlicePage(s, log, pageEvents, maxEvents, at))
  }

  /** No page that starts before the position is stuck. */
  ghost predicate NoneStuck(
      s: Slot, d: Definition, env: Env, log: seq<Committed>, pageEvents: nat, maxEvents: nat, at: Seq)
    requires s.cursor <= at <= SliceEndsAt(s, log, maxEvents)
  {
    forall k: nat :: PageStart(s, pageEvents, k) < at ==>
      !StuckAt(s, d, env, log, pageEvents, maxEvents, PageStart(s, pageEvents, k))
  }

  ghost predicate StartsPage(s: Slot, pageEvents: nat, at: Seq) {
    exists k: nat :: at == PageStart(s, pageEvents, k)
  }

  function PageStart(s: Slot, pageEvents: nat, k: nat): Seq {
    s.cursor + k * pageEvents
  }

  /** One page into a slot that has something to build. */
  ghost function AfterFirstPage(s: Slot, d: Definition, env: Env, page: seq<Committed>): Slot {
    if Stuck(s, d, env, page) then s.(status := Frozen(s.cursor + 1)) else Passed(s, d, page)
  }

  lemma {:induction false} PageExactly(s: Slot, d: Definition, env: Env, page: seq<Committed>, remaining: nat)
    requires d == env.definition(s.version)
    requires Dense(page, s.cursor) && 0 < |page| <= remaining && s.Live() && s.status.Healthy?
    ensures AfterPage(s, env, page, remaining).0 == AfterFirstPage(s, d, env, page)
    ensures !Stuck(s, d, env, page) ==> AfterPage(s, env, page, remaining).1 == remaining - |page|
  {
    AdvancedExactly(s, d, env, page);
  }

  lemma {:induction false} FirstPageFacts(s: Slot, log: seq<Committed>, pageEvents: nat, remaining: nat)
    requires Dense(log, 0) && s.cursor < |log| && pageEvents > 0 && remaining > 0
    ensures var page := SlicePage(s, log, pageEvents, remaining, s.cursor);
            && 0 < |page| <= pageEvents && |page| <= remaining && Dense(page, s.cursor)
            && page == Page(log, s.cursor, Min(pageEvents, remaining))
  {
    PageFacts(log, s.cursor, Min(pageEvents, remaining));
    NextIsDense(Page(log, s.cursor, Min(pageEvents, remaining)), s.cursor, log);
  }

  lemma {:induction false} BuiltEnds(s: Slot, env: Env, log: seq<Committed>, pageEvents: nat, remaining: nat)
    requires s.status.Frozen? || s.cursor >= |log| || remaining == 0
    ensures BuiltSlot(s, env, log, pageEvents, remaining) == s
  {
  }

  lemma {:induction false} UpToItself(s: Slot, d: Definition, log: seq<Committed>)
    requires s.cursor <= |log|
    ensures UpTo(s, d, log, s.cursor) == s
    ensures Project(d, s.content, log[s.cursor..s.cursor]) == Some(s.content)
  {
    assert log[s.cursor..s.cursor] == [];
  }

  lemma {:induction false} UpToThrough(s: Slot, d: Definition, log: seq<Committed>, mid: Seq, at: Seq)
    requires s.cursor <= mid <= at <= |log|
    requires Project(d, s.content, log[s.cursor..mid]).Some?
    ensures var next := UpTo(s, d, log, mid);
            && (Project(d, s.content, log[s.cursor..at]).Some?
                <==> Project(d, next.content, log[mid..at]).Some?)
            && (Project(d, s.content, log[s.cursor..at]).Some? ==>
                  UpTo(s, d, log, at) == UpTo(next, d, log, at))
  {
    assert log[s.cursor..at] == log[s.cursor..mid] + log[mid..at];
    ProjectAppend(d, s.content, log[s.cursor..mid], log[mid..at]);
  }

  lemma {:induction false} ProjectsSoFar(d: Definition, c: Content, log: seq<Committed>, from: Seq, mid: Seq, at: Seq)
    requires from <= mid <= at <= |log| && Project(d, c, log[from..at]).Some?
    ensures Project(d, c, log[from..mid]).Some?
  {
    assert log[from..at] == log[from..mid] + log[mid..at];
    ProjectAppend(d, c, log[from..mid], log[mid..at]);
  }

  /** Seen from a later position the slot is stuck at the same pages. */
  lemma {:induction false} StuckAlike(
      s: Slot, next: Slot, d: Definition, env: Env, log: seq<Committed>, pageEvents: nat, maxEvents: nat, left: nat,
      at: Seq)
    requires s.cursor <= next.cursor <= at <= SliceEndsAt(s, log, maxEvents) == SliceEndsAt(next, log, left)
    requires Project(d, s.content, log[s.cursor..at]).Some?
    requires next == UpTo(s, d, log, next.cursor)
    ensures StuckAt(s, d, env, log, pageEvents, maxEvents, at) <==> StuckAt(next, d, env, log, pageEvents, left, at)
  {
    ProjectsSoFar(d, s.content, log, s.cursor, next.cursor, at);
    UpToThrough(s, d, log, next.cursor, at);
  }

  /** The pages behind the first start a page later. */
  lemma {:induction false} LaterStarts(s: Slot, next: Slot, pageEvents: nat, k: nat)
    requires pageEvents > 0 && k > 0 && s.cursor < next.cursor <= s.cursor + pageEvents
    ensures PageStart(s, pageEvents, k) >= s.cursor + pageEvents
    ensures next.cursor == s.cursor + pageEvents ==> PageStart(s, pageEvents, k) == PageStart(next, pageEvents, k - 1)
  {
    assert k * pageEvents == (k - 1) * pageEvents + pageEvents;
    assert (k - 1) * pageEvents >= 0;
  }

  lemma {:induction false} StartsPageLater(s: Slot, next: Slot, pageEvents: nat, at: Seq)
    requires pageEvents > 0 && next.cursor == s.cursor + pageEvents && StartsPage(next, pageEvents, at)
    ensures StartsPage(s, pageEvents, at)
  {
    var k: nat :| at == PageStart(next, pageEvents, k);
    LaterStarts(s, next, pageEvents, k + 1);
    assert at == PageStart(s, pageEvents, k + 1);
  }

  lemma {:induction false} NoneStuckFurther(
      s: Slot, next: Slot, d: Definition, env: Env, log: seq<Committed>, pageEvents: nat, maxEvents: nat, left: nat,
      at: Seq)
    requires s.cursor < next.cursor <= at <= SliceEndsAt(s, log, maxEvents) == SliceEndsAt(next, log, left)
    requires next.cursor == Min(s.cursor + pageEvents, SliceEndsAt(s, log, maxEvents))
    requires next == UpTo(s, d, log, next.cursor)
    requires Project(d, s.content, log[s.cursor..at]).Some?
    requires !StuckAt(s, d, env, log, pageEvents, maxEvents, s.cursor)
    requires NoneStuck(next, d, env, log, pageEvents, left, at)
    ensures NoneStuck(s, d, env, log, pageEvents, maxEvents, at)
  {
    forall k: nat | PageStart(s, pageEvents, k) < at
      ensures !StuckAt(s, d, env, log, pageEvents, maxEvents, PageStart(s, pageEvents, k))
    {
      var start := PageStart(s, pageEvents, k);
      if k > 0 {
        LaterStarts(s, next, pageEvents, k);
        ProjectsSoFar(d, s.content, log, s.cursor, start, at);
        StuckAlike(s, next, d, env, log, pageEvents, maxEvents, left, start);
      }
    }
  }

  /** One page more in front of what was built. */
  lemma {:induction false} BuiltFurther(
      s: Slot, next: Slot, d: Definition, env: Env, log: seq<Committed>, pageEvents: nat, maxEvents: nat, left: nat,
      built: Slot)
    requires s.cursor < next.cursor <= s.cursor + pageEvents
    requires SliceEndsAt(s, log, maxEvents) == SliceEndsAt(next, log, left)
    requires next.cursor == Min(s.cursor + pageEvents, SliceEndsAt(s, log, maxEvents))
    requires next == UpTo(s, d, log, next.cursor)
    requires Project(d, s.content, log[s.cursor..next.cursor]).Some?
    requires !StuckAt(s, d, env, log, pageEvents, maxEvents, s.cursor)
    requires BuiltThrough(next, d, env, log, pageEvents, left, built)
    ensures BuiltThrough(s, d, env, log, pageEvents, maxEvents, built)
  {
    UpToThrough(s, d, log, next.cursor, built.cursor);
    NoneStuckFurther(s, next, d, env, log, pageEvents, maxEvents, left, built.cursor);
    StuckAlike(s, next, d, env, log, pageEvents, maxEvents, left, built.cursor);
    if built.status.Frozen? {
      StartsPageLater(s, next, pageEvents, built.cursor);
    }
  }

  lemma {:induction false} StuckBuilds(
      s: Slot, d: Definition, env: Env, log: seq<Committed>, pageEvents: nat, remaining: nat, page: seq<Committed>)
    requires d == env.definition(s.version)
    requires s.cursor < |log| && s.Live() && s.status.Healthy? && remaining > 0
    requires page == Page(log, s.cursor, Min(pageEvents, remaining))
    requires 0 < |page| <= remaining && Dense(page, s.cursor)
    requires Stuck(s, d, env, page)
    ensures BuiltSlot(s, env, log, pageEvents, remaining) == s.(status := Frozen(s.cursor + 1))
  {
    BuiltPageByPage(s, env, log, pageEvents, remaining, page);
    PageExactly(s, d, env, page, remaining);
    var next := AfterPage(s, env, page, remaining);
    BuiltEnds(next.0, env, log, pageEvents, next.1);
  }

  lemma {:induction false} PassedBuilds(
      s: Slot, d: Definition, env: Env, log: seq<Committed>, pageEvents: nat, remaining: nat, page: seq<Committed>)
    returns (next: Slot, left: nat)
    requires d == env.definition(s.version)
    requires s.cursor < |log| && s.Live() && s.status.Healthy? && remaining > 0
    requires page == Page(log, s.cursor, Min(pageEvents, remaining))
    requires 0 < |page| <= remaining && Dense(page, s.cursor)
    requires !Stuck(s, d, env, page)
    ensures next == Passed(s, d, page) && left == remaining - |page|
    ensures BuiltSlot(s, env, log, pageEvents, remaining) == BuiltSlot(next, env, log, pageEvents, left)
  {
    var after := AfterPage(s, env, page, remaining);
    next, left := after.0, after.1;
    BuiltPageByPage(s, env, log, pageEvents, remaining, page);
    PageExactly(s, d, env, page, remaining);
  }

  /**
   * A slice projects pages into its target, stopping at the first page that is stuck, which freezes it there,
   * and otherwise at the end of the slice or the log.
   */
  lemma {:induction false} BuiltExactly(
      s: Slot, d: Definition, env: Env, log: seq<Committed>, pageEvents: nat, remaining: nat)
    returns (built: Slot)
    requires d == env.definition(s.version)
    requires Dense(log, 0) && s.cursor <= |log| && s.Live() && s.status.Healthy? && pageEvents > 0
    ensures built == BuiltSlot(s, env, log, pageEvents, remaining)
    ensures BuiltThrough(s, d, env, log, pageEvents, remaining, built)
    decreases remaining
  {
    if s.cursor == |log| || remaining == 0 {
      BuiltEnds(s, env, log, pageEvents, remaining);
      BuiltAll(s, d, env, log, pageEvents, remaining);
      return s;
    }
    UpToItself(s, d, log);
    FirstPageFacts(s, log, pageEvents, remaining);
    var page := SlicePage(s, log, pageEvents, remaining, s.cursor);
    if Stuck(s, d, env, page) {
      StuckBuilds(s, d, env, log, pageEvents, remaining, page);
      BuiltNothing(s, d, env, log, pageEvents, remaining);
      built := s.(status := Frozen(s.cursor + 1));
    } else {
      var next, left := PassedBuilds(s, d, env, log, pageEvents, remaining, page);
      PassedFirst(s, d, env, log, pageEvents, remaining, page);
      built := BuiltExactly(next, d, env, log, pageEvents, left);
      BuiltFurther(s, next, d, env, log, pageEvents, remaining, left, built);
    }
  }

  lemma {:induction false} PassedFirst(
      s: Slot, d: Definition, env: Env, log: seq<Committed>, pageEvents: nat, remaining: nat, page: seq<Committed>)
    requires s.cursor < |log| && pageEvents > 0 && remaining > 0
    requires page == SlicePage(s, log, pageEvents, remaining, s.cursor) && !Stuck(s, d, env, page)
    ensures var next := Passed(s, d, page);
            && SliceEndsAt(s, log, remaining) == SliceEndsAt(next, log, remaining - |page|)
            && next.cursor == Min(s.cursor + pageEvents, SliceEndsAt(s, log, remaining))
            && next == UpTo(s, d, log, next.cursor)
            && Project(d, s.content, log[s.cursor..next.cursor]).Some?
  {
  }

  lemma {:induction false} BuiltAll(
      s: Slot, d: Definition, env: Env, log: seq<Committed>, pageEvents: nat, maxEvents: nat)
    requires s.status.Healthy? && s.cursor <= |log| && (s.cursor == |log| || maxEvents == 0)
    ensures BuiltThrough(s, d, env, log, pageEvents, maxEvents, s)
  {
    UpToItself(s, d, log);
    forall k: nat ensures PageStart(s, pageEvents, k) >= s.cursor {
      assert k * pageEvents >= 0;
    }
  }

  lemma {:induction false} BuiltNothing(
      s: Slot, d: Definition, env: Env, log: seq<Committed>, pageEvents: nat, maxEvents: nat)
    requires s.cursor < SliceEndsAt(s, log, maxEvents) && s.status.Healthy?
    requires StuckAt(s, d, env, log, pageEvents, maxEvents, s.cursor)
    ensures BuiltThrough(s, d, env, log, pageEvents, maxEvents, s.(status := Frozen(s.cursor + 1)))
  {
    UpToItself(s, d, log);
    assert s.cursor == PageStart(s, pageEvents, 0);
    forall k: nat ensures PageStart(s, pageEvents, k) >= s.cursor {
      assert k * pageEvents >= 0;
    }
  }

  // ---------------------------------------------------------------------------
  // Whole steps and runs
  // ---------------------------------------------------------------------------

  /** Some page of the slice is stuck. */
  ghost predicate AnyStuck(s: Slot, env: Env, log: seq<Committed>, limits: SliceLimits)
    requires s.cursor <= |log|
  {
    exists k: nat ::
      PageStart(s, limits.pageEvents, k) < SliceEndsAt(s, log, limits.maxEvents)
      && StuckAt(s, env.definition(s.version), env, log, limits.pageEvents, limits.maxEvents,
                 PageStart(s, limits.pageEvents, k))
  }

  /** A slice freezes its target exactly when one of its pages is stuck; otherwise it builds to the end of the slice. */
  lemma {:induction false} BuiltRowExactly(s: Slot, env: Env, log: seq<Committed>, limits: SliceLimits)
    requires Dense(log, 0) && s.cursor <= |log| && s.Live() && s.status.Healthy?
    ensures var built, d := BuiltRow(s, env, log, limits), env.definition(s.version);
            && BuiltThrough(s, d, env, log, limits.pageEvents, limits.maxEvents,
              built.(sliceFailures := s.sliceFailures))
            && built.sliceFailures == 0
            && (built.status.Frozen? <==> AnyStuck(s, env, log, limits))
  {
    var d := env.definition(s.version);
    var built := BuiltExactly(s, d, env, log, limits.pageEvents, limits.maxEvents);
    BuiltSlotMoves(s, env, log, limits.pageEvents, limits.maxEvents);
    if built.status.Frozen? {
      var k: nat :| built.cursor == PageStart(s, limits.pageEvents, k);
    }
  }

  /** What makes a step freeze a version. */
  ghost predicate Freezes(w: World, step: Step, definition: Version -> Definition, id: SlotId)
    requires Inv(w.tables, w.log, definition) && Possible(w, step, definition)
  {
    var head := |w.log|;
    match step
    case Append(config, env, events) =>
      var row := RowReconciled(w.tables, config.current, head, id);
      && events != [] && row.Some? && IsMaintained(row.value, config, head)
      && CannotPass(row.value, definition(row.value.version), env, events)
    case Slice(config, env, limits) =>
      var row := RowReconciled(w.tables, config.current, head, id);
      && row.Some? && row.value.cursor <= head && IsTarget(Reconcile(w.tables, config, head), config, head, row.value)
      && AnyStuck(row.value, env, w.log, limits)
    case SliceFailed(config, limits) =>
      var row := RowReconciled(w.tables, config.current, head, id);
      && row.Some? && IsTarget(Reconcile(w.tables, config, head), config, head, row.value)
      && row.value.sliceFailures + 1 >= limits.maxSliceFailures
    case _ => false
  }

  predicate FrozenIn(t: Tables, id: SlotId) {
    t.meta.Has(id) && t.meta.Get(id).value.status.Frozen?
  }

  lemma {:induction false} AppendFreezes(w: World, step: Step, definition: Version -> Definition, id: SlotId)
    requires Inv(w.tables, w.log, definition) && Possible(w, step, definition) && step.Append?
    ensures FrozenIn(Next(w, step).tables, id) && !FrozenIn(w.tables, id) <==> Freezes(w, step, definition, id)
  {
    ReconciledExactly(w.tables, step.config, w.log, definition, |w.log|, id);
    if step.events != [] {
      HookExactly(w.tables, step.config, step.env, w.log, step.events, id);
    }
  }

  lemma {:induction false} FailureFreezes(w: World, step: Step, definition: Version -> Definition, id: SlotId)
    requires Inv(w.tables, w.log, definition) && Possible(w, step, definition) && step.SliceFailed?
    ensures FrozenIn(Next(w, step).tables, id) && !FrozenIn(w.tables, id) <==> Freezes(w, step, definition, id)
  {
    FailureExactly(w.tables, step.config, w.log, step.limits, definition, id);
  }

  /** The status a slice leaves a slot with, given what it leaves of its target. */
  lemma {:induction false} SliceStatus(
      t: Tables, config: Config, env: Env, log: seq<Committed>, limits: SliceLimits, id: SlotId)
    requires Inv(t, log, env.definition) && FairPick(env.pick)
    ensures var a := Reconcile(t, config, |log|);
            var c := RunSlice(t, config, env, log, limits);
            FrozenIn(c, id) && !FrozenIn(a, id)
            <==> a.meta.Has(id) && IsTarget(a, config, |log|, a.meta.Get(id).value)
                 && BuiltRow(a.meta.Get(id).value, env, log, limits).status.Frozen?
  {
    SliceParts(t, config, env, log, limits);
    var a := Reconcile(t, config, |log|);
    var b := BuildAndActivate(a, config, env, log, limits);
    var c := RunSlice(t, config, env, log, limits);
    BuildAndActivateKeeps(a, config, env, log, limits);
    TargetFacts(a, config, |log|);
    var target := BuildTarget(config, LiveSlots(a), |log|);
    if target.Some? {
      TargetExactly(a, config, |log|, target.value);
    }
    if a.meta.Has(id) {
      TargetExactly(a, config, |log|, a.meta.Get(id).value);
      assert a.meta.Get(id).value.slot == id;
    }
    assert CleanedAt(b.meta.Get(id), c.meta.Get(id));
  }

  lemma {:induction false} SliceFreezes(w: World, step: Step, definition: Version -> Definition, id: SlotId)
    requires Inv(w.tables, w.log, definition) && Possible(w, step, definition) && step.Slice?
    ensures FrozenIn(Next(w, step).tables, id) && !FrozenIn(w.tables, id) <==> Freezes(w, step, definition, id)
  {
    ReconciledExactly(w.tables, step.config, w.log, definition, |w.log|, id);
    ReconcileKeeps(w.tables, step.config, |w.log|, w.log, definition);
    SliceStatus(w.tables, step.config, step.env, w.log, step.limits, id);
    var a := Reconcile(w.tables, step.config, |w.log|);
    if a.meta.Has(id) && IsTarget(a, step.config, |w.log|, a.meta.Get(id).value) {
      assert SlotOk(a.meta.Get(id).value, w.log, definition);
      BuiltRowExactly(a.meta.Get(id).value, step.env, w.log, step.limits);
    }
  }

  /**
   * A step freezes a version exactly when an append or a page of a slice cannot be projected into it, or a
   * counted failure brings it to the limit.
   */
  lemma {:induction false} StepFreezesExactly(w: World, step: Step, definition: Version -> Definition, id: SlotId)
    requires Inv(w.tables, w.log, definition) && Possible(w, step, definition)
    ensures FrozenIn(Next(w, step).tables, id) && !FrozenIn(w.tables, id) <==> Freezes(w, step, definition, id)
  {
    match step
    case Append(_, _, _) => AppendFreezes(w, step, definition, id);
    case Slice(_, _, _) => SliceFreezes(w, step, definition, id);
    case SliceFailed(_, _) => FailureFreezes(w, step, definition, id);
    case Read(config) => ReconciledExactly(w.tables, config, w.log, definition, |w.log|, id);
    case RolledBack =>
  }

  /** The step of a run that froze the version. */
  ghost predicate FrozeAt(w: World, steps: seq<Step>, definition: Version -> Definition, id: SlotId, k: nat)
    requires k < |steps|
  {
    var before := Run(w, steps[..k]);
    && Inv(before.tables, before.log, definition) && Possible(before, steps[k], definition)
    && Freezes(before, steps[k], definition, id)
  }

  /** In any run, a version that froze was frozen by a step that had to. */
  lemma {:induction false} RunFreezes(w: World, steps: seq<Step>, definition: Version -> Definition, id: SlotId)
    requires Inv(w.tables, w.log, definition) && PossibleRun(w, steps, definition)
    requires FrozenIn(Run(w, steps).tables, id) && !FrozenIn(w.tables, id)
    ensures exists k: nat :: k < |steps| && FrozeAt(w, steps, definition, id, k)
  {
    if steps != [] {
      var front := steps[..|steps| - 1];
      RunKeeps(w, front, definition);
      if FrozenIn(Run(w, front).tables, id) {
        RunFreezes(w, front, definition, id);
        var k: nat :| k < |front| && FrozeAt(w, front, definition, id, k);
        assert front[..k] == steps[..k] && front[k] == steps[k];
        assert FrozeAt(w, steps, definition, id, k);
      } else {
        StepFreezesExactly(Run(w, front), steps[|steps| - 1], definition, id);
        assert FrozeAt(w, steps, definition, id, |steps| - 1);
      }
    }
  }
}
