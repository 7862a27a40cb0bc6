/** Whole runs of appends, reads, builder slices, failures and releases over one log. */
module TranscriptRuns {
  import opened Collections
  import opened Events
  import opened TranscriptPlan
  import opened TranscriptSlots
  import opened TranscriptInvariants
  import opened TranscriptSlices

  // ---------------------------------------------------------------------------
  // One slice
  // ---------------------------------------------------------------------------

  predicate ActiveIn(t: Tables, id: SlotId) {
    t.meta.Has(id) && t.meta.Get(id).value.role == Active
  }

  predicate HealthyAt(t: Tables, id: SlotId, head: Seq)
    requires t.meta.Has(id)
  {
    t.meta.Get(id).value.status.Healthy? && t.meta.Get(id).value.cursor == head
  }

  /** A slot newly active is a healthy build of the current version at the head. */
  ghost predicate ActivatesReadyAt(t: Tables, next: Tables, current: Version, head: Seq, id: SlotId) {
    ActiveIn(next, id) && !ActiveIn(t, id) ==> next.meta.Get(id).value.version == current && HealthyAt(next, id, head)
  }

  ghost predicate ActivatesReady(t: Tables, next: Tables, current: Version, head: Seq) {
    forall id :: ActivatesReadyAt(t, next, current, head, id)
  }

  /** The rows of a slot that is gone are fewer than the step may delete, so they are deleted with it. */
  ghost predicate RemovesWithin(t: Tables, next: Tables, budget: nat) {
    forall id {:trigger t.meta.Get(id)} :: t.meta.Has(id) && !next.meta.Has(id) ==>
      RowCount(t.meta.Get(id).value) < budget
  }

  /** The table a slice cleans up: reconciled, then built. */
  function Prepared(t: Tables, config: Config, env: Env, log: seq<Committed>, limits: SliceLimits): Tables {
    BuildAndActivate(Reconcile(t, config, |log|), config, env, log, limits)
  }

  lemma {:induction false} ReconcileActivates(
      t: Tables, config: Config, log: seq<Committed>, definition: Version -> Definition)
    requires Inv(t, log, definition)
    ensures ActivatesReady(t, Reconcile(t, config, |log|), config.current, |log|)
  {
    ReconcileKeeps(t, config, |log|, log, definition);
    var next := Reconcile(t, config, |log|);
    forall id ensures ActivatesReadyAt(t, next, config.current, |log|, id) {
      if ActiveIn(next, id) && !ActiveIn(t, id) {
        assert !t.meta.Has(id);
      }
    }
  }

  lemma {:induction false} BuildingIsCurrent(t: Tables, config: Config, target: Slot)
    requires TableOk(t) && Reconciled(t, config.current)
    requires t.meta.Get(target.slot) == Some(target) && target.role == Building
    ensures target.version == config.current
  {
    assert !Stale(t.meta.Get(target.slot).value, config.current);
  }

  lemma {:induction false} BuildActivates(t: Tables, config: Config, env: Env, log: seq<Committed>, limits: SliceLimits)
    requires Inv(t, log, env.definition) && Reconciled(t, config.current)
    ensures ActivatesReady(t, BuildAndActivate(t, config, env, log, limits), config.current, |log|)
  {
    BuildAndActivateKeeps(t, config, env, log, limits);
    TargetFacts(t, config, |log|);
    var target, next := BuildTarget(config, LiveSlots(t), |log|), BuildAndActivate(t, config, env, log, limits);
    if target.Some? {
      var built := BuiltRow(target.value, env, log, limits);
      BuiltActivates(t, next, target.value, built, config, |log|);
    }
  }

  lemma {:induction false} BuiltActivates(t: Tables, next: Tables, target: Slot, built: Slot, config: Config, head: Seq)
    requires TableOk(t) && Reconciled(t, config.current) && t.meta.Get(target.slot) == Some(target)
    requires BuiltRows(t, next, target, built, head)
    ensures ActivatesReady(t, next, config.current, head)
  {
    forall id ensures ActivatesReadyAt(t, next, config.current, head, id) {
      if ActiveIn(next, id) && !ActiveIn(t, id) {
        assert id == target.slot && target.role == Building;
        BuildingIsCurrent(t, config, target);
      }
    }
  }

  lemma {:induction false} ListsRetired(t: Tables)
    requires TableOk(t)
    ensures ShowsRetired(t, t.meta.Values())
    ensures forall id :: t.meta.Has(id) ==> t.meta.Get(id).value in t.meta.Values()
  {
    forall k | t.meta.Has(k) ensures IdOf(t.meta.Get(k).value) == k {
    }
    ValuesDistinct(t.meta, IdOf);
  }

  /** The three parts of a slice: reconciled, built, cleaned. */
  lemma {:induction false} SliceParts(t: Tables, config: Config, env: Env, log: seq<Committed>, limits: SliceLimits)
    requires Inv(t, log, env.definition) && FairPick(env.pick)
    ensures var a := Reconcile(t, config, |log|);
            var b := BuildAndActivate(a, config, env, log, limits);
            var c := RunSlice(t, config, env, log, limits);
            && Inv(a, log, env.definition) && Inv(b, log, env.definition) && Inv(c, log, env.definition)
            && StepKeeps(t, a) && StepKeeps(a, b) && StepKeeps(b, c)
            && Reconciled(a, config.current) && ReconciledRows(t, a, config, |log|)
            && Cleaned(b, c) && RemovedExactly(b, c, limits.maxDeletedRows)
  {
    ReconcileKeeps(t, config, |log|, log, env.definition);
    var a := Reconcile(t, config, |log|);
    BuildAndActivateKeeps(a, config, env, log, limits);
    var b := BuildAndActivate(a, config, env, log, limits);
    ListsRetired(b);
    CleanUpKeeps(b, b.meta.Values(), env, limits.maxDeletedRows, log);
    CleanUpCleans(b, env, limits.maxDeletedRows);
  }

  /** An active slot at the head is left alone. */
  ghost predicate ReadyStays(a: Tables, b: Tables, id: SlotId, head: Seq) {
    ActiveIn(a, id) && ActiveIn(b, id) && a.meta.Get(id).value.cursor == head ==> b.meta.Get(id) == a.meta.Get(id)
  }

  lemma {:induction false} ActivationsCompose(t: Tables, a: Tables, b: Tables, c: Tables, current: Version, head: Seq)
    requires ActivatesReady(t, a, current, head) && ActivatesReady(a, b, current, head)
    requires StepKeeps(a, b)
    requires Cleaned(b, c)
    requires forall id :: ReadyStays(a, b, id, head)
    ensures ActivatesReady(t, c, current, head)
  {
    forall id ensures ActivatesReadyAt(t, c, current, head, id) {
      if ActiveIn(c, id) && !ActiveIn(t, id) {
        assert b.meta.Get(id) == c.meta.Get(id);
        assert ActivatesReadyAt(t, a, current, head, id) && ActivatesReadyAt(a, b, current, head, id);
        assert ReadyStays(a, b, id, head);
      }
    }
  }

  lemma {:induction false} ActiveAtHeadStays(
      t: Tables, config: Config, env: Env, log: seq<Committed>, limits: SliceLimits, id: SlotId)
    requires Inv(t, log, env.definition)
    ensures ReadyStays(t, BuildAndActivate(t, config, env, log, limits), id, |log|)
  {
    BuildAndActivateKeeps(t, config, env, log, limits);
    TargetFacts(t, config, |log|);
  }

  /**
   * A builder slice keeps the invariant, activates only ready builds, and removes exactly the retired slots
   * whose rows, with those of the retired slots before them, it could delete within its budget.
   */
  lemma {:induction false} SliceKeeps(t: Tables, config: Config, env: Env, log: seq<Committed>, limits: SliceLimits)
    requires Inv(t, log, env.definition) && FairPick(env.pick)
    ensures var next := RunSlice(t, config, env, log, limits);
            && Inv(next, log, env.definition) && StepKeeps(t, next)
            && ActivatesReady(t, next, config.current, |log|)
            && RemovedExactly(Prepared(t, config, env, log, limits), next, limits.maxDeletedRows)
            && RemovesWithin(t, next, limits.maxDeletedRows)
  {
    var a := Reconcile(t, config, |log|);
    var b := BuildAndActivate(a, config, env, log, limits);
    var c := RunSlice(t, config, env, log, limits);
    SliceParts(t, config, env, log, limits);
    StepKeepsTransitive(t, a, b);
    StepKeepsTransitive(t, b, c);
    ReconcileActivates(t, config, log, env.definition);
    BuildActivates(a, config, env, log, limits);
    forall id ensures ReadyStays(a, b, id, |log|) {
      ActiveAtHeadStays(a, config, env, log, limits, id);
    }
    ActivationsCompose(t, a, b, c, config.current, |log|);
    SliceRemovesWithin(t, config, env, log, limits);
  }

  /** Retiring a slot leaves its rows for the cleanup. */
  lemma {:induction false} RetiredKeepsRows(
      t: Tables, config: Config, env: Env, log: seq<Committed>, limits: SliceLimits, id: SlotId)
    requires Inv(t, log, env.definition) && t.meta.Has(id)
    ensures var next := BuildAndActivate(t, config, env, log, limits);
            next.meta.Has(id) && (next.meta.Get(id).value.role == Retired ==>
              next.meta.Get(id).value.content == t.meta.Get(id).value.content)
  {
    BuildAndActivateKeeps(t, config, env, log, limits);
    TargetFacts(t, config, |log|);
  }

  /** A slot the cleanup removed had rows within its budget. */
  lemma {:induction false} RemovedRows(b: Tables, c: Tables, budget: nat, id: SlotId)
    requires TableOk(b) && Cleaned(b, c) && RemovedExactly(b, c, budget)
    requires b.meta.Has(id) && !c.meta.Has(id)
    ensures b.meta.Get(id).value.role == Retired && RowCount(b.meta.Get(id).value) < budget
  {
    var slots, s := b.meta.Values(), b.meta.Get(id).value;
    ValueAt(b, s);
    assert CleanedAt(b.meta.Get(id), c.meta.Get(id));
    var i :| 0 <= i < |slots| && slots[i] == s;
    assert RemovedAt(c, slots, i, budget);
    RetiredRowsLast(slots[..i + 1]);
  }

  lemma {:induction false} SliceRemovesWithin(
      t: Tables, config: Config, env: Env, log: seq<Committed>, limits: SliceLimits)
    requires Inv(t, log, env.definition) && FairPick(env.pick)
    ensures RemovesWithin(t, RunSlice(t, config, env, log, limits), limits.maxDeletedRows)
  {
    var next := RunSlice(t, config, env, log, limits);
    forall id {:trigger t.meta.Get(id)} | t.meta.Has(id) && !next.meta.Has(id)
      ensures RowCount(t.meta.Get(id).value) < limits.maxDeletedRows
    {
      SliceRemovesSlotWithin(t, config, env, log, limits, id);
    }
  }

  lemma {:induction false} SliceRemovesSlotWithin(
      t: Tables, config: Config, env: Env, log: seq<Committed>, limits: SliceLimits, id: SlotId)
    requires Inv(t, log, env.definition) && FairPick(env.pick)
    requires t.meta.Has(id) && !RunSlice(t, config, env, log, limits).meta.Has(id)
    ensures RowCount(t.meta.Get(id).value) < limits.maxDeletedRows
  {
    var a := Reconcile(t, config, |log|);
    SliceParts(t, config, env, log, limits);
    assert a.meta.Has(id) && a.meta.Get(id).value.content == t.meta.Get(id).value.content;
    RetiredKeepsRows(a, config, env, log, limits, id);
    RemovedRows(Prepared(t, config, env, log, limits), RunSlice(t, config, env, log, limits), limits.maxDeletedRows,
      id);
  }

  /** The target's row after counting one more failure. */
  function FailedRow(s: Slot, limits: SliceLimits): Slot {
    var counted := s.(sliceFailures := s.sliceFailures + 1);
    if counted.sliceFailures < limits.maxSliceFailures then counted else counted.(status := Frozen(s.cursor + 1))
  }

  lemma {:induction false} RecordFailureIsRewrite(t: Tables, config: Config, log: seq<Committed>, limits: SliceLimits)
    requires TableOk(Reconcile(t, config, |log|))
    ensures var a := Reconcile(t, config, |log|);
            var target := BuildTarget(config, LiveSlots(a), |log|);
            RecordSliceFailure(t, config, log, limits) ==
            if target.None? then a else Rewrite(a, target.value.slot, FailedRow(target.value, limits))
  {
    var a := Reconcile(t, config, |log|);
    TargetFacts(a, config, |log|);
    var target := BuildTarget(config, LiveSlots(a), |log|);
    if target.Some? {
      var counted := target.value.(sliceFailures := target.value.sliceFailures + 1);
      RewriteTwice(a, target.value.slot, counted, FailedRow(target.value, limits));
    }
  }

  /** Recording a slice failure keeps the invariant; the target freezes right where it stood. */
  lemma {:induction false} RecordFailureKeeps(
      t: Tables, config: Config, env: Env, log: seq<Committed>, limits: SliceLimits)
    requires Inv(t, log, env.definition)
    ensures var next := RecordSliceFailure(t, config, log, limits);
            Inv(next, log, env.definition) && StepKeeps(t, next) && ActivatesReady(t, next, config.current, |log|)
  {
    ReconcileKeeps(t, config, |log|, log, env.definition);
    ReconcileActivates(t, config, log, env.definition);
    var a := Reconcile(t, config, |log|);
    RecordFailureIsRewrite(t, config, log, limits);
    TargetFacts(a, config, |log|);
    var target := BuildTarget(config, LiveSlots(a), |log|);
    if target.Some? {
      var s := target.value;
      FailedRowKeeps(a, s, log, limits, env.definition);
      StepKeepsTransitive(t, a, Rewrite(a, s.slot, FailedRow(s, limits)));
      FailureActivatesNothing(t, a, s, limits, config, |log|);
    }
  }

  lemma {:induction false} FailedRowKeeps(
      t: Tables, s: Slot, log: seq<Committed>, limits: SliceLimits, definition: Version -> Definition)
    requires Inv(t, log, definition) && t.meta.Get(s.slot) == Some(s) && s.status.Healthy?
    ensures var next := Rewrite(t, s.slot, FailedRow(s, limits)); Inv(next, log, definition) && StepKeeps(t, next)
  {
    assert SlotOk(s, log, definition);
    RewriteKeeps(t, s.slot, FailedRow(s, limits), log, definition);
  }

  lemma {:induction false} FailureActivatesNothing(
      t: Tables, a: Tables, s: Slot, limits: SliceLimits, config: Config, head: Seq)
    requires ActivatesReady(t, a, config.current, head) && a.meta.Get(s.slot) == Some(s)
    requires s.role == Active ==> s.cursor < head
    ensures ActivatesReady(t, Rewrite(a, s.slot, FailedRow(s, limits)), config.current, head)
  {
    var next := Rewrite(a, s.slot, FailedRow(s, limits));
    forall id ensures ActivatesReadyAt(t, next, config.current, head, id) {
      assert ActivatesReadyAt(t, a, config.current, head, id);
    }
  }

  lemma {:induction false} SetTwice<K(!new), V>(m: OMap<K, V>, k: K, a: V, b: V)
    ensures m.Set(k, a).Set(k, b) == m.Set(k, b)
  {
    if m.Entry? && m.key != k {
      SetTwice(m.rest, k, a, b);
    }
  }

  lemma {:induction false} RewriteTwice(t: Tables, id: SlotId, a: Slot, b: Slot)
    requires t.meta.Has(id)
    ensures Rewrite(Rewrite(t, id, a), id, b) == Rewrite(t, id, b)
  {
    SetTwice(t.meta, id, a, b);
    assert t.meta.Set(id, a).Has(id);
  }

  // ---------------------------------------------------------------------------
  // One append
  // ---------------------------------------------------------------------------

  /** Only a first version on an empty log starts active; an append removes no slot. */
  ghost predicate FirstAt(t: Tables, next: Tables, id: SlotId, log: seq<Committed>) {
    && (t.meta.Has(id) ==> next.meta.Has(id))
    && (ActiveIn(next, id) && !ActiveIn(t, id) ==> log == [] && LiveSlots(t) == [])
  }

  ghost predicate ActivatesFirst(t: Tables, next: Tables, log: seq<Committed>) {
    forall id :: FirstAt(t, next, id, log)
  }

  lemma {:induction false} AppendKeeps(
      t: Tables, config: Config, env: Env, log: seq<Committed>, appended: seq<Committed>)
    requires Inv(t, log, env.definition) && Dense(log + appended, 0)
    ensures var next := MaintainOnAppend(t, config, env, |log|, appended);
            Inv(next, log + appended, env.definition) && StepKeeps(t, next) && ActivatesFirst(t, next, log)
  {
    MaintainKeeps(t, config, env, log, appended);
    if appended == [] {
      assert log + appended == log;
    }
    forall id ensures FirstAt(t, MaintainOnAppend(t, config, env, |log|, appended), id, log) {
      AppendFirstAt(t, config, env, log, appended, id);
    }
  }

  lemma {:induction false} ReconcileFirstAt(
      t: Tables, config: Config, log: seq<Committed>, definition: Version -> Definition, id: SlotId)
    requires Inv(t, log, definition)
    ensures FirstAt(t, Reconcile(t, config, |log|), id, log)
  {
    ReconcileKeeps(t, config, |log|, log, definition);
    var row := Reconcile(t, config, |log|).meta.Get(id);
    if t.meta.Has(id) {
      assert row.Some?;
    }
  }

  lemma {:induction false} AppendFirstAt(
      t: Tables, config: Config, env: Env, log: seq<Committed>, appended: seq<Committed>, id: SlotId)
    requires Inv(t, log, env.definition) && Dense(log + appended, 0)
    ensures FirstAt(t, MaintainOnAppend(t, config, env, |log|, appended), id, log)
  {
    ReconcileFirstAt(t, config, log, env.definition, id);
    if appended != [] {
      var reconciled := Reconcile(t, config, |log|);
      MaintainKeeps(t, config, env, log, appended);
      RowAfterAppendRole(reconciled, config, env, log, appended, id);
      var row := MaintainOnAppend(t, config, env, |log|, appended).meta.Get(id);
      assert row == if reconciled.meta.Has(id)
             then Some(RowAfterAppend(reconciled.meta.Get(id).value, config, env, |log|, appended)) else None;
    }
  }

  lemma {:induction false} RowAfterAppendRole(
      t: Tables, config: Config, env: Env, log: seq<Committed>, appended: seq<Committed>, id: SlotId)
    requires Dense(log + appended, 0)
    ensures t.meta.Has(id) ==>
            RowAfterAppend(t.meta.Get(id).value, config, env, |log|, appended).role
            == t.meta.Get(id).value.role
  {
    if t.meta.Has(id) && t.meta.Get(id).value.cursor == |log| {
      assert forall i :: 0 <= i < |appended| ==> (log + appended)[|log| + i] == appended[i];
      assert Dense(appended, |log|);
      AdvancedMoves(t.meta.Get(id).value, env, appended);
    }
  }

  /** Two environments that treat one slot alike, whatever they make of every other slot and version. */
  ghost predicate AlikeFor(a: Env, b: Env, s: Slot) {
    a.definition(s.version) == b.definition(s.version) && forall cursor ::
      a.fails(s.slot, cursor) == b.fails(s.slot, cursor)
  }

  /** What the hook makes of one row of the reconciled table. */
  lemma {:induction false} RowAfterHook(
      t: Tables, config: Config, env: Env, head: Seq, appended: seq<Committed>, id: SlotId)
    requires TableOk(t)
    ensures AdvanceEach(t, LiveSlots(t), config, env, head, appended).meta.Get(id)
            == if t.meta.Has(id) then Some(RowAfterAppend(t.meta.Get(id).value, config, env, head, appended)) else None
  {
    LiveAt(t);
    AdvanceEachRows(t, LiveSlots(t), config, env, head, appended);
    if t.meta.Has(id) {
      assert t.meta.Get(id).value.slot == id;
    }
  }

  lemma {:induction false} AlikeRow(s: Slot, config: Config, a: Env, b: Env, head: Seq, appended: seq<Committed>)
    requires AlikeFor(a, b, s)
    ensures RowAfterAppend(s, config, a, head, appended) == RowAfterAppend(s, config, b, head, appended)
  {
    assert PlanFor(s, a, appended) == PlanFor(s, b, appended);
  }

  /** What a slot becomes depends on its own version's definition and its own writes alone. */
  lemma {:induction false} SlotsFailIndependently(
      t: Tables, config: Config, a: Env, b: Env, log: seq<Committed>, appended: seq<Committed>, id: SlotId)
    requires Inv(t, log, a.definition) && appended != []
    requires var reconciled := Reconcile(t, config, |log|); reconciled.meta.Has(id) ==>
             AlikeFor(a, b, reconciled.meta.Get(id).value)
    ensures MaintainOnAppend(t, config, a, |log|, appended).meta.Get(id)
            == MaintainOnAppend(t, config, b, |log|, appended).meta.Get(id)
  {
    ReconcileKeeps(t, config, |log|, log, a.definition);
    var reconciled := Reconcile(t, config, |log|);
    RowAfterHook(reconciled, config, a, |log|, appended, id);
    RowAfterHook(reconciled, config, b, |log|, appended, id);
    if reconciled.meta.Has(id) {
      AlikeRow(reconciled.meta.Get(id).value, config, a, b, |log|, appended);
    }
  }

  // ---------------------------------------------------------------------------
  // Runs
  // ---------------------------------------------------------------------------

  /** The log and the slot table kept beside it. */
  datatype World = World(log: seq<Committed>, tables: Tables)

  /**
   * What can happen to it, each in one transaction under the release of the moment. A step that
   * crashes or whose transaction rolls back leaves the world as it was.
   */
  datatype Step =
    | Append(config: Config, env: Env, events: seq<Committed>)
    | Read(config: Config)
    | Slice(config: Config, env: Env, limits: SliceLimits)
    | SliceFailed(config: Config, limits: SliceLimits)
    | RolledBack

  function Next(w: World, step: Step): World {
    match step
    case Append(config, env, events) => World(w.log + events, MaintainOnAppend(w.tables, config, env, |w.log|, events))
    case Read(config) => w.(tables := Reconcile(w.tables, config, |w.log|))
    case Slice(config, env, limits) => w.(tables := RunSlice(w.tables, config, env, w.log, limits))
    case SliceFailed(config, limits) => w.(tables := RecordSliceFailure(w.tables, config, w.log, limits))
    case RolledBack => w
  }

  /** A version names the same definition throughout, and appended events take the next positions. */
  ghost predicate Possible(w: World, step: Step, definition: Version -> Definition) {
    match step
    case Append(_, env, events) => env.definition == definition && Dense(w.log + events, 0)
    case Slice(_, env, _) => env.definition == definition && FairPick(env.pick)
    case _ => true
  }

  function Run(w: World, steps: seq<Step>): World {
    if steps == [] then w else Next(Run(w, steps[..|steps| - 1]), steps[|steps| - 1])
  }

  ghost predicate PossibleRun(w: World, steps: seq<Step>, definition: Version -> Definition) {
    steps != [] ==>
      && PossibleRun(w, steps[..|steps| - 1], definition)
      && Possible(Run(w, steps[..|steps| - 1]), steps[|steps| - 1], definition)
  }

  lemma {:induction false} StepKeepsRefl(t: Tables)
    ensures StepKeeps(t, t)
  {
  }

  /** The rows a step may delete. */
  function DeletionBudget(step: Step): nat {
    if step.Slice? then step.limits.maxDeletedRows else 0
  }

  lemma {:induction false} AppendRemovesNothing(
      t: Tables, config: Config, env: Env, log: seq<Committed>, appended: seq<Committed>)
    requires Inv(t, log, env.definition) && Dense(log + appended, 0)
    ensures RemovesWithin(t, MaintainOnAppend(t, config, env, |log|, appended), 0)
  {
    AppendKeeps(t, config, env, log, appended);
    var next := MaintainOnAppend(t, config, env, |log|, appended);
    assert forall id :: FirstAt(t, next, id, log);
    forall id {:trigger t.meta.Get(id)} | t.meta.Has(id) ensures next.meta.Has(id) {
      assert FirstAt(t, next, id, log);
    }
  }

  lemma {:induction false} FailureRemovesNothing(
      t: Tables, config: Config, log: seq<Committed>, limits: SliceLimits, definition: Version -> Definition)
    requires Inv(t, log, definition)
    ensures RemovesWithin(t, RecordSliceFailure(t, config, log, limits), 0)
  {
    ReconcileKeeps(t, config, |log|, log, definition);
    RecordFailureIsRewrite(t, config, log, limits);
  }

  lemma {:induction false} NextKeeps(w: World, step: Step, definition: Version -> Definition)
    requires Inv(w.tables, w.log, definition) && Possible(w, step, definition)
    ensures Inv(Next(w, step).tables, Next(w, step).log, definition) && StepKeeps(w.tables, Next(w, step).tables)
    ensures RemovesWithin(w.tables, Next(w, step).tables, DeletionBudget(step))
    ensures w.log <= Next(w, step).log
  {
    match step
    case Append(config, env, events) =>
      AppendKeeps(w.tables, config, env, w.log, events);
      AppendRemovesNothing(w.tables, config, env, w.log, events);
    case Read(config) => ReconcileKeeps(w.tables, config, |w.log|, w.log, definition);
    case Slice(config, env, limits) => SliceKeeps(w.tables, config, env, w.log, limits);
    case SliceFailed(config, limits) =>
      RecordFailureKeeps(w.tables, config, Env(definition, e => true, (a, b) => false, (a, b) => {}), w.log, limits);
      FailureRemovesNothing(w.tables, config, w.log, limits, definition);
    case RolledBack => StepKeepsRefl(w.tables);
  }

  /** The step is a slice that removes the slot, whose rows it may delete. */
  ghost predicate RemovedBy(w: World, step: Step, id: SlotId) {
    && step.Slice? && w.tables.meta.Has(id) && !Next(w, step).tables.meta.Has(id)
    && RowCount(w.tables.meta.Get(id).value) < step.limits.maxDeletedRows
  }

  /** Each slot that is gone after the run was removed by one of its slices. */
  ghost predicate RemovedInRun(w: World, steps: seq<Step>, id: SlotId) {
    exists k :: 0 <= k < |steps| && RemovedBy(Run(w, steps[..k]), steps[k], id)
  }

  lemma {:induction false} RemovedLater(w: World, steps: seq<Step>, id: SlotId)
    requires steps != [] && RemovedInRun(w, steps[..|steps| - 1], id)
    ensures RemovedInRun(w, steps, id)
  {
    var front := steps[..|steps| - 1];
    var k :| 0 <= k < |front| && RemovedBy(Run(w, front[..k]), front[k], id);
    assert front[..k] == steps[..k] && front[k] == steps[k];
    assert RemovedBy(Run(w, steps[..k]), steps[k], id);
  }

  lemma {:induction false} RemovedLast(w: World, steps: seq<Step>, definition: Version -> Definition, id: SlotId)
    requires steps != []
    requires var before := Run(w, steps[..|steps| - 1]);
             && RemovesWithin(before.tables, Run(w, steps).tables, DeletionBudget(steps[|steps| - 1]))
             && before.tables.meta.Has(id)
    requires !Run(w, steps).tables.meta.Has(id)
    ensures RemovedInRun(w, steps, id)
  {
    var before := Run(w, steps[..|steps| - 1]);
    assert before.tables.meta.Get(id).Some?;
    assert RemovedBy(before, steps[|steps| - 1], id);
  }

  /**
   * In every interleaving of appends, reads, slices, failures and releases: each live slot holds the
   * one-pass projection of the log through its cursor, which is never past the head; at most one slot
   * is active and one building; a slot that froze keeps what it had until it is retired; and a slot is
   * gone only by a slice that could delete all its rows.
   */
  lemma {:induction false} RunKeeps(w: World, steps: seq<Step>, definition: Version -> Definition)
    requires Inv(w.tables, w.log, definition) && PossibleRun(w, steps, definition)
    ensures Inv(Run(w, steps).tables, Run(w, steps).log, definition)
    ensures StepKeeps(w.tables, Run(w, steps).tables)
    ensures forall id :: w.tables.meta.Has(id) && !Run(w, steps).tables.meta.Has(id) ==> RemovedInRun(w, steps, id)
  {
    if steps == [] {
      StepKeepsRefl(w.tables);
    } else {
      var front := steps[..|steps| - 1];
      RunKeeps(w, front, definition);
      NextKeeps(Run(w, front), steps[|steps| - 1], definition);
      StepKeepsTransitive(w.tables, Run(w, front).tables, Run(w, steps).tables);
      forall id | w.tables.meta.Has(id) && !Run(w, steps).tables.meta.Has(id) ensures RemovedInRun(w, steps, id) {
        if Run(w, front).tables.meta.Has(id) {
          RemovedLast(w, steps, definition, id);
        } else {
          RemovedLater(w, steps, id);
        }
      }
    }
  }

  /** A store starts with no slots, whatever its log holds. */
  lemma {:induction false} StartOk(log: seq<Committed>, definition: Version -> Definition)
    requires Dense(log, 0)
    ensures Inv(NO_SLOTS, log, definition)
  {
  }
}
