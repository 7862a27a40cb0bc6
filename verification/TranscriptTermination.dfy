/** The measure every builder slice with work left strictly lowers. */
module TranscriptTermination {
  import opened Collections
  import opened Events
  import opened TranscriptPlan
  import opened TranscriptSlots
  import opened TranscriptInvariants
  import opened TranscriptSlices
  import opened TranscriptRuns
  import opened TranscriptProgress

  // ---------------------------------------------------------------------------
  // Sums over the slot table
  // ---------------------------------------------------------------------------

  lemma {:induction false} SumOfSet<K(!new), V>(m: OMap<K, V>, k: K, v: V, f: V -> nat)
    requires m.Has(k)
    ensures SumOf(m.Set(k, v).Values(), f) == SumOf(m.Values(), f) - f(m.Get(k).value) + f(v)
  {
    if m.key == k {
      assert m.Set(k, v).Values()[1..] == m.rest.Values() == m.Values()[1..];
    } else {
      SumOfSet(m.rest, k, v, f);
      assert m.Set(k, v).Values()[1..] == m.rest.Set(k, v).Values();
      assert m.Values()[1..] == m.rest.Values();
    }
  }

  lemma {:induction false} SumOfDelete<K(!new), V>(m: OMap<K, V>, k: K, f: V -> nat)
    requires m.Unique() && m.Has(k)
    ensures SumOf(m.Delete(k).Values(), f) == SumOf(m.Values(), f) - f(m.Get(k).value)
  {
    assert m.Values()[1..] == m.rest.Values();
    if m.key == k {
      DeleteAbsent(m.rest, k);
    } else {
      SumOfDelete(m.rest, k, f);
      assert m.Delete(k).Values()[1..] == m.rest.Delete(k).Values();
    }
  }

  function SumSlots(t: Tables, f: Slot -> nat): nat {
    SumOf(t.meta.Values(), f)
  }

  lemma {:induction false} SumRewrite(t: Tables, s: Slot, next: Slot, f: Slot -> nat)
    requires t.meta.Get(s.slot) == Some(s)
    ensures SumSlots(Rewrite(t, s.slot, next), f) == SumSlots(t, f) - f(s) + f(next)
  {
    SumOfSet(t.meta, s.slot, next, f);
  }

  // ---------------------------------------------------------------------------
  // The measure
  // ---------------------------------------------------------------------------

  ghost function Unreconciled(t: Tables, config: Config): nat {
    if Reconciled(t, config.current) then 0 else 1
  }

  /** A build that can still be advanced. */
  ghost predicate BuildOutstanding(t: Tables, config: Config) {
    exists id :: t.meta.Has(id) && BuildableBuilding(config)(t.meta.Get(id).value)
  }

  ghost function Outstanding(t: Tables, config: Config): nat {
    if BuildOutstanding(t, config) then 1 else 0
  }

  /** Events a live healthy version is behind by. */
  function Behind(config: Config, head: Seq): Slot -> nat {
    (s: Slot) =>
      var behind: nat := if s.Live() && Buildable(config, s) && s.cursor < head then head - s.cursor else 0;
      behind
  }

  /** A retired slot and its rows. */
  function Leftover(): Slot -> nat {
    (s: Slot) =>
      var left: nat := if s.role == Retired then 1 + RowCount(s) else 0;
      left
  }

  /** Lexicographic: versions to reconcile, a build outstanding, events to project, retired rows and slots to delete. */
  ghost predicate Lower(next: Tables, t: Tables, config: Config, head: Seq) {
    var a, b := Unreconciled(next, config), Unreconciled(t, config);
    var c, d := Outstanding(next, config), Outstanding(t, config);
    var e, f := SumSlots(next, Behind(config, head)), SumSlots(t, Behind(config, head));
    || a < b
    || (a == b && c < d)
    || (a == b && c == d && e < f)
    || (a == b && c == d && e == f && SumSlots(next, Leftover()) < SumSlots(t, Leftover()))
  }

  // ---------------------------------------------------------------------------
  // Cleaning up
  // ---------------------------------------------------------------------------

  lemma {:induction false} RetiredCounts(s: Slot, config: Config, head: Seq)
    requires s.role == Retired
    ensures Leftover()(s) == 1 + RowCount(s) && Behind(config, head)(s) == 0
  {
  }

  lemma {:induction false} DeleteLowers(t: Tables, s: Slot, env: Env, budget: nat, config: Config, head: Seq)
    requires FairPick(env.pick) && budget > 0
    requires t.meta.Get(s.slot) == Some(s) && s.role == Retired
    ensures var next := DeleteRetiredRows(t, s, env, budget);
            && SumSlots(next, Leftover()) < SumSlots(t, Leftover())
            && SumSlots(next, Behind(config, head)) == SumSlots(t, Behind(config, head))
  {
    DeletionFacts(s, env, budget);
    var left := s.(content := LeftRows(s, env, budget));
    RetiredCounts(s, config, head);
    RetiredCounts(left, config, head);
    if Deleted(s, env, budget) < budget {
      SumOfDelete(t.meta, s.slot, Leftover());
      SumOfDelete(t.meta, s.slot, Behind(config, head));
    } else {
      SumRewrite(t, s, left, Leftover());
      SumRewrite(t, s, left, Behind(config, head));
    }
  }

  lemma {:induction false} CleanUpLowers(t: Tables, slots: seq<Slot>, env: Env, budget: int, config: Config, head: Seq)
    requires FairPick(env.pick) && ShowsRetired(t, slots)
    ensures var next := CleanUp(t, slots, env, budget);
            && SumSlots(next, Leftover()) <= SumSlots(t, Leftover())
            && (budget > 0 && (exists s :: s in slots && s.role == Retired) ==>
              SumSlots(next, Leftover()) < SumSlots(t, Leftover()))
            && SumSlots(next, Behind(config, head)) == SumSlots(t, Behind(config, head))
    decreases |slots|
  {
    if slots != [] && budget > 0 {
      var s := slots[0];
      assert s in slots;
      assert forall x :: x in slots <==> x == s || x in slots[1..];
      ShowsRest(t, slots, env, budget);
      if s.role != Retired {
        CleanUpLowers(t, slots[1..], env, budget, config, head);
      } else {
        DeleteLowers(t, s, env, budget, config, head);
        CleanUpLowers(DeleteRetiredRows(t, s, env, budget), slots[1..], env, budget - Deleted(s, env, budget), config,
          head);
      }
    }
  }

  /** Cleaning up changes no live slot, so only the last part of the measure. */
  lemma {:induction false} CleanedKeepsRest(t: Tables, next: Tables, config: Config)
    requires Cleaned(t, next)
    ensures Reconciled(t, config.current) ==> Reconciled(next, config.current)
    ensures BuildOutstanding(next, config) ==> BuildOutstanding(t, config)
    ensures BuildOutstanding(t, config) ==> BuildOutstanding(next, config)
  {
    if Reconciled(t, config.current) {
      var id :| t.meta.Has(id) && t.meta.Get(id).value.Live() && t.meta.Get(id).value.version == config.current;
      assert next.meta.Get(id) == t.meta.Get(id);
      forall x | next.meta.Has(x) ensures !Stale(next.meta.Get(x).value, config.current) {
        assert t.meta.Has(x) && next.meta.Get(x).value.role == t.meta.Get(x).value.role;
        assert t.meta.Get(x).value.Live() ==> next.meta.Get(x) == t.meta.Get(x);
      }
    }
    if BuildOutstanding(next, config) {
      var id :| next.meta.Has(id) && BuildableBuilding(config)(next.meta.Get(id).value);
      assert t.meta.Has(id) && t.meta.Get(id).value.Live() && t.meta.Get(id) == next.meta.Get(id);
    }
    if BuildOutstanding(t, config) {
      var id :| t.meta.Has(id) && BuildableBuilding(config)(t.meta.Get(id).value);
      assert next.meta.Get(id) == t.meta.Get(id);
    }
  }

  // ---------------------------------------------------------------------------
  // Building
  // ---------------------------------------------------------------------------

  lemma {:induction false} ActivateSum(t: Tables, slots: seq<Slot>, id: SlotId, head: Seq, config: Config)
    requires TableOk(t) && ShowsActive(t, slots)
    ensures SumSlots(Activate(t, slots, id, head), Behind(config, head)) <= SumSlots(t, Behind(config, head))
  {
    var f := Behind(config, head);
    if Ready(t, id, head) {
      var previous := Find(slots, IsActive);
      var retired := t;
      if previous.Some? {
        var p := t.meta.Get(previous.value.slot).value;
        retired := SetRole(t, previous.value.slot, Retired);
        SumRewrite(t, p, p.(role := Retired), f);
        assert retired.meta == t.meta.Set(p.slot, p.(role := Retired));
      }
      var s := t.meta.Get(id).value;
      assert retired.meta.Get(id) == Some(s);
      SumRewrite(retired, s, s.(role := Active), f);
      assert SetRole(retired, id, Active) == Rewrite(retired, id, s.(role := Active));
    }
  }

  /** Events left to project never grow, and shrink unless the target was at the head. */
  lemma {:induction false} BuildSum(t: Tables, config: Config, env: Env, log: seq<Committed>, limits: SliceLimits)
    requires Inv(t, log, env.definition) && BuildTarget(config, LiveSlots(t), |log|).Some?
    ensures var f, target := Behind(config, |log|), BuildTarget(config, LiveSlots(t), |log|).value;
            var next := BuildAndActivate(t, config, env, log, limits);
            && SumSlots(next, f) <= SumSlots(t, f)
            && (target.cursor < |log| ==> SumSlots(next, f) < SumSlots(t, f))
  {
    var target := BuildTarget(config, LiveSlots(t), |log|).value;
    TargetFacts(t, config, |log|);
    var built := BuiltRow(target, env, log, limits);
    BuiltRowKeeps(t, target, env, log, limits);
    var middle := Rewrite(t, target.slot, built);
    SumRewrite(t, target, built, Behind(config, |log|));
    ListsActive(t);
    ShownStill(t, middle, LiveSlots(t), target.slot);
    ActivateSum(middle, LiveSlots(t), target.slot, |log|, config);
  }

  /** After a slice built its target, a build is outstanding only if there was one, and it is not done. */
  lemma {:induction false} BuildOutstandingAfter(
      t: Tables, config: Config, env: Env, log: seq<Committed>, limits: SliceLimits)
    requires Inv(t, log, env.definition) && BuildTarget(config, LiveSlots(t), |log|).Some?
    ensures var target, next := BuildTarget(config, LiveSlots(t), |log|).value,
            BuildAndActivate(t, config, env, log, limits);
            && (BuildOutstanding(next, config) ==> BuildOutstanding(t, config))
            && (target.cursor == |log| ==> BuildOutstanding(t, config) && !BuildOutstanding(next, config))
  {
    var target := BuildTarget(config, LiveSlots(t), |log|).value;
    TargetFacts(t, config, |log|);
    BuildAndActivateKeeps(t, config, env, log, limits);
    var next := BuildAndActivate(t, config, env, log, limits);
    if target.role == Building {
      assert BuildableBuilding(config)(t.meta.Get(target.slot).value);
    }
    forall id | next.meta.Has(id) && BuildableBuilding(config)(next.meta.Get(id).value)
      ensures BuildOutstanding(t, config) && target.cursor != |log|
    {
      if id != target.slot {
        assert t.meta.Get(id) == next.meta.Get(id);
        assert BuildableBuilding(config)(t.meta.Get(id).value);
      }
    }
  }

  lemma {:induction false} BuildKeepsReconciled(
      t: Tables, config: Config, env: Env, log: seq<Committed>, limits: SliceLimits)
    requires Inv(t, log, env.definition) && Reconciled(t, config.current)
    ensures Reconciled(BuildAndActivate(t, config, env, log, limits), config.current)
  {
    BuildAndActivateKeeps(t, config, env, log, limits);
    TargetFacts(t, config, |log|);
    var target, next := BuildTarget(config, LiveSlots(t), |log|), BuildAndActivate(t, config, env, log, limits);
    if target.Some? {
      var id :| t.meta.Has(id) && t.meta.Get(id).value.Live() && t.meta.Get(id).value.version == config.current;
      forall x | next.meta.Has(x) ensures !Stale(next.meta.Get(x).value, config.current) {
        assert t.meta.Has(x) && !Stale(t.meta.Get(x).value, config.current);
      }
      if target.value.role == Building {
        BuildingIsCurrent(t, config, target.value);
        assert next.meta.Get(target.value.slot).value.Live()
               && next.meta.Get(target.value.slot).value.version == config.current;
      } else {
        assert next.meta.Get(id).value.Live() && next.meta.Get(id).value.version == config.current;
      }
    }
  }

  // ---------------------------------------------------------------------------
  // Slices
  // ---------------------------------------------------------------------------

  lemma {:induction false} SliceReconciles(
      t: Tables, config: Config, env: Env, log: seq<Committed>, limits: SliceLimits)
    requires Inv(t, log, env.definition) && FairPick(env.pick)
    ensures Reconciled(RunSlice(t, config, env, log, limits), config.current)
  {
    SliceParts(t, config, env, log, limits);
    var a := Reconcile(t, config, |log|);
    BuildKeepsReconciled(a, config, env, log, limits);
    CleanedKeepsRest(BuildAndActivate(a, config, env, log, limits), RunSlice(t, config, env, log, limits), config);
  }

  /** With a target the build part of the measure goes down, whatever the cleanup then does. */
  lemma {:induction false} BuildingLowers(t: Tables, config: Config, env: Env, log: seq<Committed>, limits: SliceLimits)
    requires Inv(t, log, env.definition) && FairPick(env.pick) && Reconciled(t, config.current)
    requires BuildTarget(config, LiveSlots(t), |log|).Some?
    ensures Lower(RunSlice(t, config, env, log, limits), t, config, |log|)
  {
    var target := BuildTarget(config, LiveSlots(t), |log|).value;
    var b, next := BuildAndActivate(t, config, env, log, limits), RunSlice(t, config, env, log, limits);
    ReconcileNothing(t, config, |log|);
    SliceParts(t, config, env, log, limits);
    SliceReconciles(t, config, env, log, limits);
    TargetFacts(t, config, |log|);
    BuildSum(t, config, env, log, limits);
    BuildOutstandingAfter(t, config, env, log, limits);
    CleanedKeepsRest(b, next, config);
    ListsRetired(b);
    CleanUpLowers(b, b.meta.Values(), env, limits.maxDeletedRows, config, |log|);
    assert SlotOk(t.meta.Get(target.slot).value, log, env.definition);
  }

  /** Without a target a retired slot must be left, and the cleanup deletes some of it. */
  lemma {:induction false} CleaningLowers(t: Tables, config: Config, env: Env, log: seq<Committed>, limits: SliceLimits)
    requires Inv(t, log, env.definition) && FairPick(env.pick) && Reconciled(t, config.current)
    requires BuildTarget(config, LiveSlots(t), |log|).None? && AnyRetired(t)
    ensures Lower(RunSlice(t, config, env, log, limits), t, config, |log|)
  {
    var next := RunSlice(t, config, env, log, limits);
    ReconcileNothing(t, config, |log|);
    SliceParts(t, config, env, log, limits);
    SliceReconciles(t, config, env, log, limits);
    CleanedKeepsRest(t, next, config);
    ListsRetired(t);
    var id :| t.meta.Has(id) && t.meta.Get(id).value.role == Retired;
    assert t.meta.Get(id).value in t.meta.Values();
    CleanUpLowers(t, t.meta.Values(), env, limits.maxDeletedRows, config, |log|);
  }

  /** A slice that leaves work to do strictly lowered the measure. */
  lemma {:induction false} SliceLowersMeasure(
      t: Tables, config: Config, env: Env, log: seq<Committed>, limits: SliceLimits)
    requires Inv(t, log, env.definition) && FairPick(env.pick)
    requires HasPendingWork(RunSlice(t, config, env, log, limits), config, |log|)
    ensures Lower(RunSlice(t, config, env, log, limits), t, config, |log|)
  {
    SliceReconciles(t, config, env, log, limits);
    if Reconciled(t, config.current) {
      if BuildTarget(config, LiveSlots(t), |log|).Some? {
        BuildingLowers(t, config, env, log, limits);
      } else if AnyRetired(t) {
        CleaningLowers(t, config, env, log, limits);
      } else {
        ReconcileNothing(t, config, |log|);
        CleanUpWithoutRetired(t, env, limits.maxDeletedRows);
        PendingExactly(t, config, |log|);
      }
    }
  }

  function SliceStep(config: Config, env: Env, log: seq<Committed>, limits: SliceLimits): Tables -> Tables {
    (t: Tables) => RunSlice(t, config, env, log, limits)
  }

  /** So many slices in a row. */
  function RunSlices(t: Tables, config: Config, env: Env, log: seq<Committed>, limits: SliceLimits, n: nat): Tables {
    Iterate(SliceStep(config, env, log, limits), t, n)
  }

  /** Without appends and release changes, finitely many slices leave nothing to do. */
  lemma {:induction false} SlicesStop(
      t: Tables, config: Config, env: Env, log: seq<Committed>, limits: SliceLimits) returns (n: nat)
    requires Inv(t, log, env.definition) && FairPick(env.pick)
    ensures n > 0 && !HasPendingWork(RunSlices(t, config, env, log, limits, n), config, |log|)
    decreases Unreconciled(t, config), Outstanding(t, config), SumSlots(t, Behind(config, |log|)),
              SumSlots(t, Leftover())
  {
    var next := RunSlice(t, config, env, log, limits);
    assert RunSlices(next, config, env, log, limits, 0) == next;
    if HasPendingWork(next, config, |log|) {
      SliceLowersMeasure(t, config, env, log, limits);
      SliceKeeps(t, config, env, log, limits);
      var rest := SlicesStop(next, config, env, log, limits);
      n := rest + 1;
    } else {
      n := 1;
    }
  }
}
