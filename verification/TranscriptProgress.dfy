/** Builder slices make progress, stop, and leave exactly what status calls converged. */
module TranscriptProgress {
  import opened Collections
  import opened Events
  import opened TranscriptPlan
  import opened TranscriptSlots
  import opened TranscriptInvariants
  import opened TranscriptSlices
  import opened TranscriptRuns

  // ---------------------------------------------------------------------------
  // When there is nothing to reconcile or clean up
  // ---------------------------------------------------------------------------

  lemma {:induction false} RetireStaleNothing(t: Tables, slots: seq<Slot>, current: Version)
    requires forall s :: s in slots ==> !Stale(s, current)
    ensures RetireStale(t, slots, current) == t
  {
    if slots != [] {
      assert slots[|slots| - 1] in slots;
      assert forall s :: s in slots[..|slots| - 1] ==> s in slots;
      RetireStaleNothing(t, slots[..|slots| - 1], current);
    }
  }

  /** Reconciling twice is reconciling once. */
  lemma {:induction false} ReconcileNothing(t: Tables, config: Config, head: Seq)
    requires TableOk(t) && RolesOk(t) && Reconciled(t, config.current)
    ensures LiveSlots(t) != [] && Reconcile(t, config, head) == t
  {
    LiveAt(t);
    LiveConditions(t, config);
    forall s | s in LiveSlots(t) ensures !Stale(s, config.current) {
      assert t.meta.Get(s.slot) == Some(s);
    }
    RetireStaleNothing(t, LiveSlots(t), config.current);
    var id :| t.meta.Has(id) && t.meta.Get(id).value.Live() && t.meta.Get(id).value.version == config.current;
    assert t.meta.Get(id).value.role == Active || t.meta.Get(id).value.role == Building;
  }

  ghost predicate AnyRetired(t: Tables) {
    exists id :: t.meta.Has(id) && t.meta.Get(id).value.role == Retired
  }

  lemma {:induction false} RetiredListed(t: Tables)
    requires TableOk(t)
    ensures TranscriptSlots.Has(t.meta.Values(), IsRetired) <==> AnyRetired(t)
  {
    ListsRetired(t);
    if TranscriptSlots.Has(t.meta.Values(), IsRetired) {
      var s := Find(t.meta.Values(), IsRetired).value;
      ValueAt(t, s);
      assert t.meta.Get(s.slot) == Some(s);
    }
    if AnyRetired(t) {
      var id :| t.meta.Has(id) && t.meta.Get(id).value.role == Retired;
      assert t.meta.Get(id).value in t.meta.Values() && IsRetired(t.meta.Get(id).value);
    }
  }

  /**
   * With something live, work is pending exactly when versions disagree, a build is outstanding or a
   * retired slot is left.
   */
  lemma {:induction false} PendingExactly(t: Tables, config: Config, head: Seq)
    requires TableOk(t) && RolesOk(t) && LiveSlots(t) != []
    ensures HasPendingWork(t, config, head)
            <==> AnyRetired(t) || !Reconciled(t, config.current) || BuildTarget(config, LiveSlots(t), head).Some?
  {
    RetiredListed(t);
    LiveAt(t);
    LiveConditions(t, config);
    var live := LiveSlots(t);
    if TranscriptSlots.Has(live, StaleBuilding(config.current)) {
      var s := Find(live, StaleBuilding(config.current)).value;
      assert t.meta.Get(s.slot) == Some(s) && Stale(s, config.current);
    } else {
      forall id | t.meta.Has(id) ensures !Stale(t.meta.Get(id).value, config.current) {
        if t.meta.Get(id).value.role == Building {
          assert t.meta.Get(id).value in live;
          assert !StaleBuilding(config.current)(t.meta.Get(id).value);
        }
      }
    }
  }

  lemma {:induction false} CleanUpNothing(t: Tables, slots: seq<Slot>, env: Env, budget: int)
    requires forall s :: s in slots ==> s.role != Retired
    ensures CleanUp(t, slots, env, budget) == t
    decreases |slots|
  {
    if slots != [] {
      assert slots[0] in slots;
      assert forall s :: s in slots[1..] ==> s in slots;
      CleanUpNothing(t, slots[1..], env, budget);
    }
  }

  lemma {:induction false} CleanUpWithoutRetired(t: Tables, env: Env, budget: int)
    requires TableOk(t) && !AnyRetired(t)
    ensures CleanUp(t, t.meta.Values(), env, budget) == t
  {
    forall s | s in t.meta.Values() ensures s.role != Retired {
      ValueAt(t, s);
      assert t.meta.Has(s.slot);
    }
    CleanUpNothing(t, t.meta.Values(), env, budget);
  }

  /**
   * Without pending work a slice changes no slot and no row, with one exception: a store that has no
   * slot at all and an empty log gets its first version, active at position 0.
   */
  lemma {:induction false} NoPendingWorkChangesNothingExactly(
      t: Tables, config: Config, env: Env, log: seq<Committed>, limits: SliceLimits)
    requires Inv(t, log, env.definition) && !HasPendingWork(t, config, |log|)
    ensures RunSlice(t, config, env, log, limits) == t <==> LiveSlots(t) != []
    ensures LiveSlots(t) == [] ==>
              t.meta == Empty && log == [] && RunSlice(t, config, env, log, limits)
                == InsertSlot(t, config.current, Active)
  {
    RetiredListed(t);
    if LiveSlots(t) != [] {
      PendingExactly(t, config, |log|);
      ReconcileNothing(t, config, |log|);
      CleanUpWithoutRetired(t, env, limits.maxDeletedRows);
    } else {
      FirstVersion(t, config, env, log, limits);
    }
  }

  lemma {:induction false} FirstVersion(t: Tables, config: Config, env: Env, log: seq<Committed>, limits: SliceLimits)
    requires Inv(t, log, env.definition) && LiveSlots(t) == [] && !AnyRetired(t) && log == []
    ensures t.meta == Empty && RunSlice(t, config, env, log, limits) == InsertSlot(t, config.current, Active)
    ensures InsertSlot(t, config.current, Active) != t
  {
    LiveAt(t);
    if t.meta.Entry? {
      assert t.meta.Has(t.meta.key);
    }
    var next := InsertSlot(t, config.current, Active);
    ReconcileKeeps(t, config, 0, log, env.definition);
    assert Reconcile(t, config, 0) == next;
    var s := Slot(t.nextSlot, config.current, Active, 0, Healthy, 0, NO_ROWS);
    assert next.meta == Entry(t.nextSlot, s, Empty) && next.meta.Values() == [s];
    assert LiveSlots(next) == [s];
    assert BuildTarget(config, [s], 0).None?;
    CleanUpWithoutRetired(next, env, limits.maxDeletedRows);
  }

  // ---------------------------------------------------------------------------
  // Convergence
  // ---------------------------------------------------------------------------

  /** What `status` reports: nothing pending, and the current version active and healthy. */
  predicate Converged(t: Tables, config: Config, head: Seq) {
    && !HasPendingWork(t, config, head)
    && var active := Find(t.meta.Values(), IsActive);
       active.Some? && active.value.version == config.current && active.value.status.Healthy?
  }

  /** Convergence means exactly one slot, holding the projection of the whole log under the current definition. */
  lemma {:induction false} ConvergedHoldsWholeLog(
      t: Tables, config: Config, log: seq<Committed>, definition: Version -> Definition)
    requires Inv(t, log, definition) && Converged(t, config, |log|)
    ensures exists id :: t.meta.Has(id) && (forall x :: t.meta.Has(x) ==> x == id)
              && t.meta.Get(id).value.role == Active && t.meta.Get(id).value.version == config.current
              && t.meta.Get(id).value.cursor == |log|
              && Project(definition(config.current), NO_ROWS, log) == Some(t.meta.Get(id).value.content)
  {
    var s := Find(t.meta.Values(), IsActive).value;
    ValueAt(t, s);
    LiveAt(t);
    RetiredListed(t);
    assert s in LiveSlots(t);
    PendingExactly(t, config, |log|);
    TargetFacts(t, config, |log|);
    assert t.meta.Has(s.slot) && !BuildableBehind(config, |log|)(t.meta.Get(s.slot).value);
    assert log[..|log|] == log;
    forall x | t.meta.Has(x) ensures x == s.slot {
      OnlyTheActive(t, config, s.slot, x);
    }
  }

  lemma {:induction false} OnlyTheActive(t: Tables, config: Config, a: SlotId, x: SlotId)
    requires TableOk(t) && RolesOk(t) && !AnyRetired(t) && Reconciled(t, config.current)
    requires t.meta.Has(a) && t.meta.Get(a).value.role == Active && t.meta.Get(a).value.version == config.current
    requires t.meta.Has(x)
    ensures x == a
  {
    assert !Stale(t.meta.Get(x).value, config.current);
    assert t.meta.Get(x).value.role != Retired;
  }
}
