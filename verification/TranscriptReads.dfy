/** What a window read serves of the stored versions, and how it settles once the builder is done. */
module TranscriptReads {
  import opened Collections
  import opened Events
  import opened TranscriptPlan
  import opened TranscriptSlots
  import opened TranscriptInvariants
  import opened TranscriptSlices
  import opened TranscriptRuns
  import opened TranscriptProgress
  import opened TranscriptTermination

  datatype Readiness = Current | UpdatingHistory | StillBuilding | Degraded(failedAtSeq: Seq) | Unreadable

  /** The rows a window is selected from, the position they go through, and how they read. */
  datatype Cut = Cut(version: Version, throughSeq: Seq, content: Content, readiness: Readiness)

  predicate IsBuilding(s: Slot) {
    s.role == Building
  }

  function ReadinessOf(s: Slot, carried: bool): Readiness {
    if !carried then UpdatingHistory
    else
      match s.status
      case Healthy => Current
      case Frozen(failedAtSeq) => Degraded(failedAtSeq)
  }

  /** Nothing is served yet: building, or unreadable once the build of the current version froze. */
  function InactiveCut(current: Version, build: Option<Slot>): Cut {
    var failed := build.Some? && build.value.version == current && build.value.status.Frozen?;
    Cut(current, 0, NO_ROWS, if failed then Unreadable else StillBuilding)
  }

  /** One read of the active version; an active version behind the head is never current. */
  function ReadCut(t: Tables, config: Config, head: Seq, decodes: Slot -> bool): Cut {
    var slots := t.meta.Values();
    var active := Find(slots, IsActive);
    if active.None? then InactiveCut(config.current, Find(slots, IsBuilding))
    else
      var s := active.value;
      if !decodes(s) then Cut(s.version, s.cursor, NO_ROWS, Unreadable)
      else
        var readiness := ReadinessOf(s, config.Carries(s.version));
        Cut(s.version, s.cursor, s.content, if readiness == Current && s.cursor < head
          then UpdatingHistory
          else readiness)
  }

  lemma {:induction false} ActiveFound(t: Tables)
    requires TableOk(t) && RolesOk(t)
    ensures var active := Find(t.meta.Values(), IsActive);
            && (active.Some? ==> t.meta.Get(active.value.slot) == active && active.value.role == Active)
            && (forall id :: t.meta.Has(id) && t.meta.Get(id).value.role == Active ==> active == t.meta.Get(id))
  {
    var active := Find(t.meta.Values(), IsActive);
    if active.Some? {
      ValueAt(t, active.value);
    }
    forall id | t.meta.Has(id) && t.meta.Get(id).value.role == Active ensures active == t.meta.Get(id) {
      ValueAt(t, t.meta.Get(id).value);
    }
  }

  lemma {:induction false} BuildFound(t: Tables)
    requires TableOk(t) && RolesOk(t)
    ensures var build := Find(t.meta.Values(), IsBuilding);
            && (build.Some? ==> t.meta.Get(build.value.slot) == build && build.value.role == Building)
            && (forall id :: t.meta.Has(id) && t.meta.Get(id).value.role == Building ==> build == t.meta.Get(id))
  {
    var build := Find(t.meta.Values(), IsBuilding);
    if build.Some? {
      ValueAt(t, build.value);
    }
    forall id | t.meta.Has(id) && t.meta.Get(id).value.role == Building ensures build == t.meta.Get(id) {
      ValueAt(t, t.meta.Get(id).value);
    }
  }

  /**
   * Every served cut is the one-pass projection of the log through the position it names; a degraded
   * one ends right before the event that failed, and only the projection of the whole log under a
   * carried version reads as current.
   */
  lemma {:induction false} ServedCutIsProjection(
      t: Tables, config: Config, log: seq<Committed>, definition: Version -> Definition, decodes: Slot -> bool)
    requires Inv(t, log, definition)
    ensures var cut := ReadCut(t, config, |log|, decodes);
            && cut.throughSeq <= |log|
            && (cut.readiness != Unreadable ==>
              Project(definition(cut.version), NO_ROWS, log[..cut.throughSeq])
              == Some(cut.content))
            && (cut.readiness == Unreadable ==> cut.content == NO_ROWS)
            && (cut.readiness.Degraded? ==> cut.readiness.failedAtSeq == cut.throughSeq + 1)
            && (cut.readiness == Current ==> cut.throughSeq == |log| && config.Carries(cut.version))
  {
    ActiveFound(t);
    var active := Find(t.meta.Values(), IsActive);
    assert log[..0] == [];
    if active.Some? {
      assert SlotOk(t.meta.Get(active.value.slot).value, log, definition);
    }
  }

  /** A read is current exactly when the active version is carried, healthy, decodable and at the head. */
  lemma {:induction false} CurrentExactly(
      t: Tables, config: Config, log: seq<Committed>, definition: Version -> Definition, decodes: Slot -> bool)
    requires Inv(t, log, definition)
    ensures ReadCut(t, config, |log|, decodes).readiness == Current
            <==> exists id :: && t.meta.Has(id) && t.meta.Get(id).value.role == Active
                              && decodes(t.meta.Get(id).value) && Buildable(config, t.meta.Get(id).value)
                              && t.meta.Get(id).value.cursor == |log|
  {
    ActiveFound(t);
    var active := Find(t.meta.Values(), IsActive);
    if active.Some? {
      assert SlotOk(t.meta.Get(active.value.slot).value, log, definition);
    }
  }

  /** How the active version reads, whatever else is stored. */
  lemma {:induction false} ActiveReadExactly(t: Tables, config: Config, head: Seq, decodes: Slot -> bool, id: SlotId)
    requires TableOk(t) && RolesOk(t) && t.meta.Has(id) && t.meta.Get(id).value.role == Active
    ensures var s, cut := t.meta.Get(id).value, ReadCut(t, config, head, decodes);
            && cut.version == s.version && cut.throughSeq == s.cursor
            && cut.content == (if decodes(s) then s.content else NO_ROWS)
            && cut.readiness ==
               if !decodes(s) then Unreadable
               else if s.version != config.current && config.previous != Some(s.version) then UpdatingHistory
               else if s.status.Frozen? then Degraded(s.status.failedAtSeq)
               else if s.cursor < head then UpdatingHistory else Current
  {
    ActiveFound(t);
  }

  /** How a session without an active version reads: it is building, unless the build of the current version froze. */
  lemma {:induction false} InactiveReadExactly(t: Tables, config: Config, head: Seq, decodes: Slot -> bool)
    requires TableOk(t) && RolesOk(t) && forall id :: t.meta.Has(id) ==> t.meta.Get(id).value.role != Active
    ensures ReadCut(t, config, head, decodes) ==
            Cut(config.current, 0, NO_ROWS, if CurrentBuildFroze(t, config.current) then Unreadable else StillBuilding)
  {
    ActiveFound(t);
    BuildFound(t);
  }

  /** The build of the current version froze, so only another release can repair it. */
  ghost predicate CurrentBuildFroze(t: Tables, current: Version) {
    exists id :: t.meta.Has(id) && t.meta.Get(id).value.role == Building && t.meta.Get(id).value.version == current
                 && t.meta.Get(id).value.status.Frozen?
  }

  /** A reconciled table without work left that has no current active version has a frozen build of it. */
  lemma {:induction false} IdleBuildFroze(t: Tables, config: Config, head: Seq)
    requires TableOk(t) && RolesOk(t) && Reconciled(t, config.current)
    requires BuildTarget(config, LiveSlots(t), head).None?
    requires !exists id ::
             t.meta.Has(id) && t.meta.Get(id).value.role == Active
             && t.meta.Get(id).value.version == config.current
    ensures CurrentBuildFroze(t, config.current)
  {
    LiveAt(t);
    var id :| t.meta.Has(id) && t.meta.Get(id).value.Live() && t.meta.Get(id).value.version == config.current;
    var s := t.meta.Get(id).value;
    assert s in LiveSlots(t);
    assert !BuildableBuilding(config)(s);
  }

  /** With no work left, an active carried version is frozen or at the head. */
  lemma {:induction false} IdleActive(
      t: Tables, config: Config, log: seq<Committed>, definition: Version -> Definition, s: Slot)
    requires Inv(t, log, definition) && LiveSlots(t) != []
    requires BuildTarget(config, LiveSlots(t), |log|).None?
    requires t.meta.Get(s.slot) == Some(s) && s.role == Active && Buildable(config, s)
    ensures s.cursor == |log|
  {
    LiveAt(t);
    assert SlotOk(t.meta.Get(s.slot).value, log, definition);
    assert s in LiveSlots(t) && !BuildableBehind(config, |log|)(s);
  }

  /**
   * Once no work is left, a read never says the history is still building, and it says the history is
   * being updated exactly when a version no longer carried stays active because the build of the
   * current one froze.
   */
  lemma {:induction false} SettledReads(
      t: Tables, config: Config, log: seq<Committed>, definition: Version -> Definition, decodes: Slot -> bool)
    requires Inv(t, log, definition) && LiveSlots(t) != [] && !HasPendingWork(t, config, |log|)
    requires forall s :: decodes(s)
    ensures var readiness := ReadCut(t, config, |log|, decodes).readiness;
            && readiness != StillBuilding
            && (readiness == Unreadable || readiness == UpdatingHistory ==> CurrentBuildFroze(t, config.current))
            && (readiness == UpdatingHistory
                <==> exists id ::
                  t.meta.Has(id) && t.meta.Get(id).value.role == Active
                  && !config.Carries(t.meta.Get(id).value.version))
  {
    ActiveFound(t);
    BuildFound(t);
    PendingExactly(t, config, |log|);
    var active := Find(t.meta.Values(), IsActive);
    if active.None? || active.value.version != config.current {
      IdleBuildFroze(t, config, |log|);
    }
    if active.Some? && Buildable(config, active.value) {
      IdleActive(t, config, log, definition, active.value);
    }
  }

  lemma {:induction false} SlicesKeep(
      t: Tables, config: Config, env: Env, log: seq<Committed>, limits: SliceLimits, n: nat)
    requires Inv(t, log, env.definition) && FairPick(env.pick)
    ensures Inv(RunSlices(t, config, env, log, limits, n), log, env.definition)
    decreases n
  {
    if n > 0 {
      SliceKeeps(t, config, env, log, limits);
      SlicesKeep(RunSlice(t, config, env, log, limits), config, env, log, limits, n - 1);
    }
  }

  lemma {:induction false} SlicesLeaveLive(
      t: Tables, config: Config, env: Env, log: seq<Committed>, limits: SliceLimits, n: nat)
    requires Inv(t, log, env.definition) && FairPick(env.pick) && n > 0
    ensures LiveSlots(RunSlices(t, config, env, log, limits, n)) != []
    decreases n
  {
    var next := RunSlice(t, config, env, log, limits);
    assert RunSlices(t, config, env, log, limits, n) == RunSlices(next, config, env, log, limits, n - 1);
    SliceKeeps(t, config, env, log, limits);
    if n > 1 {
      SlicesLeaveLive(next, config, env, log, limits, n - 1);
    } else {
      SliceReconciles(t, config, env, log, limits);
      ReconcileNothing(next, config, |log|);
    }
  }

  /** Without appends, finitely many slices bring every session to reads that settled. */
  lemma {:induction false} ReadsSettle(
      t: Tables, config: Config, env: Env, log: seq<Committed>, limits: SliceLimits, decodes: Slot -> bool)
      returns (n: nat)
    requires Inv(t, log, env.definition) && FairPick(env.pick)
    requires forall s :: decodes(s)
    ensures var after := RunSlices(t, config, env, log, limits, n);
            var readiness := ReadCut(after, config, |log|, decodes).readiness;
            || readiness == Current || readiness.Degraded?
            || ((readiness == Unreadable || readiness == UpdatingHistory) && CurrentBuildFroze(after, config.current))
  {
    n := SlicesStop(t, config, env, log, limits);
    SlicesKeep(t, config, env, log, limits, n);
    SlicesLeaveLive(t, config, env, log, limits, n);
    SettledReads(RunSlices(t, config, env, log, limits, n), config, log, env.definition, decodes);
  }
}
