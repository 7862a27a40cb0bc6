/** What every step keeps of the stored transcript versions. */
module TranscriptInvariants {
  import opened Collections
  import opened Events
  import opened TranscriptPlan
  import opened TranscriptSlots

  // ---------------------------------------------------------------------------
  // The invariant
  // ---------------------------------------------------------------------------

  ghost predicate TableOk(t: Tables) {
    forall id {:trigger t.meta.Get(id)} :: t.meta.Has(id) ==> t.meta.Get(id).value.slot == id && id < t.nextSlot
  }

  /** At most one active and one building slot, never of the same version. */
  ghost predicate RolesOk(t: Tables) {
    forall a, b {:trigger t.meta.Get(a), t.meta.Get(b)} :: t.meta.Has(a) && t.meta.Has(b) && a != b ==>
      var x, y := t.meta.Get(a).value, t.meta.Get(b).value;
      && !(x.role == Active && y.role == Active)
      && !(x.role == Building && y.role == Building)
      && (x.role == Active && y.role == Building ==> x.version != y.version)
  }

  /** A live slot holds the one-pass projection of the log through its cursor; a frozen one stopped right there. */
  ghost predicate SlotOk(s: Slot, log: seq<Committed>, definition: Version -> Definition) {
    && s.cursor <= |log|
    && (s.status.Frozen? ==> s.status.failedAtSeq == s.cursor + 1)
    && (s.Live() ==> Project(definition(s.version), NO_ROWS, log[..s.cursor]) == Some(s.content))
  }

  ghost predicate SlotsOk(t: Tables, log: seq<Committed>, definition: Version -> Definition) {
    forall id {:trigger t.meta.Get(id)} :: t.meta.Has(id) ==> SlotOk(t.meta.Get(id).value, log, definition)
  }

  ghost predicate Inv(t: Tables, log: seq<Committed>, definition: Version -> Definition) {
    Dense(log, 0) && TableOk(t) && RolesOk(t) && SlotsOk(t, log, definition)
  }

  // ---------------------------------------------------------------------------
  // What becomes of a slot
  // ---------------------------------------------------------------------------

  /**
   * A slot keeps its version, never leaves retirement, never goes back from active to building, and
   * once frozen keeps its rows, cursor and failure for as long as it is live.
   */
  ghost predicate Keeps(before: Slot, after: Slot) {
    && after.slot == before.slot && after.version == before.version
    && (before.role == Retired ==> after.role == Retired)
    && (before.role == Active ==> after.role != Building)
    && (before.status.Frozen? && after.Live() ==> after == before.(sliceFailures := after.sliceFailures))
    && before.cursor <= after.cursor
  }

  /** Slots are kept, and a slot that was not there is a new one. */
  ghost predicate StepKeeps(t: Tables, next: Tables) {
    && t.nextSlot <= next.nextSlot
    && (forall id {:trigger t.meta.Get(id)} {:trigger next.meta.Get(id)} :: t.meta.Has(id) && next.meta.Has(id) ==>
      Keeps(t.meta.Get(id).value, next.meta.Get(id).value))
    && (forall id {:trigger t.meta.Get(id)} {:trigger next.meta.Get(id)} :: next.meta.Has(id) && !t.meta.Has(id) ==>
      t.nextSlot <= id)
  }

  lemma {:induction false} StepKeepsTransitive(a: Tables, b: Tables, c: Tables)
    requires TableOk(a) && TableOk(b) && TableOk(c)
    requires StepKeeps(a, b) && StepKeeps(b, c)
    ensures StepKeeps(a, c)
  {
    forall id | a.meta.Has(id) && c.meta.Has(id) ensures Keeps(a.meta.Get(id).value, c.meta.Get(id).value) {
      assert b.meta.Has(id);
    }
  }

  /** The same row apart from its contents, cursor, status and failure count. */
  ghost predicate SameShape(before: Slot, after: Slot) {
    after.slot == before.slot && after.version == before.version && after.role == before.role
  }

  lemma {:induction false} RewriteKeeps(
      t: Tables, id: SlotId, s: Slot, log: seq<Committed>, definition: Version -> Definition)
    requires Inv(t, log, definition) && t.meta.Has(id)
    requires SameShape(t.meta.Get(id).value, s) && Keeps(t.meta.Get(id).value, s) && SlotOk(s, log, definition)
    ensures Inv(Rewrite(t, id, s), log, definition) && StepKeeps(t, Rewrite(t, id, s))
  {
    var next := Rewrite(t, id, s);
    assert next.meta == t.meta.Set(id, s);
    forall x ensures next.meta.Get(x) == if x == id then Some(s) else t.meta.Get(x) {
    }
    forall x | next.meta.Has(x) ensures next.meta.Get(x).value.slot == x && x < next.nextSlot {
      assert x != id ==> t.meta.Get(x) == next.meta.Get(x);
    }
    assert TableOk(next);
  }

  lemma {:induction false} RetireKeeps(t: Tables, id: SlotId, log: seq<Committed>, definition: Version -> Definition)
    requires Inv(t, log, definition)
    ensures Inv(SetRole(t, id, Retired), log, definition) && StepKeeps(t, SetRole(t, id, Retired))
  {
    var next := SetRole(t, id, Retired);
    if t.meta.Has(id) {
      assert next.meta == t.meta.Set(id, t.meta.Get(id).value.(role := Retired));
      forall x | next.meta.Has(x) ensures t.meta.Has(x) {
      }
    } else {
      assert next == t;
    }
    assert StepKeeps(t, next);
  }

  lemma {:induction false} InsertKeeps(
      t: Tables, version: Version, role: Role, log: seq<Committed>, definition: Version -> Definition)
    requires Inv(t, log, definition) && role != Retired
    requires forall id {:trigger t.meta.Get(id)} :: t.meta.Has(id) ==> t.meta.Get(id).value.role != role
    requires forall id {:trigger t.meta.Get(id)} :: t.meta.Has(id) && t.meta.Get(id).value.Live() ==>
             t.meta.Get(id).value.version != version
    ensures Inv(InsertSlot(t, version, role), log, definition) && StepKeeps(t, InsertSlot(t, version, role))
  {
    var s, next := Slot(t.nextSlot, version, role, 0, Healthy, 0, NO_ROWS), InsertSlot(t, version, role);
    assert next.meta == t.meta.Set(t.nextSlot, s);
    forall id ensures next.meta.Get(id) == if id == t.nextSlot then Some(s) else t.meta.Get(id) {
    }
    forall id | next.meta.Has(id) ensures next.meta.Get(id).value.slot == id && id < next.nextSlot {
      assert id != t.nextSlot ==> t.meta.Get(id) == next.meta.Get(id);
    }
    assert TableOk(next) && StepKeeps(t, next);
    assert log[..0] == [] && SlotOk(s, log, definition);
  }

  // ---------------------------------------------------------------------------
  // Reading the slot table
  // ---------------------------------------------------------------------------

  lemma {:induction false} ValueAt(t: Tables, s: Slot)
    requires TableOk(t)
    ensures s in t.meta.Values() <==> t.meta.Get(s.slot) == Some(s)
  {
    if s in t.meta.Values() {
      var k := ValueHasKey(t.meta, s);
    }
  }

  function IdOf(s: Slot): SlotId {
    s.slot
  }

  lemma {:induction false} LiveAt(t: Tables)
    requires TableOk(t)
    ensures forall s :: s in LiveSlots(t) <==> t.meta.Get(s.slot) == Some(s) && s.Live()
    ensures DistinctBy(LiveSlots(t), IdOf)
    ensures LiveSlots(t) == [] <==> forall id :: t.meta.Has(id) ==> t.meta.Get(id).value.role == Retired
  {
    forall s ensures s in LiveSlots(t) <==> t.meta.Get(s.slot) == Some(s) && s.Live() {
      ValueAt(t, s);
    }
    forall k | t.meta.Has(k) ensures IdOf(t.meta.Get(k).value) == k {
    }
    ValuesDistinct(t.meta, IdOf);
    FilterKeepsDistinct(t.meta.Values(), IsLive, IdOf);
    if LiveSlots(t) == [] {
      forall id | t.meta.Has(id) ensures t.meta.Get(id).value.role == Retired {
        assert t.meta.Get(id).value !in LiveSlots(t);
      }
    } else {
      assert LiveSlots(t)[0] in LiveSlots(t);
    }
  }

  // ---------------------------------------------------------------------------
  // Reconciliation
  // ---------------------------------------------------------------------------

  ghost predicate Stale(s: Slot, current: Version) {
    s.role == Building && s.version != current
  }

  lemma {:induction false} RetireStaleKeeps(
      t: Tables, slots: seq<Slot>, current: Version, log: seq<Committed>, definition: Version -> Definition)
    requires Inv(t, log, definition)
    requires forall s :: s in slots ==> t.meta.Get(s.slot) == Some(s)
    ensures var next := RetireStale(t, slots, current);
            && Inv(next, log, definition) && StepKeeps(t, next) && next.nextSlot == t.nextSlot
            && forall id {:trigger next.meta.Get(id)} :: next.meta.Get(id) ==
                 if t.meta.Has(id) && t.meta.Get(id).value in slots && Stale(t.meta.Get(id).value, current)
                 then Some(t.meta.Get(id).value.(role := Retired)) else t.meta.Get(id)
  {
    if slots != [] {
      var front, s := slots[..|slots| - 1], slots[|slots| - 1];
      assert slots == front + [s];
      RetireStaleKeeps(t, front, current, log, definition);
      var before := RetireStale(t, front, current);
      if Stale(s, current) {
        RetireKeeps(before, s.slot, log, definition);
        StepKeepsTransitive(t, before, SetRole(before, s.slot, Retired));
      }
    }
  }

  /**
   * Versions agree with the release: something is live, no stale build, and the current version is
   * active or being built.
   */
  ghost predicate Reconciled(t: Tables, current: Version) {
    && (forall id {:trigger t.meta.Get(id)} :: t.meta.Has(id) ==> !Stale(t.meta.Get(id).value, current))
    && exists id :: t.meta.Has(id) && t.meta.Get(id).value.Live() && t.meta.Get(id).value.version == current
  }

  lemma {:induction false} ReconcileRetires(
      t: Tables, config: Config, log: seq<Committed>, definition: Version -> Definition)
    requires Inv(t, log, definition)
    ensures var retired := RetireStale(t, LiveSlots(t), config.current);
            && Inv(retired, log, definition) && StepKeeps(t, retired) && retired.nextSlot == t.nextSlot
            && forall id {:trigger retired.meta.Get(id)} :: retired.meta.Get(id) ==
                 if t.meta.Has(id) && Stale(t.meta.Get(id).value, config.current)
                 then Some(t.meta.Get(id).value.(role := Retired)) else t.meta.Get(id)
  {
    LiveAt(t);
    RetireStaleKeeps(t, LiveSlots(t), config.current, log, definition);
  }

  /** What the reconciliation conditions say of the slot table. */
  lemma {:induction false} LiveConditions(t: Tables, config: Config)
    requires TableOk(t) && RolesOk(t)
    ensures ActiveIs(LiveSlots(t), config.current)
            <==> exists id ::
              t.meta.Has(id) && t.meta.Get(id).value.role == Active
              && t.meta.Get(id).value.version == config.current
    ensures TranscriptSlots.Has(LiveSlots(t), BuildingOf(config.current))
            <==> exists id ::
              t.meta.Has(id) && t.meta.Get(id).value.role == Building
              && t.meta.Get(id).value.version == config.current
  {
    LiveAt(t);
    var slots := LiveSlots(t);
    if id :| t.meta.Has(id) && t.meta.Get(id).value.role == Active && t.meta.Get(id).value.version == config.current {
      assert t.meta.Get(id).value in slots;
      assert IsActive(t.meta.Get(id).value);
      var found := Find(slots, IsActive).value;
      assert t.meta.Get(found.slot) == Some(found);
    }
    if id :| t.meta.Has(id) && t.meta.Get(id).value.role == Building && t.meta.Get(id).value.version == config.current {
      assert t.meta.Get(id).value in slots;
      assert BuildingOf(config.current)(t.meta.Get(id).value);
    }
    if ActiveIs(slots, config.current) {
      var s := Find(slots, IsActive).value;
      assert t.meta.Get(s.slot) == Some(s);
    }
    if TranscriptSlots.Has(slots, BuildingOf(config.current)) {
      var s := Find(slots, BuildingOf(config.current)).value;
      assert t.meta.Get(s.slot) == Some(s);
    }
  }

  /** The rows after a reconciliation: stale builds retired, at most one new slot without rows. */
  ghost predicate ReconciledRows(t: Tables, next: Tables, config: Config, head: Seq) {
    && (forall id {:trigger next.meta.Get(id)} :: t.meta.Has(id) ==>
          next.meta.Get(id) == Some(if Stale(t.meta.Get(id).value, config.current)
                                    then t.meta.Get(id).value.(role := Retired) else t.meta.Get(id).value))
    && (forall id {:trigger next.meta.Get(id)} :: next.meta.Has(id) && !t.meta.Has(id) ==>
          && id == t.nextSlot
          && next.meta.Get(id).value == Slot(id, config.current, next.meta.Get(id).value.role, 0, Healthy, 0, NO_ROWS)
          && (next.meta.Get(id).value.role == Active ==> head == 0 && LiveSlots(t) == []))
  }

  lemma {:induction false} ReconcileEmpty(
      t: Tables, config: Config, head: Seq, log: seq<Committed>, definition: Version -> Definition)
    requires Inv(t, log, definition) && LiveSlots(t) == []
    ensures var next := Reconcile(t, config, head);
            Inv(next, log, definition) && StepKeeps(t, next) && Reconciled(next, config.current)
              && ReconciledRows(t, next, config, head)
  {
    LiveAt(t);
    var role := if head == 0 then Active else Building;
    InsertKeeps(t, config.current, role, log, definition);
    assert InsertSlot(t, config.current, role).meta.Get(t.nextSlot).value.Live();
  }

  lemma {:induction false} ReconcileLive(
      t: Tables, config: Config, head: Seq, log: seq<Committed>, definition: Version -> Definition)
    requires Inv(t, log, definition) && LiveSlots(t) != []
    ensures var next := Reconcile(t, config, head);
            Inv(next, log, definition) && StepKeeps(t, next) && Reconciled(next, config.current)
              && ReconciledRows(t, next, config, head)
  {
    LiveConditions(t, config);
    ReconcileRetires(t, config, log, definition);
    var slots := LiveSlots(t);
    var retired := RetireStale(t, slots, config.current);
    if !ActiveIs(slots, config.current) && !TranscriptSlots.Has(slots, BuildingOf(config.current)) {
      InsertKeeps(retired, config.current, Building, log, definition);
      var next := InsertSlot(retired, config.current, Building);
      StepKeepsTransitive(t, retired, next);
      assert next.meta.Get(t.nextSlot).value.Live();
    } else {
      var id :| t.meta.Has(id) && t.meta.Get(id).value.role != Retired
        && t.meta.Get(id).value.version == config.current;
      assert retired.meta.Get(id) == t.meta.Get(id);
    }
  }

  /**
   * Reconciliation keeps the invariant, writes no rows, and makes a slot active only when none was live
   * and the log is empty.
   */
  lemma {:induction false} ReconcileKeeps(
      t: Tables, config: Config, head: Seq, log: seq<Committed>, definition: Version -> Definition)
    requires Inv(t, log, definition)
    ensures var next := Reconcile(t, config, head);
            Inv(next, log, definition) && StepKeeps(t, next) && Reconciled(next, config.current)
              && ReconciledRows(t, next, config, head)
  {
    if LiveSlots(t) == [] {
      ReconcileEmpty(t, config, head, log, definition);
    } else {
      ReconcileLive(t, config, head, log, definition);
    }
  }

  // ---------------------------------------------------------------------------
  // Advancing
  // ---------------------------------------------------------------------------

  /** The events are the stretch of the log right after the cursor. */
  ghost predicate NextInLog(events: seq<Committed>, cursor: Seq, log: seq<Committed>) {
    cursor + |events| <= |log| && events == log[cursor..cursor + |events|]
  }

  lemma {:induction false} FirstPast(events: seq<Committed>, cursor: Seq)
    requires Dense(events, cursor)
    ensures Find(events, Past(cursor)) == if events == [] then None else Some(events[0])
  {
  }

  lemma {:induction false} PlannedKeeps(
      s: Slot, plan: Option<Plan>, d: Definition, events: seq<Committed>, log: seq<Committed>)
    requires s.cursor + |events| <= |log|
    requires Project(d, NO_ROWS, log[..s.cursor]) == Some(s.content)
    requires log[..s.cursor] + events == log[..s.cursor + |events|]
    requires plan.Some? ==>
             Project(d, s.content, events) == Some(Written(s.content, plan.value))
             && plan.value.throughSeq == s.cursor + |events|
    ensures var next := Planned(s, plan, s.cursor + 1);
            next.cursor <= |log| && Project(d, NO_ROWS, log[..next.cursor]) == Some(next.content)
  {
    ProjectAppend(d, NO_ROWS, log[..s.cursor], events);
  }

  lemma {:induction false} PlanForIsProjection(s: Slot, env: Env, events: seq<Committed>)
    requires Dense(events, s.cursor)
    ensures var plan := PlanFor(s, env, events);
            plan.Some? ==> Project(env.definition(s.version), s.content, events) == Some(Written(s.content, plan.value))
                           && plan.value.throughSeq == s.cursor + |events|
  {
    PlanIsProjection(env.definition(s.version), s.content, s.cursor, events);
  }

  /** How a row moves when it is advanced: past the events, or frozen in front of them. */
  lemma {:induction false} AdvancedMoves(s: Slot, env: Env, events: seq<Committed>)
    requires Dense(events, s.cursor)
    ensures var next := Advanced(s, env, events);
            && SameShape(s, next) && Keeps(s, next)
            && next.sliceFailures == s.sliceFailures
            && (events == [] || s.status.Frozen? || s.role == Retired ==> next == s)
            && (events != [] && s.status.Healthy? && s.Live() ==>
                  || (next.status.Frozen? && next.cursor == s.cursor)
                  || (next.status.Healthy? && next.cursor == s.cursor + |events|))
  {
    FirstPast(events, s.cursor);
    PlanForIsProjection(s, env, events);
  }

  lemma {:induction false} NextIsDense(events: seq<Committed>, cursor: Seq, log: seq<Committed>)
    requires Dense(log, 0) && NextInLog(events, cursor, log)
    ensures Dense(events, cursor)
  {
    assert forall i :: 0 <= i < |events| ==> events[i] == log[cursor + i];
  }

  /** It stays a projection of the log. */
  lemma {:induction false} AdvancedProjects(s: Slot, env: Env, events: seq<Committed>, log: seq<Committed>)
    requires Dense(log, 0) && SlotOk(s, log, env.definition) && NextInLog(events, s.cursor, log)
    ensures SlotOk(Advanced(s, env, events), log, env.definition)
  {
    NextIsDense(events, s.cursor, log);
    FirstPast(events, s.cursor);
    if events != [] && s.status.Healthy? && s.Live() {
      PlanForIsProjection(s, env, events);
      assert log[..s.cursor] + events == log[..s.cursor + |events|];
      PlannedKeeps(s, PlanFor(s, env, events), env.definition(s.version), events, log);
    }
  }

  /** The row of a slot after the append hook, given its row before: no other slot matters. */
  function RowAfterAppend(s: Slot, config: Config, env: Env, head: Seq, events: seq<Committed>): Slot {
    if s.Live() && CaughtUp(config, head, s) then Advanced(s, env, events) else s
  }

  /** One more slot advanced, on top of the ones before it in the list. */
  lemma {:induction false} AdvanceOneMore(
      t: Tables, before: Tables, s: Slot, config: Config, env: Env, head: Seq, events: seq<Committed>)
    requires before.meta.Get(s.slot) == t.meta.Get(s.slot) == Some(s) && s.Live()
    ensures var next := if CaughtUp(config, head, s) then AdvanceSlot(before, s, env, events) else before;
            && next.nextSlot == before.nextSlot
            && forall id {:trigger next.meta.Get(id)} :: next.meta.Get(id) ==
                 if id == s.slot then Some(RowAfterAppend(s, config, env, head, events)) else before.meta.Get(id)
  {
  }

  lemma {:induction false} AdvanceEachRows(
      t: Tables, slots: seq<Slot>, config: Config, env: Env, head: Seq, events: seq<Committed>)
    requires DistinctBy(slots, IdOf) && forall s :: s in slots ==> t.meta.Get(s.slot) == Some(s) && s.Live()
    ensures var next := AdvanceEach(t, slots, config, env, head, events);
            && next.nextSlot == t.nextSlot
            && forall id {:trigger next.meta.Get(id)} :: next.meta.Get(id) ==
                 if t.meta.Has(id) && t.meta.Get(id).value in slots && t.meta.Get(id).value.slot == id
                 then Some(RowAfterAppend(t.meta.Get(id).value, config, env, head, events)) else t.meta.Get(id)
  {
    if slots != [] {
      var front, s := slots[..|slots| - 1], slots[|slots| - 1];
      assert slots == front + [s];
      AdvanceEachRows(t, front, config, env, head, events);
      assert s in slots;
      forall x | x in front ensures x.slot != s.slot {
        var i :| 0 <= i < |front| && front[i] == x;
        assert IdOf(slots[i]) != IdOf(slots[|front|]);
      }
      AdvanceOneMore(t, AdvanceEach(t, front, config, env, head, events), s, config, env, head, events);
    }
  }

  /** The row is there exactly when it was, and moved as rows may. */
  ghost predicate RowMoves(
      before: Option<Slot>, after: Option<Slot>, log: seq<Committed>, definition: Version -> Definition) {
    && before.Some? == after.Some?
    && (before.Some? ==>
      SameShape(before.value, after.value) && Keeps(before.value, after.value)
      && SlotOk(after.value, log, definition))
  }

  /** Moving rows one by one keeps the invariant. */
  lemma {:induction false} PointwiseKeeps(
      t: Tables, next: Tables, log: seq<Committed>, definition: Version -> Definition)
    requires Inv(t, log, definition) && next.nextSlot == t.nextSlot
    requires forall id {:trigger next.meta.Get(id)} {:trigger t.meta.Get(id)} ::
             RowMoves(t.meta.Get(id), next.meta.Get(id), log, definition)
    ensures Inv(next, log, definition) && StepKeeps(t, next)
  {
    forall id | next.meta.Has(id) ensures t.meta.Has(id) && next.meta.Get(id).value.slot == id && id < next.nextSlot {
      assert RowMoves(t.meta.Get(id), next.meta.Get(id), log, definition);
    }
    assert TableOk(next) && StepKeeps(t, next);
  }

  lemma {:induction false} RowAfterAppendKeeps(
      s: Slot, config: Config, env: Env, head: Seq, events: seq<Committed>, log: seq<Committed>)
    requires Dense(log, 0) && SlotOk(s, log, env.definition) && NextInLog(events, head, log)
    ensures var next := RowAfterAppend(s, config, env, head, events);
            RowMoves(Some(s), Some(next), log, env.definition)
  {
    if s.Live() && CaughtUp(config, head, s) {
      NextIsDense(events, s.cursor, log);
      AdvancedMoves(s, env, events);
      AdvancedProjects(s, env, events, log);
    }
  }

  lemma {:induction false} AdvanceEachKeeps(
      t: Tables, slots: seq<Slot>, config: Config, env: Env, head: Seq, events: seq<Committed>, log: seq<Committed>)
    requires Inv(t, log, env.definition) && NextInLog(events, head, log)
    requires DistinctBy(slots, IdOf) && forall s :: s in slots ==> t.meta.Get(s.slot) == Some(s) && s.Live()
    ensures var next := AdvanceEach(t, slots, config, env, head, events);
            && Inv(next, log, env.definition) && StepKeeps(t, next) && next.nextSlot == t.nextSlot
            && forall id {:trigger next.meta.Get(id)} :: next.meta.Get(id) ==
                 if t.meta.Has(id) && t.meta.Get(id).value in slots
                 then Some(RowAfterAppend(t.meta.Get(id).value, config, env, head, events)) else t.meta.Get(id)
  {
    AdvanceEachRows(t, slots, config, env, head, events);
    var next := AdvanceEach(t, slots, config, env, head, events);
    forall id {:trigger next.meta.Get(id)} {:trigger t.meta.Get(id)}
      ensures RowMoves(t.meta.Get(id), next.meta.Get(id), log, env.definition)
    {
      if t.meta.Has(id) {
        RowAfterAppendKeeps(t.meta.Get(id).value, config, env, head, events, log);
      }
    }
    PointwiseKeeps(t, next, log, env.definition);
  }

  lemma {:induction false} LogGrows(
      t: Tables, log: seq<Committed>, next: seq<Committed>, definition: Version -> Definition)
    requires Inv(t, log, definition) && log <= next && Dense(next, 0)
    ensures Inv(t, next, definition)
  {
    forall id {:trigger t.meta.Get(id)} | t.meta.Has(id) ensures SlotOk(t.meta.Get(id).value, next, definition) {
      var s := t.meta.Get(id).value;
      assert SlotOk(s, log, definition);
      assert next[..s.cursor] == log[..s.cursor];
    }
  }

  /** The append hook keeps the invariant for the grown log. */
  lemma {:induction false} MaintainKeeps(
      t: Tables, config: Config, env: Env, log: seq<Committed>, appended: seq<Committed>)
    requires Inv(t, log, env.definition) && Dense(log + appended, 0)
    ensures var next := MaintainOnAppend(t, config, env, |log|, appended);
            && Inv(next, log + appended, env.definition) && StepKeeps(t, next)
            && (appended != [] ==>
                  var reconciled := Reconcile(t, config, |log|);
                  && (forall id {:trigger next.meta.Get(id)} :: next.meta.Get(id) ==
                       if reconciled.meta.Has(id) then Some(RowAfterAppend(reconciled.meta.Get(id).value, config, env,
                         |log|, appended)) else None))
  {
    ReconcileKeeps(t, config, |log|, log, env.definition);
    var reconciled := Reconcile(t, config, |log|);
    LogGrows(reconciled, log, log + appended, env.definition);
    if appended != [] {
      LiveAt(reconciled);
      assert (log + appended)[|log|..|log| + |appended|] == appended;
      AdvanceEachKeeps(reconciled, LiveSlots(reconciled), config, env, |log|, appended, log + appended);
      StepKeepsTransitive(t, reconciled, MaintainOnAppend(t, config, env, |log|, appended));
    }
  }
}
