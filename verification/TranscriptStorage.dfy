/** Transcript maintenance as it runs: statements, transactions and rollback over stored tables. */
module TranscriptStorage {
  import opened Collections
  import opened Events
  import opened SessionStore
  import opened SqlStore
  import opened SqlTables
  import opened TranscriptPlan
  import opened TranscriptSlots
  import opened TranscriptInvariants
  import opened TranscriptSlices
  import opened TranscriptRuns
  import opened TranscriptReads
  import Termination = TranscriptTermination

  /** A version froze in front of an event; published only once the transaction committed. */
  datatype Alert = ProjectionFailed(version: Version, role: Role, failedAtSeq: Seq)

  /** A write of a slot's meta row: a new row, its role, or that it failed. */
  datatype RowWrite = InsertRow(version: Version, role: Role) | RoleOf(slot: SlotId,
    role: Role) | MarkFailed(slot: SlotId)

  /** The statements the storage refuses: which of a slot's plan, if any, and which meta rows. */
  datatype WriteFaults = WriteFaults(plans: (SlotId, Seq) -> Option<nat>, rows: RowWrite -> bool)

  function NoneRefused(): RowWrite -> bool {
    _ => false
  }

  /** Records, aliases, then the cursor: one statement each. */
  function Statements(plan: Plan): nat {
    |plan.records| + |plan.aliases| + 1
  }

  /** The refused statement of this plan; a number past the last statement stands for the last. */
  function RefusedAt(faults: WriteFaults, s: Slot, plan: Plan): (r: Option<nat>)
    ensures r.Some? <==> faults.plans(s.slot, s.cursor).Some?
    ensures r.Some? ==> r.value < Statements(plan)
  {
    var at := faults.plans(s.slot, s.cursor);
    if at.None? then None else Some(Min(at.value, Statements(plan) - 1))
  }

  /** Where transactions nest, a refused write is one more way a projection fails. */
  function FailsOnWrite(env: Env, faults: WriteFaults): Env {
    env.(fails := (id: SlotId, cursor: Seq) => env.fails(id, cursor) || faults.plans(id, cursor).Some?)
  }

  /** Statements of a slice the storage refuses: of its plans and meta rows, of its cleanup, of the failure record. */
  datatype SliceFaults = SliceFaults(writes: WriteFaults, elsewhere: bool, record: bool)

  /** A slice says whether work remains, or throws. */
  datatype SliceOutcome = Remaining(pending: bool) | Threw

  /** How the body of a slice ends: only a failure while building is counted against the target. */
  datatype SliceEnd = Finished | BuildFailed | OtherFailed

  lemma {:induction false} SetSame<K(!new), V>(m: OMap<K, V>, k: K)
    requires m.Has(k)
    ensures m.Set(k, m.Get(k).value) == m
  {
    if m.key != k {
      SetSame(m.rest, k);
    }
  }

  /** The alert a row raises when it freezes. */
  function AlertOf(s: Slot, next: Slot): seq<Alert> {
    if s.status.Healthy? && next.status.Frozen?
      then [ProjectionFailed(s.version, s.role, next.status.failedAtSeq)]
      else []
  }

  /** A failed slice freezes its target at the failure limit. */
  predicate FailureFreezes(t: Tables, config: Config, head: Seq, limits: SliceLimits) {
    var target := BuildTarget(config, LiveSlots(t), head);
    target.Some? && target.value.sliceFailures + 1 >= limits.maxSliceFailures
  }

  function FailureAlerts(t: Tables, config: Config, head: Seq, limits: SliceLimits): seq<Alert> {
    if !FailureFreezes(t, config, head, limits) then []
    else
      var target := BuildTarget(config, LiveSlots(t), head).value;
      [ProjectionFailed(target.version, target.role, target.cursor + 1)]
  }

  /** The alerts of an append: one for each caught-up version that froze, in slot order. */
  function AppendAlerts(slots: seq<Slot>, config: Config, env: Env, head: Seq, events: seq<Committed>): seq<Alert> {
    if slots == [] then []
    else
      var s := slots[|slots| - 1];
      AppendAlerts(slots[..|slots| - 1], config, env, head, events)
      + (if CaughtUp(config, head, s) then AlertOf(s, Advanced(s, env, events)) else [])
  }

  /** The alert of a slice: its target froze. */
  function BuildAlerts(t: Tables, config: Config, env: Env, log: seq<Committed>, limits: SliceLimits): seq<Alert> {
    var target := BuildTarget(config, LiveSlots(t), |log|);
    if target.None? then [] else AlertOf(target.value, BuiltRow(target.value, env, log, limits))
  }


  /** The slot was healthy and freezes, which the alert says. */
  ghost predicate Reports(alert: Alert, s: Slot, next: Slot) {
    && s.status.Healthy? && next.status.Frozen?
    && alert == ProjectionFailed(s.version, s.role, next.status.failedAtSeq)
  }

  /** An append raises exactly the alerts of the caught-up versions it freezes. */
  lemma {:induction false} AppendAlertsExactly(
      slots: seq<Slot>, config: Config, env: Env, head: Seq, events: seq<Committed>, alert: Alert)
    ensures alert in AppendAlerts(slots, config, env, head, events)
            <==> exists s :: s in slots && CaughtUp(config, head, s) && Reports(alert, s, Advanced(s, env, events))
  {
    if slots != [] {
      var front, last := slots[..|slots| - 1], slots[|slots| - 1];
      AppendAlertsExactly(front, config, env, head, events, alert);
      assert slots == front + [last];
    }
  }

  /** A slice raises an alert exactly when its target freezes. */
  lemma {:induction false} BuildAlertsExactly(
      t: Tables, config: Config, env: Env, log: seq<Committed>, limits: SliceLimits, alert: Alert)
    ensures alert in BuildAlerts(t, config, env, log, limits) <==>
              var target := BuildTarget(config, LiveSlots(t), |log|);
              target.Some? && Reports(alert, target.value, BuiltRow(target.value, env, log, limits))
    ensures |BuildAlerts(t, config, env, log, limits)| <= 1
  {
  }
  /** The build target is the row the table holds, healthy and not past the head. */
  ghost predicate TargetUsable(t: Tables, config: Config, head: Seq) {
    var target := BuildTarget(config, LiveSlots(t), head);
    target.Some? ==>
      && t.meta.Get(target.value.slot) == Some(target.value)
      && target.value.Live() && target.value.status.Healthy? && target.value.cursor <= head
  }

  lemma {:induction false} TargetIsUsable(
      t: Tables, config: Config, log: seq<Committed>, definition: Version -> Definition)
    requires Inv(t, log, definition)
    ensures TargetUsable(t, config, |log|)
  {
    TargetFacts(t, config, |log|);
    var target := BuildTarget(config, LiveSlots(t), |log|);
    assert target.Some? ==> SlotOk(t.meta.Get(target.value.slot).value, log, definition);
  }

  // ---------------------------------------------------------------------------
  // The unique role index
  // ---------------------------------------------------------------------------

  /** At most one active and one building row. */
  ghost predicate UniqueRoles(rows: OrderedMap<SlotId, Slot>) {
    forall a, b {:trigger rows.Get(a), rows.Get(b)} :: rows.Has(a) && rows.Has(b) && a != b ==>
      rows.Get(a).value.role == rows.Get(b).value.role ==> rows.Get(a).value.role == Retired
  }

  /** The index lets the row have the role: no other row holds it. */
  ghost predicate RoleFree(rows: OrderedMap<SlotId, Slot>, id: SlotId, role: Role) {
    role == Retired || forall other {:trigger rows.Get(other)} :: rows.Has(other) && other != id ==>
      rows.Get(other).value.role != role
  }

  lemma {:induction false} RoleWriteKeepsIndex(rows: OrderedMap<SlotId, Slot>, id: SlotId, s: Slot)
    requires UniqueRoles(rows) && RoleFree(rows, id, s.role)
    ensures UniqueRoles(rows.Set(id, s))
  {
    var next := rows.Set(id, s);
    forall a, b | next.Has(a) && next.Has(b) && a != b
      ensures next.Get(a).value.role == next.Get(b).value.role ==> next.Get(a).value.role == Retired
    {
      assert a != id ==> rows.Get(a) == next.Get(a);
      assert b != id ==> rows.Get(b) == next.Get(b);
    }
  }

  /** The live slots name the active row, if there is one. */
  ghost predicate NamesActive(slots: seq<Slot>, rows: OrderedMap<SlotId, Slot>) {
    forall id {:trigger rows.Get(id)} :: rows.Has(id) && rows.Get(id).value.role == Active ==>
      Find(slots, IsActive).Some? && Find(slots, IsActive).value.slot == id
  }

  lemma {:induction false} LiveSlotsNameActive(t: Tables)
    requires TableOk(t) && RolesOk(t)
    ensures NamesActive(LiveSlots(t), t.meta) && UniqueRoles(t.meta)
  {
    LiveAt(t);
    forall id | t.meta.Has(id) && t.meta.Get(id).value.role == Active
      ensures Find(LiveSlots(t), IsActive).Some? && Find(LiveSlots(t), IsActive).value.slot == id
    {
      assert t.meta.Get(id).value in LiveSlots(t) && IsActive(t.meta.Get(id).value);
      var found := Find(LiveSlots(t), IsActive).value;
      assert t.meta.Get(found.slot) == Some(found);
    }
  }

  /** The index has room for the slot a reconciliation inserts. */
  lemma {:induction false} NewVersionFits(
      t: Tables, config: Config, log: seq<Committed>, definition: Version -> Definition)
    requires Inv(t, log, definition)
    ensures UniqueRoles(t.meta)
    ensures LiveSlots(t) == [] ==> RoleFree(t.meta, t.nextSlot, Active) && RoleFree(t.meta, t.nextSlot, Building)
    ensures var slots := LiveSlots(t);
            var retired := RetireStale(t, slots, config.current);
            !ActiveIs(slots, config.current) && !TranscriptSlots.Has(slots, BuildingOf(config.current)) ==>
              RoleFree(retired.meta, retired.nextSlot, Building)
  {
    LiveSlotsNameActive(t);
    LiveAt(t);
    if !TranscriptSlots.Has(LiveSlots(t), BuildingOf(config.current)) {
      NoBuildLeft(t, config, log, definition);
    }
  }

  lemma {:induction false} NoBuildLeft(
      t: Tables, config: Config, log: seq<Committed>, definition: Version -> Definition)
    requires Inv(t, log, definition) && !TranscriptSlots.Has(LiveSlots(t), BuildingOf(config.current))
    ensures var retired := RetireStale(t, LiveSlots(t), config.current); RoleFree(retired.meta, retired.nextSlot,
            Building)
  {
    LiveConditions(t, config);
    ReconcileRetires(t, config, log, definition);
  }

  /** Rewriting a row without its role changes neither. */
  lemma {:induction false} RolesKept(rows: OrderedMap<SlotId, Slot>, slots: seq<Slot>, s: Slot, next: Slot)
    requires UniqueRoles(rows) && NamesActive(slots, rows) && rows.Get(s.slot) == Some(s) && next.role == s.role
    ensures UniqueRoles(rows.Set(s.slot, next)) && NamesActive(slots, rows.Set(s.slot, next))
  {
    assert RoleFree(rows, s.slot, next.role);
    RoleWriteKeepsIndex(rows, s.slot, next);
    var after := rows.Set(s.slot, next);
    forall id | after.Has(id) && after.Get(id).value.role == Active
      ensures Find(slots, IsActive).Some? && Find(slots, IsActive).value.slot == id
    {
      assert rows.Has(id) && rows.Get(id).value.role == Active;
    }
  }

  class TranscriptStore {
    const sql: SqlSessionStore
    /** Whether the platform runs a transaction inside another one. */
    const nested: bool
    /** The committed events, as the builder reads them page by page. */
    var log: seq<Committed>
    var meta: OrderedMap<SlotId, Slot>
    var nextSlot: SlotId
    var published: seq<Alert>

    constructor (sessionId: SessionId, nested: bool)
      ensures sql.Valid() && sql.history == [] && sql.sessionId == sessionId && fresh(sql) && this.nested == nested
      ensures log == [] && Stored() == NO_SLOTS && published == []
    {
      sql := new SqlSessionStore(sessionId);
      this.nested := nested;
      log, meta, nextSlot, published := [], Empty, 1, [];
    }

    /** A refused statement that fails the transaction: a meta row's, or a plan's where transactions do not nest. */
    ghost predicate Uncontained(faults: WriteFaults) {
      || (exists w :: faults.rows(w))
      || (!nested && exists id, cursor :: faults.plans(id, cursor).Some?)
    }

    function Stored(): Tables
      reads this
    {
      Tables(meta, nextSlot)
    }

    ghost predicate Valid(definition: Version -> Definition)
      reads this, sql
    {
      sql.Valid() && sql.history == log && Inv(Stored(), log, definition)
    }

    // -------------------------------------------------------------------------
    // Statements
    // -------------------------------------------------------------------------

    method InsertTranscriptSlot(version: Version, role: Role, refused: bool) returns (ok: bool)
      requires UniqueRoles(meta) && RoleFree(meta, nextSlot, role)
      modifies `meta, `nextSlot
      ensures ok == !refused && UniqueRoles(meta)
      ensures Stored() == if ok then InsertSlot(old(Stored()), version, role) else old(Stored())
    {
      if refused {
        return false;
      }
      ok := true;
      RoleWriteKeepsIndex(meta, nextSlot, Slot(nextSlot, version, role, 0, Healthy, 0, NO_ROWS));
      meta := meta.Set(nextSlot, Slot(nextSlot, version, role, 0, Healthy, 0, NO_ROWS));
      nextSlot := nextSlot + 1;
    }

    method SetTranscriptSlotRole(id: SlotId, role: Role, refused: bool) returns (ok: bool)
      requires UniqueRoles(meta) && RoleFree(meta, id, role)
      modifies `meta
      ensures ok == !refused && UniqueRoles(meta)
      ensures Stored() == if ok then SetRole(old(Stored()), id, role) else old(Stored())
    {
      if refused {
        return false;
      }
      ok := true;
      if meta.Has(id) {
        RoleWriteKeepsIndex(meta, id, meta.Get(id).value.(role := role));
        meta := meta.Set(id, meta.Get(id).value.(role := role));
      }
    }

    method SetTranscriptSliceFailures(id: SlotId, failures: nat)
      modifies `meta
      ensures Stored() == SetFailures(old(Stored()), id, failures)
    {
      if meta.Has(id) {
        meta := meta.Set(id, meta.Get(id).value.(sliceFailures := failures));
      }
    }

    method MarkTranscriptSlotFailed(id: SlotId, failedAt: Seq, refused: bool) returns (ok: bool)
      modifies `meta
      ensures ok == !refused
      ensures Stored() == if ok then Freeze(old(Stored()), id, failedAt) else old(Stored())
    {
      if refused {
        return false;
      }
      ok := true;
      if meta.Has(id) {
        meta := meta.Set(id, meta.Get(id).value.(status := Frozen(failedAt)));
      }
    }

    /** Upsert every record, insert every alias that is not there, then move the cursor; stop at a refused statement. */
    method WriteTranscriptPlan(s: Slot, plan: Plan, fault: Option<nat>) returns (ok: bool)
      requires meta.Get(s.slot) == Some(s)
      modifies `meta
      ensures ok <==> !(fault.Some? && fault.value < Statements(plan))
      ensures ok ==> Stored() == Rewrite(old(Stored()), s.slot, Planned(s, Some(plan), 0))
    {
      ghost var before := meta;
      SetSame(meta, s.slot);
      for i := 0 to |plan.records|
        invariant meta == before.Set(s.slot, s.(content :=
                  Content(Put(s.content.records, plan.records[..i]), s.content.aliases)))
        invariant fault.Some? ==> i <= fault.value
      {
        if fault == Some(i) {
          return false;
        }
        var row := meta.Get(s.slot).value;
        assert plan.records[..i + 1][..i] == plan.records[..i];
        SetTwice(before, s.slot, row,
          row.(content := row.content.(records := row.content.records[plan.records[i].0 := plan.records[i].1])));
        meta := meta.Set(s.slot, row.(content :=
          row.content.(records := row.content.records[plan.records[i].0 := plan.records[i].1])));
      }
      assert plan.records[..|plan.records|] == plan.records;
      ok := InsertPlannedAliases(s, plan, fault, before);
      if !ok || fault == Some(|plan.records| + |plan.aliases|) {
        return false;
      }
      var row := meta.Get(s.slot).value;
      SetTwice(before, s.slot, row, row.(cursor := plan.throughSeq));
      meta := meta.Set(s.slot, row.(cursor := plan.throughSeq));
    }

    method InsertPlannedAliases(
        s: Slot, plan: Plan, fault: Option<nat>, ghost before: OrderedMap<SlotId, Slot>) returns (ok: bool)
      requires before.Get(s.slot) == Some(s)
      requires meta == before.Set(s.slot, s.(content :=
               Content(Put(s.content.records, plan.records), s.content.aliases)))
      requires fault.Some? ==> |plan.records| <= fault.value
      modifies `meta
      ensures ok <==> !(fault.Some? && fault.value < |plan.records| + |plan.aliases|)
      ensures ok ==> meta == before.Set(s.slot, s.(content := Written(s.content, plan)))
    {
      var records := meta.Get(s.slot).value.content.records;
      for i := 0 to |plan.aliases|
        invariant meta == before.Set(s.slot, s.(content :=
                  Content(records, InsertAliases(s.content.aliases, plan.aliases[..i]))))
        invariant fault.Some? ==> |plan.records| + i <= fault.value
      {
        if fault == Some(|plan.records| + i) {
          return false;
        }
        var row := meta.Get(s.slot).value;
        var alias := plan.aliases[i];
        assert plan.aliases[..i + 1][..i] == plan.aliases[..i];
        if alias.0 !in row.content.aliases {
          SetTwice(before, s.slot, row, row.(content :=
            row.content.(aliases := row.content.aliases[alias.0 := alias.1])));
          meta := meta.Set(s.slot, row.(content := row.content.(aliases := row.content.aliases[alias.0 := alias.1])));
        }
      }
      assert plan.aliases[..|plan.aliases|] == plan.aliases;
      return true;
    }

    // -------------------------------------------------------------------------
    // Reconciliation
    // -------------------------------------------------------------------------

    /** A refused write stops the reconciliation; the transaction it is part of then fails. */
    method ReconcileTranscriptSlots(
        config: Config, head: Seq, refuses: RowWrite -> bool, ghost definition: Version -> Definition)
      returns (ok: bool)
      requires Inv(Stored(), log, definition)
      modifies `meta, `nextSlot
      ensures ok ==> Stored() == Reconcile(old(Stored()), config, head)
      ensures !ok ==> exists w :: refuses(w)
      ensures UniqueRoles(meta)
    {
      var slots := LiveSlots(Stored());
      NewVersionFits(Stored(), config, log, definition);
      if slots == [] {
        var role := if head == 0 then Active else Building;
        ok := InsertTranscriptSlot(config.current, role, refuses(InsertRow(config.current, role)));
        return;
      }
      for i := 0 to |slots|
        invariant Stored() == RetireStale(old(Stored()), slots[..i], config.current) && UniqueRoles(meta)
      {
        assert slots[..i + 1][..i] == slots[..i];
        if slots[i].role == Building && slots[i].version != config.current {
          ok := SetTranscriptSlotRole(slots[i].slot, Retired, refuses(RoleOf(slots[i].slot, Retired)));
          if !ok {
            return;
          }
        }
      }
      assert slots[..|slots|] == slots;
      ok := true;
      if !ActiveIs(slots, config.current) && !TranscriptSlots.Has(slots, BuildingOf(config.current)) {
        ok := InsertTranscriptSlot(config.current, Building, refuses(InsertRow(config.current, Building)));
      }
    }

    // -------------------------------------------------------------------------
    // Advancing
    // -------------------------------------------------------------------------

    /** What advancing counts as a failure here: refused writes too where transactions nest. */
    function Failing(env: Env, faults: WriteFaults): Env {
      if nested then FailsOnWrite(env, faults) else env
    }

    /** Freeze the slot and raise the alert; a refused freeze fails the caller's transaction. */
    method FreezeSlot(s: Slot, failedAt: Seq, refuses: RowWrite -> bool) returns (ok: bool, alerts: seq<Alert>)
      modifies `meta
      ensures ok ==>
              Stored() == Freeze(old(Stored()), s.slot, failedAt)
              && alerts == [ProjectionFailed(s.version, s.role, failedAt)]
      ensures !ok ==> exists w :: refuses(w)
    {
      ok := MarkTranscriptSlotFailed(s.slot, failedAt, refuses(MarkFailed(s.slot)));
      alerts := [ProjectionFailed(s.version, s.role, failedAt)];
    }

    /**
     * Plan first, then write. Where transactions nest a refused write of the plan rolls back this slot
     * only and freezes it; where they do not, and when the freeze is refused, the caller's transaction fails.
     */
    method AdvanceStoredSlot(
        s: Slot, env: Env, faults: WriteFaults, events: seq<Committed>) returns (ok: bool, alerts: seq<Alert>)
      requires meta.Get(s.slot) == Some(s)
      modifies `meta
      ensures !ok ==> Uncontained(faults)
      ensures ok ==> Stored() == AdvanceSlot(old(Stored()), s, Failing(env, faults), events)
      ensures ok && s.Live() ==> alerts == AlertOf(s, Advanced(s, Failing(env, faults), events))
    {
      var first := Find(events, Past(s.cursor));
      alerts := [];
      if first.None? || s.status.Frozen? || s.role == Retired {
        SetSame(meta, s.slot);
        return true, [];
      }
      var plan := PlanFor(s, env, events);
      if plan.None? {
        ok, alerts := FreezeSlot(s, first.value.at, faults.rows);
        return;
      }
      var before := meta;
      ok := WriteTranscriptPlan(s, plan.value, RefusedAt(faults, s, plan.value));
      if !ok && nested {
        meta := before;
        ok, alerts := FreezeSlot(s, first.value.at, faults.rows);
      }
    }

    /** A version that is behind is left to the builder. */
    method AdvanceCaughtUp(
        s: Slot, config: Config, env: Env, faults: WriteFaults, headBefore: Seq, appended: seq<Committed>)
      returns (ok: bool, alerts: seq<Alert>)
      requires meta.Get(s.slot) == Some(s) && s.Live()
      modifies `meta
      ensures !ok ==> Uncontained(faults)
      ensures ok ==> Stored() == if CaughtUp(config, headBefore, s)
              then AdvanceSlot(old(Stored()), s, Failing(env, faults), appended) else old(Stored())
      ensures ok ==> alerts == if CaughtUp(config, headBefore, s)
              then AlertOf(s, Advanced(s, Failing(env, faults), appended)) else []
    {
      if config.Carries(s.version) && s.status.Healthy? && s.cursor == headBefore {
        ok, alerts := AdvanceStoredSlot(s, env, faults, appended);
      } else {
        return true, [];
      }
    }

    /** The append hook over every caught-up version; each fails on its own, or all of them with the transaction. */
    method MaintainTranscriptsOnAppend(
        config: Config, env: Env, faults: WriteFaults, headBefore: Seq, appended: seq<Committed>)
      returns (ok: bool, alerts: seq<Alert>)
      requires Inv(Stored(), log, env.definition)
      modifies `meta, `nextSlot
      ensures !ok ==> Uncontained(faults)
      ensures ok ==> Stored() == MaintainOnAppend(old(Stored()), config, Failing(env, faults), headBefore, appended)
      ensures ok && appended != [] ==>
                alerts == AppendAlerts(LiveSlots(Reconcile(old(Stored()), config, headBefore)), config,
                  Failing(env, faults), headBefore, appended)
    {
      alerts := [];
      ReconcileKeeps(Stored(), config, headBefore, log, env.definition);
      ok := ReconcileTranscriptSlots(config, headBefore, faults.rows, env.definition);
      if !ok {
        return;
      }
      if appended == [] {
        return true, [];
      }
      ghost var reconciled := Stored();
      var slots := LiveSlots(Stored());
      LiveAt(reconciled);
      ghost var effective := Failing(env, faults);
      for i := 0 to |slots|
        invariant Stored() == AdvanceEach(reconciled, slots[..i], config, effective, headBefore, appended)
        invariant alerts == AppendAlerts(slots[..i], config, effective, headBefore, appended)
      {
        var s := slots[i];
        AdvanceEachSnoc(reconciled, slots, i, config, effective, headBefore, appended);
        Untouched(reconciled, slots, i, config, effective, headBefore, appended);
        var raised: seq<Alert>;
        ok, raised := AdvanceCaughtUp(s, config, env, faults, headBefore, appended);
        if !ok {
          return;
        }
        alerts := alerts + raised;
      }
      assert slots[..|slots|] == slots;
      return true, alerts;
    }

    // -------------------------------------------------------------------------
    // The append transaction
    // -------------------------------------------------------------------------

    /** Insert or find every event of the batch; collect the new ones. */
    method InsertEvents(events: seq<Event>) returns (answers: Option<seq<Committed>>, inserted: seq<Committed>)
      requires sql.Valid()
      modifies sql
      ensures answers.Some? <==> SqlAppendBatch(sql.sessionId, old(sql.history), events).Some?
      ensures answers.Some? ==>
                && sql.Valid() && sql.history == old(sql.history) + inserted
                && SqlAppendBatch(sql.sessionId, old(sql.history), events) == Some(Answers(sql.history, answers.value))
    {
      ghost var history0 := sql.history;
      var entries: seq<Committed> := [];
      inserted := [];
      for i := 0 to |events|
        invariant sql.Valid() && sql.history == history0 + inserted
        invariant SqlAppendBatch(sql.sessionId, history0, events[..i]) == Some(Answers(sql.history, entries))
      {
        assert events[..i + 1][..i] == events[..i];
        var size := |sql.eventLog|;
        var entry := sql.InsertOrRead(events[i]);
        if entry.None? {
          FailedForever(sql.sessionId, history0, events, i);
          return None, [];
        }
        if |sql.eventLog| > size {
          inserted := inserted + [entry.value];
        }
        entries := entries + [entry.value];
      }
      assert events[..|events|] == events;
      answers := Some(entries);
    }

    /**
     * One transaction: the events, then the hook, then the alerts once it committed. It answers and
     * fails as the store without a transcript does; only a write failure the platform cannot contain
     * fails it too. A failed one restores every table and publishes nothing.
     */
    method Append(
        events: seq<Event>, config: Config, env: Env, faults: WriteFaults) returns (answers: Option<seq<Committed>>)
      requires Valid(env.definition)
      modifies this, sql
      ensures Valid(env.definition)
      ensures answers.Some? ==> SqlAppendBatch(sql.sessionId, old(log), events) == Some(Answers(log, answers.value))
      ensures answers.None? && SqlAppendBatch(sql.sessionId, old(log), events).Some? ==> Uncontained(faults)
      ensures answers.None? ==>
                log == old(log) && sql.Rows() == old(sql.Rows()) && Stored() == old(Stored())
                  && published == old(published)
      ensures answers.Some? ==>
                && old(log) <= log
                && var appended := log[|old(log)|..];
                   && Stored() == MaintainOnAppend(old(Stored()), config, Failing(env, faults), |old(log)|, appended)
                   && published == old(published) +
                        (if appended == [] then [] else
                         AppendAlerts(LiveSlots(Reconcile(old(Stored()), config, |old(log)|)), config,
                           Failing(env, faults), |old(log)|, appended))
    {
      var rows0, meta0, nextSlot0 := sql.Rows(), meta, nextSlot;
      var inserted: seq<Committed>;
      answers, inserted := InsertEvents(events);
      if answers.None? {
        sql.RollBack(rows0, log);
        return;
      }
      var ok, alerts := MaintainTranscriptsOnAppend(config, env, faults, |log|, inserted);
      if !ok {
        sql.RollBack(rows0, log);
        meta, nextSlot := meta0, nextSlot0;
        return None;
      }
      MaintainKeeps(Tables(meta0, nextSlot0), config, Failing(env, faults), log, inserted);
      assert (log + inserted)[|log|..] == inserted;
      log := log + inserted;
      if inserted != [] {
        published := published + alerts;
      }
    }

    // -------------------------------------------------------------------------
    // Builder slices
    // -------------------------------------------------------------------------

    /** One page into the slot; an event this release cannot read freezes it right there. */
    method BuildPage(
        slot: Slot, env: Env, faults: WriteFaults, page: seq<Committed>) returns (ok: bool, alerts: seq<Alert>)
      requires meta.Get(slot.slot) == Some(slot) && slot.Live() && slot.status.Healthy?
      modifies `meta
      ensures !ok ==> Uncontained(faults)
      ensures ok ==>
                && Stored() == Rewrite(old(Stored()), slot.slot, AfterPage(slot, Failing(env, faults), page, |page|).0)
                && alerts == AlertOf(slot, AfterPage(slot, Failing(env, faults), page, |page|).0)
    {
      if !Decodable(env, page) {
        ok, alerts := FreezeSlot(slot, slot.cursor + 1, faults.rows);
        return;
      }
      ok, alerts := AdvanceStoredSlot(slot, env, faults, page);
    }

    /** The next page of a build, and what is left of the slice after it. */
    method BuildNextPage(slot: Slot, env: Env, faults: WriteFaults, limits: SliceLimits, remaining: nat)
      returns (ok: bool, next: Slot, left: nat, alerts: seq<Alert>)
      requires Dense(log, 0) && meta.Get(slot.slot) == Some(slot) && slot.Live() && slot.status.Healthy?
      requires slot.cursor < |log| && remaining > 0
      modifies `meta
      ensures !ok ==> Uncontained(faults)
      ensures ok ==>
                && Stored() == Rewrite(old(Stored()), slot.slot, next) && left < remaining
                && SameShape(slot, next) && next.cursor <= |log| && alerts == AlertOf(slot, next)
                && BuiltSlot(slot, Failing(env, faults), log, limits.pageEvents, remaining)
                   == BuiltSlot(next, Failing(env, faults), log, limits.pageEvents, left)
    {
      var page := Page(log, slot.cursor, Min(limits.pageEvents, remaining));
      ghost var after, rest := NextPage(slot, Failing(env, faults), log, limits, remaining);
      ok, alerts := BuildPage(slot, env, faults, page);
      if !ok {
        next, left := slot, 0;
        return;
      }
      next := meta.Get(slot.slot).value;
      assert next == after;
      left := if Decodable(env, page) then remaining - |page| else 0;
      assert left == rest;
    }

    /** Page after page until the target reaches the head, freezes or uses up the slice. */
    method BuildTargetSlot(
        target: Slot, env: Env, faults: WriteFaults, limits: SliceLimits) returns (ok: bool, alerts: seq<Alert>)
      requires Dense(log, 0) && meta.Get(target.slot) == Some(target) && target.Live() && target.cursor <= |log|
      requires target.status.Healthy?
      modifies `meta
      ensures !ok ==> Uncontained(faults)
      ensures ok ==>
                && Stored() == Rewrite(old(Stored()), target.slot,
                  BuiltSlot(target, Failing(env, faults), log, limits.pageEvents, limits.maxEvents))
                && alerts == AlertOf(target, BuiltSlot(target, Failing(env, faults), log, limits.pageEvents,
                  limits.maxEvents))
    {
      var slot: Slot, remaining: nat := target, limits.maxEvents;
      ghost var before := Stored();
      ghost var final := BuiltSlot(target, Failing(env, faults), log, limits.pageEvents, limits.maxEvents);
      alerts := [];
      SetSame(meta, target.slot);
      while slot.status.Healthy? && slot.cursor < |log| && remaining > 0
        invariant SameShape(target, slot) && slot.cursor <= |log|
        invariant Stored() == Rewrite(before, target.slot, slot)
        invariant final == BuiltSlot(slot, Failing(env, faults), log, limits.pageEvents, remaining)
        invariant alerts == AlertOf(target, slot)
        decreases remaining
      {
        ghost var was := slot;
        ok, slot, remaining, alerts := BuildNextPage(slot, env, faults, limits, remaining);
        if !ok {
          return;
        }
        RewriteTwice(before, target.slot, was, slot);
      }
      ok := true;
      BuildEnds(slot, Failing(env, faults), log, limits.pageEvents, remaining);
    }

    /** A healthy build at the head replaces the active version. */
    method ActivateBuilt(slots: seq<Slot>, id: SlotId, refuses: RowWrite -> bool) returns (ok: bool)
      requires UniqueRoles(meta) && NamesActive(slots, meta)
      modifies `meta
      ensures ok ==> Stored() == Activate(old(Stored()), slots, id, |log|)
      ensures !ok ==> exists w :: refuses(w)
      ensures UniqueRoles(meta)
    {
      var slot := meta.Get(id);
      if slot.Some? && slot.value.role == Building && slot.value.status.Healthy? && slot.value.cursor == |log| {
        var previous := Find(slots, IsActive);
        if previous.Some? {
          ok := SetTranscriptSlotRole(previous.value.slot, Retired, refuses(RoleOf(previous.value.slot, Retired)));
          if !ok {
            return;
          }
        }
        ok := SetTranscriptSlotRole(id, Active, refuses(RoleOf(id, Active)));
      } else {
        ok := true;
      }
    }

    /** Retired slots in creation order, within the row budget. */
    method DeleteRetired(env: Env, limits: SliceLimits)
      modifies `meta
      ensures Stored() == CleanUp(old(Stored()), old(meta).Values(), env, limits.maxDeletedRows)
    {
      var slots := meta.Values();
      var deleteBudget: int := limits.maxDeletedRows;
      ghost var before := Stored();
      for i := 0 to |slots|
        invariant CleanUp(before, slots, env, limits.maxDeletedRows) == CleanUp(Stored(), slots[i..], env, deleteBudget)
      {
        if deleteBudget <= 0 {
          break;
        }
        assert slots[i..][0] == slots[i] && slots[i..][1..] == slots[i + 1..];
        if slots[i].role == Retired {
          var s := slots[i];
          if Deleted(s, env, deleteBudget) < deleteBudget {
            meta := meta.Delete(s.slot);
          } else if meta.Has(s.slot) {
            meta := meta.Set(s.slot, s.(content := LeftRows(s, env, deleteBudget)));
          }
          deleteBudget := deleteBudget - Deleted(s, env, deleteBudget);
        }
      }
    }

    /** Build the target, then clear its failures. */
    method BuildAndClear(
        s: Slot, env: Env, faults: WriteFaults, limits: SliceLimits) returns (ok: bool, alerts: seq<Alert>)
      requires Dense(log, 0) && meta.Get(s.slot) == Some(s) && s.Live() && s.cursor <= |log| && s.status.Healthy?
      modifies `meta
      ensures !ok ==> Uncontained(faults)
      ensures ok ==>
                && Stored() == Rewrite(old(Stored()), s.slot, BuiltRow(s, Failing(env, faults), log, limits))
                && alerts == AlertOf(s, BuiltRow(s, Failing(env, faults), log, limits))
    {
      ghost var before := Stored();
      ok, alerts := BuildTargetSlot(s, env, faults, limits);
      if !ok {
        return;
      }
      ghost var built := BuiltSlot(s, Failing(env, faults), log, limits.pageEvents, limits.maxEvents);
      BuiltSlotMoves(s, Failing(env, faults), log, limits.pageEvents, limits.maxEvents);
      RewriteTwice(before, s.slot, built, built.(sliceFailures := 0));
      if s.sliceFailures > 0 {
        SetTranscriptSliceFailures(s.slot, 0);
      }
    }

    /** Build the target, clear its failures and activate it when ready. */
    method BuildAndActivateStored(config: Config, env: Env, faults: WriteFaults, limits: SliceLimits)
      returns (end: SliceEnd, alerts: seq<Alert>)
      requires Inv(Stored(), log, env.definition) && TargetUsable(Stored(), config, |log|)
      modifies `meta
      ensures end.BuildFailed? ==> Uncontained(faults)
      ensures end.OtherFailed? ==> exists w :: faults.rows(w)
      ensures end.Finished? ==>
                && Stored() == BuildAndActivate(old(Stored()), config, Failing(env, faults), log, limits)
                && alerts == BuildAlerts(old(Stored()), config, Failing(env, faults), log, limits)
    {
      var slots := LiveSlots(Stored());
      var target := BuildTarget(config, slots, |log|);
      if target.None? {
        return Finished, [];
      }
      ghost var before := Stored();
      LiveSlotsNameActive(before);
      var ok: bool;
      ok, alerts := BuildAndClear(target.value, env, faults, limits);
      if !ok {
        return BuildFailed, [];
      }
      BuiltSlotMoves(target.value, Failing(env, faults), log, limits.pageEvents, limits.maxEvents);
      RolesKept(before.meta, slots, target.value, BuiltRow(target.value, Failing(env, faults), log, limits));
      ok := ActivateBuilt(slots, target.value.slot, faults.rows);
      end := if ok then Finished else OtherFailed;
    }

    /** One slice inside its transaction; a statement the platform cannot contain ends it. */
    method RunTranscriptSlice(config: Config, env: Env, faults: WriteFaults, limits: SliceLimits)
      returns (end: SliceEnd, pending: bool, alerts: seq<Alert>)
      requires Valid(env.definition)
      modifies `meta, `nextSlot
      ensures end.BuildFailed? ==> Uncontained(faults)
      ensures end.OtherFailed? ==> exists w :: faults.rows(w)
      ensures end.Finished? ==>
                && Stored() == RunSlice(old(Stored()), config, Failing(env, faults), log, limits)
                && pending == HasPendingWork(Stored(), config, |log|)
                && alerts == BuildAlerts(Reconcile(old(Stored()), config, |log|), config, Failing(env, faults), log,
                  limits)
    {
      pending, alerts := false, [];
      ReconcileKeeps(Stored(), config, |log|, log, env.definition);
      var ok := ReconcileTranscriptSlots(config, |log|, faults.rows, env.definition);
      if !ok {
        return OtherFailed, false, [];
      }
      TargetIsUsable(Stored(), config, log, env.definition);
      ghost var built := BuildAndActivate(Stored(), config, Failing(env, faults), log, limits);
      end, alerts := BuildAndActivateStored(config, env, faults, limits);
      if !end.Finished? {
        return;
      }
      DeleteRetired(env, limits);
      CleanUpPicks(built, built.meta.Values(), env, Failing(env, faults), limits.maxDeletedRows);
      pending := HasPendingWork(Stored(), config, |log|);
    }

    /** Count the failure against the slice's target; whether that froze it. */
    method RecordFailure(
        config: Config, limits: SliceLimits, ghost definition: Version -> Definition)
        returns (frozen: bool, alerts: seq<Alert>)
      requires Valid(definition)
      modifies `meta, `nextSlot
      ensures Stored() == RecordSliceFailure(old(Stored()), config, log, limits)
      ensures frozen == FailureFreezes(Reconcile(old(Stored()), config, |log|), config, |log|, limits)
      ensures alerts == FailureAlerts(Reconcile(old(Stored()), config, |log|), config, |log|, limits)
    {
      var ok := ReconcileTranscriptSlots(config, |log|, NoneRefused(), definition);
      var target := BuildTarget(config, LiveSlots(Stored()), |log|);
      frozen, alerts := false, [];
      if target.Some? {
        SetTranscriptSliceFailures(target.value.slot, target.value.sliceFailures + 1);
        if target.value.sliceFailures + 1 >= limits.maxSliceFailures {
          ok := MarkTranscriptSlotFailed(target.value.slot, target.value.cursor + 1, false);
          frozen, alerts := true, [ProjectionFailed(target.value.version, target.value.role, target.value.cursor + 1)];
        }
      }
    }

    /**
     * One slice in one transaction. When it throws, everything it did is undone. Only a failure while
     * building is then counted against its target, in a transaction of its own; the error is swallowed
     * only when that froze the target. The log is never touched.
     */
    method RunStoredSlice(
        config: Config, env: Env, faults: SliceFaults, limits: SliceLimits) returns (outcome: SliceOutcome)
      requires Valid(env.definition) && FairPick(env.pick)
      modifies `meta, `nextSlot, `published
      ensures Valid(env.definition)
      ensures outcome.Remaining? ==> outcome.pending == HasPendingWork(Stored(), config, |log|)
      ensures
        || (&& outcome.Remaining?
            && Stored() == RunSlice(old(Stored()), config, Failing(env, faults.writes), log, limits)
            && published == old(published)
              + BuildAlerts(Reconcile(old(Stored()), config, |log|), config, Failing(env, faults.writes), log, limits))
        || (&& Uncontained(faults.writes) && Stored() == RecordSliceFailure(old(Stored()), config, log, limits)
            && (outcome.Remaining? <==> FailureFreezes(Reconcile(old(Stored()), config, |log|), config, |log|, limits))
            && published == old(published)
              + FailureAlerts(Reconcile(old(Stored()), config, |log|), config, |log|, limits))
        || (&& outcome.Threw?
            && (faults.elsewhere || (exists w :: faults.writes.rows(w))
              || (Uncontained(faults.writes) && faults.record))
            && Stored() == old(Stored()) && published == old(published))
    {
      var meta0, nextSlot0 := meta, nextSlot;
      ghost var before := Stored();
      var end, more, alerts := RunTranscriptSlice(config, env, faults.writes, limits);
      if end.BuildFailed? {
        meta, nextSlot := meta0, nextSlot0;
        outcome := CountFailure(config, env, faults, limits);
        return;
      }
      if end.OtherFailed? || faults.elsewhere {
        meta, nextSlot := meta0, nextSlot0;
        return Threw;
      }
      SliceKeeps(before, config, Failing(env, faults.writes), log, limits);
      published := published + alerts;
      outcome := Remaining(more);
    }

    /** The record of a failed slice, in its own transaction; nothing is counted when that is refused. */
    method CountFailure(
        config: Config, env: Env, faults: SliceFaults, limits: SliceLimits) returns (outcome: SliceOutcome)
      requires Valid(env.definition)
      modifies `meta, `nextSlot, `published
      ensures Valid(env.definition)
      ensures outcome.Remaining? ==> outcome.pending == HasPendingWork(Stored(), config, |log|)
      ensures faults.record ==> outcome.Threw? && Stored() == old(Stored()) && published == old(published)
      ensures !faults.record ==>
                && Stored() == RecordSliceFailure(old(Stored()), config, log, limits)
                && (outcome.Remaining? <==> FailureFreezes(Reconcile(old(Stored()), config, |log|), config, |log|,
                  limits))
                && published == old(published)
                  + FailureAlerts(Reconcile(old(Stored()), config, |log|), config, |log|, limits)
    {
      if faults.record {
        return Threw;
      }
      ghost var before := Stored();
      var frozen, alerts := RecordFailure(config, limits, env.definition);
      RecordFailureKeeps(before, config, env, log, limits);
      published := published + alerts;
      outcome := if frozen then Remaining(HasPendingWork(Stored(), config, |log|)) else Threw;
    }

    /** Nothing refused fails a slice. */
    ghost predicate Contained(faults: SliceFaults) {
      !Uncontained(faults.writes) && !faults.elsewhere
    }

    /** As long as every refusal is contained, the slots are those after so many slices. */
    ghost predicate AfterSlices(
        first: Tables, config: Config, env: Env, faults: SliceFaults, limits: SliceLimits, n: nat)
      reads this
    {
      Contained(faults) ==>
        Stored()
        == Termination.RunSlices(first, config, Failing(env, faults.writes), log, limits, n)
    }

    method RunNextSlice(
        config: Config, env: Env, faults: SliceFaults, limits: SliceLimits, ghost first: Tables, ghost n: nat)
      returns (outcome: SliceOutcome)
      requires Valid(env.definition) && FairPick(env.pick) && AfterSlices(first, config, env, faults, limits, n)
      modifies `meta, `nextSlot, `published
      ensures Valid(env.definition) && AfterSlices(first, config, env, faults, limits, n + 1)
      ensures outcome.Remaining? ==> outcome.pending == HasPendingWork(Stored(), config, |log|)
      ensures Contained(faults) ==> outcome.Remaining?
    {
      outcome := RunStoredSlice(config, env, faults, limits);
      IterateSnoc(Termination.SliceStep(config, Failing(env, faults.writes), log, limits), first, n);
    }

    /** Slice after slice until no work remains, one throws, or the limit is reached. */
    method RunSlices(
        maxSlices: nat, config: Config, env: Env, faults: SliceFaults, limits: SliceLimits)
        returns (outcome: SliceOutcome)
      requires Valid(env.definition) && FairPick(env.pick)
      modifies `meta, `nextSlot, `published
      ensures Valid(env.definition)
      ensures outcome == Remaining(false) ==> !HasPendingWork(Stored(), config, |log|)
      ensures Contained(faults) ==> outcome.Remaining?
      ensures exists n :: 0 <= n <= maxSlices && AfterSlices(old(Stored()), config, env, faults, limits, n)
                          && (outcome == Remaining(true) ==> n == maxSlices)
    {
      ghost var first := Stored();
      for n := 0 to maxSlices
        invariant Valid(env.definition) && AfterSlices(first, config, env, faults, limits, n)
      {
        outcome := RunNextSlice(config, env, faults, limits, first, n);
        if outcome != Remaining(true) {
          return;
        }
      }
      outcome := Remaining(true);
    }

    /** Reconcile versions, then serve one cut of the active one; a refused reconciliation fails the read. */
    method ReadWindow(
        config: Config, decodes: Slot -> bool, refuses: RowWrite -> bool, ghost definition: Version -> Definition)
      returns (cut: Option<Cut>)
      requires Valid(definition)
      modifies `meta, `nextSlot
      ensures Valid(definition)
      ensures cut.None? ==> Stored() == old(Stored()) && exists w :: refuses(w)
      ensures cut.Some? ==> Stored() == Reconcile(old(Stored()), config, |log|)
      ensures cut.Some? ==> cut.value == ReadCut(Stored(), config, |log|, decodes) && cut.value.throughSeq <= |log|
      ensures cut.Some? && cut.value.readiness != Unreadable ==>
                Project(definition(cut.value.version), NO_ROWS, log[..cut.value.throughSeq]) == Some(cut.value.content)
    {
      var meta0, nextSlot0 := meta, nextSlot;
      ReconcileKeeps(Stored(), config, |log|, log, definition);
      var ok := ReconcileTranscriptSlots(config, |log|, refuses, definition);
      if !ok {
        meta, nextSlot := meta0, nextSlot0;
        return None;
      }
      ServedCutIsProjection(Stored(), config, log, definition, decodes);
      cut := Some(ReadCut(Stored(), config, |log|, decodes));
    }
  }

  /** What one page makes of the target, and what is left of the slice then. */
  lemma {:induction false} NextPage(
      s: Slot, env: Env, log: seq<Committed>, limits: SliceLimits, remaining: nat) returns (next: Slot, left: nat)
    requires Dense(log, 0) && s.cursor < |log| && s.Live() && s.status.Healthy? && remaining > 0
    ensures var page := Page(log, s.cursor, Min(limits.pageEvents, remaining));
            && 0 < |page| <= remaining && next == AfterPage(s, env, page, |page|).0
            && SameShape(s, next) && next.cursor <= |log|
            && left == (if Decodable(env, page) then remaining - |page| else 0)
    ensures BuiltSlot(s, env, log, limits.pageEvents, remaining) == BuiltSlot(next, env, log, limits.pageEvents, left)
  {
    var page := Page(log, s.cursor, Min(limits.pageEvents, remaining));
    PageFacts(log, s.cursor, Min(limits.pageEvents, remaining));
    NextIsDense(page, s.cursor, log);
    AfterPageMoves(s, env, log, page, |page|);
    BuiltPageByPage(s, env, log, limits.pageEvents, remaining, page);
    next := AfterPage(s, env, page, |page|).0;
    left := if Decodable(env, page) then remaining - |page| else 0;
  }

  lemma {:induction false} BuildEnds(s: Slot, env: Env, log: seq<Committed>, pageEvents: nat, remaining: nat)
    requires s.status.Frozen? || s.cursor >= |log| || remaining == 0
    ensures BuiltSlot(s, env, log, pageEvents, remaining) == s
  {
  }

  /** Deleting depends on which rows are picked, not on which projections fail. */
  lemma {:induction false} CleanUpPicks(t: Tables, slots: seq<Slot>, a: Env, b: Env, budget: int)
    requires a.pick == b.pick
    ensures CleanUp(t, slots, a, budget) == CleanUp(t, slots, b, budget)
    decreases |slots|
  {
    if slots != [] && budget > 0 {
      if slots[0].role != Retired {
        CleanUpPicks(t, slots[1..], a, b, budget);
      } else {
        assert Deleted(slots[0], a, budget) == Deleted(slots[0], b, budget);
        CleanUpPicks(DeleteRetiredRows(t, slots[0], a, budget), slots[1..], a, b,
          budget - Deleted(slots[0], a, budget));
      }
    }
  }

  lemma {:induction false} AdvanceEachSnoc(
      t: Tables, slots: seq<Slot>, i: nat, config: Config, env: Env, head: Seq, events: seq<Committed>)
    requires i < |slots|
    ensures var before, s := AdvanceEach(t, slots[..i], config, env, head, events), slots[i];
            AdvanceEach(t, slots[..i + 1], config, env, head, events) ==
              if CaughtUp(config, head, s) then AdvanceSlot(before, s, env, events) else before
    ensures var s := slots[i];
            AppendAlerts(slots[..i + 1], config, env, head, events)
            == AppendAlerts(slots[..i], config, env, head, events) + (if CaughtUp(config, head, s)
              then AlertOf(s, Advanced(s, env, events)) else [])
  {
    assert slots[..i + 1][..i] == slots[..i] && slots[..i + 1][i] == slots[i];
  }

  /** The slots still to come are as they were read. */
  lemma {:induction false} Untouched(
      t: Tables, slots: seq<Slot>, i: nat, config: Config, env: Env, head: Seq, events: seq<Committed>)
    requires i < |slots| && DistinctBy(slots, IdOf)
    requires forall s :: s in slots ==> t.meta.Get(s.slot) == Some(s) && s.Live()
    ensures AdvanceEach(t, slots[..i], config, env, head, events).meta.Get(slots[i].slot) == Some(slots[i])
  {
    var front := slots[..i];
    assert DistinctBy(front, IdOf);
    assert forall s :: s in front ==> s in slots;
    AdvanceEachRows(t, front, config, env, head, events);
    assert slots[i] in slots;
    forall s | s in front ensures s.slot != slots[i].slot {
      var k :| 0 <= k < |front| && front[k] == s;
      assert IdOf(slots[k]) != IdOf(slots[i]);
    }
  }
}
