/** Stored transcript versions and every step that changes them, as functions on the slot table. */
module TranscriptSlots {
  import opened Collections
  import opened Events
  import opened TranscriptPlan

  type Version = string

  type SlotId = int

  datatype Role = Active | Building | Retired

  datatype Status = Healthy | Frozen(failedAtSeq: Seq)

  /** One stored instance of a version: its meta row and the rows kept under it. */
  datatype Slot = Slot(slot: SlotId, version: Version, role: Role, cursor: Seq, status: Status, sliceFailures: nat,
    content: Content)
  {
    predicate Live() {
      role != Retired
    }
  }

  /** The slot table in creation order, and the next id it will hand out. */
  datatype Tables = Tables(meta: OrderedMap<SlotId, Slot>, nextSlot: SlotId)

  const NO_SLOTS := Tables(Empty, 1)

  /** The versions a release carries. */
  datatype Config = Config(current: Version, previous: Option<Version>)
  {
    predicate Carries(v: Version) {
      v == current || previous == Some(v)
    }
  }

  datatype Limits = Limits(maxEvents: nat, pageEvents: nat, maxDeletedRows: nat, maxSliceFailures: nat)
  {
    predicate Valid() {
      maxEvents >= 1 && pageEvents >= 1 && maxDeletedRows >= 1 && maxSliceFailures >= 1
    }
  }

  type SliceLimits = l: Limits | l.Valid() witness Limits(512, 16, 2000, 5)

  /**
   * What the step cannot decide itself: the definition a version names, which log events this
   * release decodes, which projections fail for a reason of their own, and which rows a bounded
   * deletion picks.
   */
  datatype Env = Env(
    definition: Version -> Definition,
    decodes: Committed -> bool,
    fails: (SlotId, Seq) -> bool,
    pick: (set<string>, nat) -> set<string>)

  function Min(a: nat, b: nat): nat {
    if a < b then a else b
  }

  /** A bounded deletion picks as many rows as it may. */
  ghost predicate FairPick(pick: (set<string>, nat) -> set<string>) {
    forall rows, limit {:trigger pick(rows, limit)} :: pick(rows, limit) <= rows
      && |pick(rows, limit)| == Min(limit, |rows|)
  }

  // ---------------------------------------------------------------------------
  // Single writes
  // ---------------------------------------------------------------------------

  function InsertSlot(t: Tables, version: Version, role: Role): Tables {
    Tables(t.meta.Set(t.nextSlot, Slot(t.nextSlot, version, role, 0, Healthy, 0, NO_ROWS)), t.nextSlot + 1)
  }

  /** Rewrite one row, if it exists. */
  function Rewrite(t: Tables, id: SlotId, s: Slot): Tables {
    if t.meta.Has(id) then t.(meta := t.meta.Set(id, s)) else t
  }

  function SetRole(t: Tables, id: SlotId, role: Role): Tables {
    if t.meta.Has(id) then Rewrite(t, id, t.meta.Get(id).value.(role := role)) else t
  }

  function SetFailures(t: Tables, id: SlotId, failures: nat): Tables {
    if t.meta.Has(id) then Rewrite(t, id, t.meta.Get(id).value.(sliceFailures := failures)) else t
  }

  /** Freeze at the unchanged cursor. */
  function Freeze(t: Tables, id: SlotId, failedAt: Seq): Tables {
    if t.meta.Has(id) then Rewrite(t, id, t.meta.Get(id).value.(status := Frozen(failedAt))) else t
  }

  // ---------------------------------------------------------------------------
  // Reconciliation
  // ---------------------------------------------------------------------------

  predicate IsLive(s: Slot) {
    s.Live()
  }

  predicate IsActive(s: Slot) {
    s.role == Active
  }

  predicate IsRetired(s: Slot) {
    s.role == Retired
  }

  function LiveSlots(t: Tables): seq<Slot> {
    Filter(t.meta.Values(), IsLive)
  }

  function BuildingOf(version: Version): Slot -> bool {
    (s: Slot) => s.role == Building && s.version == version
  }

  predicate Has(slots: seq<Slot>, p: Slot -> bool) {
    Find(slots, p).Some?
  }

  function RetireStale(t: Tables, slots: seq<Slot>, current: Version): Tables {
    if slots == [] then t
    else
      var before, s := RetireStale(t, slots[..|slots| - 1], current), slots[|slots| - 1];
      if s.role == Building && s.version != current then SetRole(before, s.slot, Retired) else before
  }

  predicate ActiveIs(slots: seq<Slot>, version: Version) {
    var active := Find(slots, IsActive);
    active.Some? && active.value.version == version
  }

  function Reconcile(t: Tables, config: Config, head: Seq): Tables {
    var slots := LiveSlots(t);
    if slots == [] then InsertSlot(t, config.current, if head == 0 then Active else Building)
    else
      var retired := RetireStale(t, slots, config.current);
      if !ActiveIs(slots, config.current) && !Has(slots, BuildingOf(config.current))
        then InsertSlot(retired, config.current, Building)
      else retired
  }

  // ---------------------------------------------------------------------------
  // Advancing one slot
  // ---------------------------------------------------------------------------

  function Past(cursor: Seq): Committed -> bool {
    (e: Committed) => e.at > cursor
  }

  /** The row a plan leaves: written and past its events, or frozen at `failedAt` when there is none. */
  function Planned(s: Slot, plan: Option<Plan>, failedAt: Seq): Slot {
    if plan.None? then s.(status := Frozen(failedAt))
    else s.(content := Written(s.content, plan.value), cursor := plan.value.throughSeq)
  }

  /** The plan for the events, unless projecting fails for a reason of its own. */
  function PlanFor(s: Slot, env: Env, events: seq<Committed>): Option<Plan> {
    if env.fails(s.slot, s.cursor) then None
    else PlanTranscriptBatch(env.definition(s.version), s.content, s.cursor, events)
  }

  /** The slot's row after projecting the events into it, or frozen at the first event it could not pass. */
  function Advanced(s: Slot, env: Env, events: seq<Committed>): Slot {
    var first := Find(events, Past(s.cursor));
    if first.None? || s.status.Frozen? || s.role == Retired then s
    else Planned(s, PlanFor(s, env, events), first.value.at)
  }

  function AdvanceSlot(t: Tables, s: Slot, env: Env, events: seq<Committed>): Tables {
    Rewrite(t, s.slot, Advanced(s, env, events))
  }

  predicate CaughtUp(config: Config, head: Seq, s: Slot) {
    config.Carries(s.version) && s.status.Healthy? && s.cursor == head
  }

  /** Each slot in turn, as the slot table read before the first of them showed it. */
  function AdvanceEach(
      t: Tables, slots: seq<Slot>, config: Config, env: Env, head: Seq, events: seq<Committed>): Tables {
    if slots == [] then t
    else
      var before, s := AdvanceEach(t, slots[..|slots| - 1], config, env, head, events), slots[|slots| - 1];
      if CaughtUp(config, head, s) then AdvanceSlot(before, s, env, events) else before
  }

  /** The append hook: bring every caught-up version past the batch. */
  function MaintainOnAppend(t: Tables, config: Config, env: Env, headBefore: Seq, appended: seq<Committed>): Tables {
    var reconciled := Reconcile(t, config, headBefore);
    if appended == [] then reconciled
    else AdvanceEach(reconciled, LiveSlots(reconciled), config, env, headBefore, appended)
  }

  // ---------------------------------------------------------------------------
  // Builder slices
  // ---------------------------------------------------------------------------

  predicate Buildable(config: Config, s: Slot) {
    s.status.Healthy? && config.Carries(s.version)
  }

  function BuildableBuilding(config: Config): Slot -> bool {
    (s: Slot) => s.role == Building && Buildable(config, s)
  }

  function BuildableBehind(config: Config, head: Seq): Slot -> bool {
    (s: Slot) => s.role == Active && Buildable(config, s) && s.cursor < head
  }

  /** The building version, else an active one behind the head. */
  function BuildTarget(config: Config, slots: seq<Slot>, head: Seq): Option<Slot> {
    var building := Find(slots, BuildableBuilding(config));
    if building.Some? then building else Find(slots, BuildableBehind(config, head))
  }

  function StaleBuilding(current: Version): Slot -> bool {
    (s: Slot) => s.role == Building && s.version != current
  }

  predicate HasPendingWork(t: Tables, config: Config, head: Seq) {
    var live := LiveSlots(t);
    || Has(t.meta.Values(), IsRetired)
    || (if live == [] then head > 0
        else
          || Has(live, StaleBuilding(config.current))
          || (!ActiveIs(live, config.current) && !Has(live, BuildingOf(config.current)))
          || BuildTarget(config, live, head).Some?)
  }

  /** Up to `limit` events after the cursor. */
  function Page(log: seq<Committed>, cursor: Seq, limit: nat): seq<Committed> {
    if cursor < |log| then log[cursor..Min(|log|, cursor + limit)] else []
  }

  predicate Decodable(env: Env, page: seq<Committed>) {
    forall e :: e in page ==> env.decodes(e)
  }

  /** The target's row after a page, and how much of the slice is left then. */
  function AfterPage(s: Slot, env: Env, page: seq<Committed>, remaining: nat): (Slot, nat)
    requires |page| <= remaining
  {
    if Decodable(env, page)
      then (Advanced(s, env, page), remaining - |page|)
      else (s.(status := Frozen(s.cursor + 1)), 0)
  }

  /** The target's row after projecting pages until it reaches the head, freezes or uses up the slice. */
  function BuiltSlot(s: Slot, env: Env, log: seq<Committed>, pageEvents: nat, remaining: nat): Slot
    decreases remaining
  {
    if remaining == 0 || !s.status.Healthy? || s.cursor >= |log| then s
    else
      var page := Page(log, s.cursor, Min(pageEvents, remaining));
      if page == [] then s
      else
        var next := AfterPage(s, env, page, remaining);
        BuiltSlot(next.0, env, log, pageEvents, next.1)
  }

  /** A healthy build at the head becomes active in place of the active version. */
  function Activate(t: Tables, slots: seq<Slot>, id: SlotId, head: Seq): Tables {
    var s := t.meta.Get(id);
    if s.Some? && s.value.role == Building && s.value.status.Healthy? && s.value.cursor == head then
      var previous := Find(slots, IsActive);
      SetRole(if previous.Some? then SetRole(t, previous.value.slot, Retired) else t, id, Active)
    else t
  }

  /** The target built for one slice, its failures cleared. */
  function BuiltRow(target: Slot, env: Env, log: seq<Committed>, limits: SliceLimits): Slot {
    BuiltSlot(target, env, log, limits.pageEvents, limits.maxEvents).(sliceFailures := 0)
  }

  function BuildAndActivate(t: Tables, config: Config, env: Env, log: seq<Committed>, limits: SliceLimits): Tables {
    var slots := LiveSlots(t);
    var target := BuildTarget(config, slots, |log|);
    if target.None? then t
    else
      var id := target.value.slot;
      Activate(Rewrite(t, id, BuiltRow(target.value, env, log, limits)), slots, id, |log|)
  }

  // ---------------------------------------------------------------------------
  // Deleting retired rows
  // ---------------------------------------------------------------------------

  function RowCount(s: Slot): nat {
    |s.content.records| + |s.content.aliases|
  }

  /** Records first, then aliases within what is left of the budget. */
  function DeletedRecords(s: Slot, env: Env, budget: nat): set<string> {
    env.pick(s.content.records.Keys, budget)
  }

  function DeletedAliases(s: Slot, env: Env, budget: nat): set<string> {
    var records := |DeletedRecords(s, env, budget)|;
    if records >= budget then {} else env.pick(s.content.aliases.Keys, budget - records)
  }

  function Deleted(s: Slot, env: Env, budget: nat): nat {
    |DeletedRecords(s, env, budget)| + |DeletedAliases(s, env, budget)|
  }

  function LeftRows(s: Slot, env: Env, budget: nat): Content {
    Content(s.content.records - DeletedRecords(s, env, budget), s.content.aliases - DeletedAliases(s, env, budget))
  }

  /** The slot itself goes once a deletion left budget unused. */
  function DeleteRetiredRows(t: Tables, s: Slot, env: Env, budget: nat): Tables {
    if Deleted(s, env, budget) < budget && s.role == Retired then t.(meta := t.meta.Delete(s.slot))
    else Rewrite(t, s.slot, s.(content := LeftRows(s, env, budget)))
  }

  /** Retired slots in creation order until the budget is used up. */
  function CleanUp(t: Tables, slots: seq<Slot>, env: Env, budget: int): Tables
    decreases |slots|
  {
    if slots == [] || budget <= 0 then t
    else if slots[0].role != Retired then CleanUp(t, slots[1..], env, budget)
    else CleanUp(DeleteRetiredRows(t, slots[0], env, budget), slots[1..], env, budget - Deleted(slots[0], env, budget))
  }

  /** One bounded slice: reconcile, build, activate, clean up. */
  function RunSlice(t: Tables, config: Config, env: Env, log: seq<Committed>, limits: SliceLimits): Tables {
    var built := BuildAndActivate(Reconcile(t, config, |log|), config, env, log, limits);
    CleanUp(built, built.meta.Values(), env, limits.maxDeletedRows)
  }

  /** Count a slice that threw against its target, which freezes at the limit. */
  function RecordSliceFailure(t: Tables, config: Config, log: seq<Committed>, limits: SliceLimits): Tables {
    var reconciled := Reconcile(t, config, |log|);
    var target := BuildTarget(config, LiveSlots(reconciled), |log|);
    if target.None? then reconciled
    else
      var id, failures := target.value.slot, target.value.sliceFailures + 1;
      var counted := SetFailures(reconciled, id, failures);
      if failures < limits.maxSliceFailures then counted else Freeze(counted, id, target.value.cursor + 1)
  }
}
