/** Builder slices, failure records and whole runs of transcript maintenance. */
module TranscriptSlices {
  import opened Collections
  import opened Events
  import opened TranscriptPlan
  import opened TranscriptSlots
  import opened TranscriptInvariants

  // ---------------------------------------------------------------------------
  // Building
  // ---------------------------------------------------------------------------

  /** Who is built: a healthy carried slot, and an active one only when behind. */
  lemma {:induction false} TargetFacts(t: Tables, config: Config, head: Seq)
    requires TableOk(t)
    ensures var target := BuildTarget(config, LiveSlots(t), head);
            && (target.Some? ==>
                  && t.meta.Get(target.value.slot) == Some(target.value)
                  && target.value.Live() && Buildable(config, target.value)
                  && (target.value.role == Active ==> target.value.cursor < head && !exists id ::
                    t.meta.Has(id)
                    && BuildableBuilding(config)(t.meta.Get(id).value)))
            && (target.None? ==> forall id :: t.meta.Has(id) ==>
                  !BuildableBuilding(config)(t.meta.Get(id).value)
                    && !BuildableBehind(config, head)(t.meta.Get(id).value))
  {
    LiveAt(t);
    forall id | t.meta.Has(id) && t.meta.Get(id).value.Live() ensures t.meta.Get(id).value in LiveSlots(t) {
    }
  }

  lemma {:induction false} PageFacts(log: seq<Committed>, cursor: Seq, limit: nat)
    requires cursor <= |log|
    ensures NextInLog(Page(log, cursor, limit), cursor, log)
    ensures |Page(log, cursor, limit)| <= limit
    ensures cursor < |log| && limit > 0 ==> Page(log, cursor, limit) != []
  {
  }

  /** The row keeps what building never changes, and its cursor moves forward only. */
  ghost predicate MovedOn(s: Slot, built: Slot) {
    SameShape(s, built) && built.sliceFailures == s.sliceFailures && s.cursor <= built.cursor
  }

  lemma {:induction false} BuiltPageByPage(
      s: Slot, env: Env, log: seq<Committed>, pageEvents: nat, remaining: nat, page: seq<Committed>)
    requires s.cursor < |log| && s.status.Healthy? && remaining > 0 && |page| <= remaining && page != []
    requires page == Page(log, s.cursor, Min(pageEvents, remaining))
    ensures var next := AfterPage(s, env, page, remaining);
            BuiltSlot(s, env, log, pageEvents, remaining) == BuiltSlot(next.0, env, log, pageEvents, next.1)
  {
  }

  /** The first page moves the cursor or freezes. */
  lemma {:induction false} AfterPageMoves(s: Slot, env: Env, log: seq<Committed>, page: seq<Committed>, remaining: nat)
    requires Dense(page, s.cursor) && s.cursor + |page| <= |log| && s.Live() && s.status.Healthy?
             && 0 < |page| <= remaining
    ensures var next := AfterPage(s, env, page, remaining).0;
            MovedOn(s, next) && next.cursor <= |log| && (next.status.Frozen? || s.cursor < next.cursor)
  {
    AdvancedMoves(s, env, page);
  }

  lemma {:induction false} FirstPageMoves(
      s: Slot, env: Env, log: seq<Committed>, pageEvents: nat, remaining: nat) returns (next: Slot, left: nat)
    requires Dense(log, 0) && s.cursor < |log| && s.Live() && s.status.Healthy? && pageEvents > 0 && remaining > 0
    ensures left < remaining && MovedOn(s, next) && next.cursor <= |log|
            && (next.status.Frozen? || s.cursor < next.cursor)
    ensures BuiltSlot(s, env, log, pageEvents, remaining) == BuiltSlot(next, env, log, pageEvents, left)
  {
    var page := Page(log, s.cursor, Min(pageEvents, remaining));
    PageFacts(log, s.cursor, Min(pageEvents, remaining));
    NextIsDense(page, s.cursor, log);
    AfterPageMoves(s, env, log, page, remaining);
    BuiltPageByPage(s, env, log, pageEvents, remaining, page);
    var after := AfterPage(s, env, page, remaining);
    next, left := after.0, after.1;
  }

  /** Given anything to do, building moves the cursor or freezes. */
  lemma {:induction false} BuiltSlotMoves(s: Slot, env: Env, log: seq<Committed>, pageEvents: nat, remaining: nat)
    requires Dense(log, 0) && s.cursor <= |log| && s.Live() && pageEvents >= 1
    ensures var built := BuiltSlot(s, env, log, pageEvents, remaining);
            && MovedOn(s, built)
            && (s.cursor == |log| || s.status.Frozen? ==> built == s)
            && (remaining > 0 && s.status.Healthy? && s.cursor < |log| ==>
              built.status.Frozen? || s.cursor < built.cursor)
    decreases remaining
  {
    if remaining > 0 && s.status.Healthy? && s.cursor < |log| {
      var next, left := FirstPageMoves(s, env, log, pageEvents, remaining);
      BuiltSlotMoves(next, env, log, pageEvents, left);
    }
  }

  lemma {:induction false} AfterPageProjects(
      s: Slot, env: Env, log: seq<Committed>, page: seq<Committed>, remaining: nat)
    requires Dense(log, 0) && SlotOk(s, log, env.definition) && NextInLog(page, s.cursor, log) && |page| <= remaining
    requires s.status.Healthy?
    ensures SlotOk(AfterPage(s, env, page, remaining).0, log, env.definition)
  {
    AdvancedProjects(s, env, page, log);
  }

  /** Building keeps the row a projection of the log. */
  lemma {:induction false} BuiltSlotProjects(s: Slot, env: Env, log: seq<Committed>, pageEvents: nat, remaining: nat)
    requires Dense(log, 0) && SlotOk(s, log, env.definition) && pageEvents >= 1
    ensures SlotOk(BuiltSlot(s, env, log, pageEvents, remaining), log, env.definition)
    decreases remaining
  {
    if remaining > 0 && s.status.Healthy? && s.cursor < |log| {
      var page := Page(log, s.cursor, Min(pageEvents, remaining));
      PageFacts(log, s.cursor, Min(pageEvents, remaining));
      AfterPageProjects(s, env, log, page, remaining);
      BuiltPageByPage(s, env, log, pageEvents, remaining, page);
      var next := AfterPage(s, env, page, remaining);
      BuiltSlotProjects(next.0, env, log, pageEvents, next.1);
    }
  }

  // ---------------------------------------------------------------------------
  // Activation
  // ---------------------------------------------------------------------------

  /** The build is ready: healthy and at the head. */
  predicate Ready(t: Tables, id: SlotId, head: Seq) {
    var s := t.meta.Get(id);
    s.Some? && s.value.role == Building && s.value.status.Healthy? && s.value.cursor == head
  }

  /** The list shows the active slots of the table. */
  ghost predicate ShowsActive(t: Tables, slots: seq<Slot>) {
    && (forall s :: s in slots && s.role == Active ==> t.meta.Has(s.slot) && t.meta.Get(s.slot).value.role == Active)
    && (forall x :: t.meta.Has(x) && t.meta.Get(x).value.role == Active ==>
      exists s :: s in slots && s.role == Active && s.slot == x)
  }

  /** The row of slot `x` once the ready build `id` is activated. */
  function RowAfterActivation(t: Tables, id: SlotId, x: SlotId): Option<Slot>
    requires t.meta.Has(id)
  {
    if x == id then Some(t.meta.Get(id).value.(role := Active))
    else if t.meta.Has(x) && t.meta.Get(x).value.role == Active then Some(t.meta.Get(x).value.(role := Retired))
    else t.meta.Get(x)
  }

  /** A ready build takes the place of the active slot, which retires; otherwise nothing changes. */
  lemma {:induction false} ActivateKeeps(
      t: Tables, slots: seq<Slot>, id: SlotId, log: seq<Committed>, definition: Version -> Definition)
    requires Inv(t, log, definition) && ShowsActive(t, slots)
    ensures var next := Activate(t, slots, id, |log|);
            && Inv(next, log, definition) && StepKeeps(t, next) && next.nextSlot == t.nextSlot
            && (!Ready(t, id, |log|) ==> next == t)
            && (Ready(t, id, |log|) ==> forall x {:trigger next.meta.Get(x)} ::
              next.meta.Get(x) == RowAfterActivation(t, id, x))
  {
    if Ready(t, id, |log|) {
      var previous := Find(slots, IsActive);
      var retired := if previous.Some? then SetRole(t, previous.value.slot, Retired) else t;
      if previous.Some? {
        RetireKeeps(t, previous.value.slot, log, definition);
        assert retired.meta == t.meta.Set(previous.value.slot, t.meta.Get(previous.value.slot).value.(role := Retired));
      } else {
        assert forall x :: t.meta.Has(x) ==> t.meta.Get(x).value.role != Active;
      }
      forall x | retired.meta.Has(x) ensures retired.meta.Get(x).value.role != Active {
        if t.meta.Get(x).value.role == Active {
          var s :| s in slots && s.role == Active && s.slot == x;
          assert IsActive(s) && previous.Some?;
        }
      }
      assert retired.meta.Get(id) == t.meta.Get(id);
      ActivateRow(retired, id, log, definition);
      StepKeepsTransitive(t, retired, SetRole(retired, id, Active));
    }
  }

  lemma {:induction false} ActivateRow(t: Tables, id: SlotId, log: seq<Committed>, definition: Version -> Definition)
    requires Inv(t, log, definition) && t.meta.Has(id) && t.meta.Get(id).value.role == Building
             && t.meta.Get(id).value.status.Healthy?
    requires forall x :: t.meta.Has(x) ==> t.meta.Get(x).value.role != Active
    ensures var next := SetRole(t, id, Active);
            && Inv(next, log, definition) && StepKeeps(t, next)
            && forall x {:trigger next.meta.Get(x)} ::
              next.meta.Get(x) ==
              if x == id then Some(t.meta.Get(id).value.(role := Active)) else t.meta.Get(x)
  {
    var next := SetRole(t, id, Active);
    assert next.meta == t.meta.Set(id, t.meta.Get(id).value.(role := Active));
    forall x | next.meta.Has(x) ensures next.meta.Get(x).value.slot == x && x < next.nextSlot && t.meta.Has(x) {
      assert x != id ==> t.meta.Get(x) == next.meta.Get(x);
    }
    assert TableOk(next) && StepKeeps(t, next);
  }

  // ---------------------------------------------------------------------------
  // Build and activate
  // ---------------------------------------------------------------------------

  /** The target after the slice built it and cleared its failures. */
  ghost predicate BuiltFrom(target: Slot, built: Slot, head: Seq) {
    && SameShape(target, built) && target.cursor <= built.cursor
    && (target.cursor < head ==> built.status.Frozen? || target.cursor < built.cursor)
    && (target.cursor == head ==> built == target.(sliceFailures := built.sliceFailures))
  }

  lemma {:induction false} BuiltRowKeeps(t: Tables, target: Slot, env: Env, log: seq<Committed>, limits: SliceLimits)
    requires Inv(t, log, env.definition) && t.meta.Get(target.slot) == Some(target) && target.Live()
             && target.status.Healthy?
    ensures var built := BuiltRow(target, env, log, limits);
            var next := Rewrite(t, target.slot, built);
            && BuiltFrom(target, built, |log|)
            && Inv(next, log, env.definition) && StepKeeps(t, next) && next.nextSlot == t.nextSlot
            && next.meta.Get(target.slot) == Some(built)
            && (forall x {:trigger next.meta.Get(x)} :: x != target.slot ==> next.meta.Get(x) == t.meta.Get(x))
  {
    assert SlotOk(target, log, env.definition);
    BuiltSlotMoves(target, env, log, limits.pageEvents, limits.maxEvents);
    BuiltSlotProjects(target, env, log, limits.pageEvents, limits.maxEvents);
    RewriteKeeps(t, target.slot, BuiltRow(target, env, log, limits), log, env.definition);
  }

  /** The slot table with the target's row replaced, and the replaced active slot retired if the build is ready. */
  ghost predicate BuiltRows(t: Tables, next: Tables, target: Slot, built: Slot, head: Seq) {
    && BuiltFrom(target, built, head)
    && (forall x {:trigger next.meta.Get(x)} :: next.meta.Get(x) ==
          if !(built.role == Building && built.status.Healthy? && built.cursor == head) then
            if x == target.slot then Some(built) else t.meta.Get(x)
          else if x == target.slot then Some(built.(role := Active))
          else if t.meta.Has(x) && t.meta.Get(x).value.role == Active then Some(t.meta.Get(x).value.(role := Retired))
          else t.meta.Get(x))
  }

  /** Without a target nothing is built; otherwise only the target moves, and the active slot when it is replaced. */
  lemma {:induction false} BuildAndActivateKeeps(
      t: Tables, config: Config, env: Env, log: seq<Committed>, limits: SliceLimits)
    requires Inv(t, log, env.definition)
    ensures var next, target := BuildAndActivate(t, config, env, log, limits), BuildTarget(config, LiveSlots(t), |log|);
            && Inv(next, log, env.definition) && StepKeeps(t, next) && next.nextSlot == t.nextSlot
            && (target.None? ==> next == t)
            && (target.Some? ==> BuiltRows(t, next, target.value, BuiltRow(target.value, env, log, limits), |log|))
  {
    var target := BuildTarget(config, LiveSlots(t), |log|);
    TargetFacts(t, config, |log|);
    if target.Some? {
      var id := target.value.slot;
      var middle := Rewrite(t, id, BuiltRow(target.value, env, log, limits));
      BuiltRowKeeps(t, target.value, env, log, limits);
      ListsActive(t);
      ShownStill(t, middle, LiveSlots(t), id);
      ActivateKeeps(middle, LiveSlots(t), id, log, env.definition);
      StepKeepsTransitive(t, middle, Activate(middle, LiveSlots(t), id, |log|));
    }
  }

  lemma {:induction false} ShownStill(t: Tables, middle: Tables, slots: seq<Slot>, id: SlotId)
    requires ShowsActive(t, slots) && t.meta.Has(id) && middle.meta.Has(id)
    requires t.meta.Get(id).value.role == middle.meta.Get(id).value.role
    requires forall x {:trigger middle.meta.Get(x)} :: x != id ==> middle.meta.Get(x) == t.meta.Get(x)
    ensures ShowsActive(middle, slots)
  {
    forall x | middle.meta.Has(x) && middle.meta.Get(x).value.role == Active
      ensures exists s :: s in slots && s.role == Active && s.slot == x
    {
      assert t.meta.Has(x) && t.meta.Get(x).value.role == Active;
    }
  }

  lemma {:induction false} ListsActive(t: Tables)
    requires TableOk(t)
    ensures ShowsActive(t, LiveSlots(t))
  {
    LiveAt(t);
    forall x | t.meta.Has(x) && t.meta.Get(x).value.role == Active
      ensures exists s :: s in LiveSlots(t) && s.role == Active && s.slot == x
    {
      assert t.meta.Get(x).value in LiveSlots(t);
    }
  }

  // ---------------------------------------------------------------------------
  // Cleaning up
  // ---------------------------------------------------------------------------

  lemma {:induction false} SubsetSize(a: set<string>, b: set<string>)
    requires a <= b
    ensures |b - a| == |b| - |a|
    ensures |a| == |b| ==> a == b
  {
    assert a + (b - a) == b;
  }

  lemma {:induction false} FullPick(env: Env, rows: set<string>, limit: nat)
    requires FairPick(env.pick)
    ensures env.pick(rows, limit) <= rows && |env.pick(rows, limit)| == Min(limit, |rows|)
    ensures |rows| <= limit ==> env.pick(rows, limit) == rows
  {
    SubsetSize(env.pick(rows, limit), rows);
  }

  lemma {:induction false} MapSize(m: map<string, string>, doomed: set<string>)
    requires doomed <= m.Keys
    ensures |m - doomed| == |m| - |doomed|
  {
    assert (m - doomed).Keys == m.Keys - doomed;
  }

  lemma {:induction false} PickedOff(env: Env, m: map<string, string>, limit: nat)
    requires FairPick(env.pick)
    ensures var picked := env.pick(m.Keys, limit);
            && |picked| == Min(limit, |m|) && |m - picked| == |m| - |picked|
            && (|picked| < limit ==> m - picked == map[])
  {
    var picked := env.pick(m.Keys, limit);
    FullPick(env, m.Keys, limit);
    MapSize(m, picked);
    assert |picked| < limit ==> |m - picked| == 0;
  }

  lemma {:induction false} AliasesPickedOff(s: Slot, env: Env, budget: nat)
    requires FairPick(env.pick) && |DeletedRecords(s, env, budget)| <= budget
    ensures var picked, left := DeletedAliases(s, env, budget), budget - |DeletedRecords(s, env, budget)|;
            && |picked| == Min(left, |s.content.aliases|)
              && |s.content.aliases - picked| == |s.content.aliases| - |picked|
            && (|picked| < left ==> s.content.aliases - picked == map[])
  {
    if |DeletedRecords(s, env, budget)| < budget {
      PickedOff(env, s.content.aliases, budget - |DeletedRecords(s, env, budget)|);
    } else {
      MapSize(s.content.aliases, {});
    }
  }

  /** A deletion removes what it counts; with budget to spare it removes everything. */
  lemma {:induction false} DeletionFacts(s: Slot, env: Env, budget: nat)
    requires FairPick(env.pick)
    ensures Deleted(s, env, budget) == Min(budget, RowCount(s))
    ensures RowCount(s.(content := LeftRows(s, env, budget))) == RowCount(s) - Deleted(s, env, budget)
    ensures Deleted(s, env, budget) < budget ==> LeftRows(s, env, budget) == NO_ROWS
  {
    PickedOff(env, s.content.records, budget);
    AliasesPickedOff(s, env, budget);
  }

  /** The list shows retired slots as they are, none twice. */
  ghost predicate ShowsRetired(t: Tables, slots: seq<Slot>) {
    DistinctBy(slots, IdOf) && forall s :: s in slots && s.role == Retired ==> t.meta.Get(s.slot) == Some(s)
  }

  lemma {:induction false} DeleteRows(t: Tables, s: Slot, env: Env, budget: nat)
    requires t.meta.Get(s.slot) == Some(s) && s.role == Retired
    ensures var next := DeleteRetiredRows(t, s, env, budget);
            && next.nextSlot == t.nextSlot
            && (forall x {:trigger next.meta.Get(x)} :: x != s.slot ==> next.meta.Get(x) == t.meta.Get(x))
            && next.meta.Get(s.slot) == if Deleted(s, env, budget) < budget
              then None
              else Some(s.(content := LeftRows(s, env, budget)))
  {
  }

  lemma {:induction false} DeleteRowsKeeps(t: Tables, s: Slot, env: Env, budget: nat, log: seq<Committed>)
    requires Inv(t, log, env.definition) && t.meta.Get(s.slot) == Some(s) && s.role == Retired
    ensures var next := DeleteRetiredRows(t, s, env, budget);
            Inv(next, log, env.definition) && StepKeeps(t, next)
  {
    DeleteRows(t, s, env, budget);
    if Deleted(s, env, budget) < budget {
      var next := DeleteRetiredRows(t, s, env, budget);
      forall x | next.meta.Has(x) ensures next.meta.Get(x) == t.meta.Get(x) {
      }
      assert TableOk(next) && StepKeeps(t, next);
    } else {
      RewriteKeeps(t, s.slot, s.(content := LeftRows(s, env, budget)), log, env.definition);
    }
  }

  /** Cleaning up changes no live slot, no role and nothing of a retired slot but its rows. */
  ghost predicate Cleaned(t: Tables, next: Tables) {
    forall x {:trigger next.meta.Get(x)} {:trigger t.meta.Get(x)} :: CleanedAt(t.meta.Get(x), next.meta.Get(x))
  }

  function RetiredRowsOf(s: Slot): nat {
    if s.role == Retired then RowCount(s) else 0
  }

  /** The rows of the retired slots of a list. */
  function RetiredRows(slots: seq<Slot>): nat {
    SumOf(slots, RetiredRowsOf)
  }

  /**
   * The budget goes to the retired slots in order: one is gone exactly when its rows and those of the
   * retired slots before it total less than the budget, and otherwise keeps the rows the budget did not reach.
   */
  ghost predicate RemovedAt(next: Tables, slots: seq<Slot>, i: nat, budget: int)
    requires i < |slots|
  {
    var through, after := RetiredRows(slots[..i + 1]), next.meta.Get(slots[i].slot);
    && (after.None? <==> through < budget)
    && (after.Some? ==> RowCount(after.value) == if RowCount(slots[i]) < through - budget
      then RowCount(slots[i])
      else through - budget)
  }

  ghost predicate RemovedExactly(t: Tables, next: Tables, budget: int) {
    forall i {:trigger t.meta.Values()[i]} :: 0 <= i < |t.meta.Values()| && t.meta.Values()[i].role == Retired ==>
      RemovedAt(next, t.meta.Values(), i, budget)
  }

  lemma {:induction false} ShowsRest(t: Tables, slots: seq<Slot>, env: Env, budget: nat)
    requires ShowsRetired(t, slots) && slots != []
    ensures ShowsRetired(t, slots[1..])
    ensures slots[0].role == Retired ==> ShowsRetired(DeleteRetiredRows(t, slots[0], env, budget), slots[1..])
  {
    assert slots[0] in slots;
    assert forall x :: x in slots[1..] ==> x in slots;
    OthersFollow(slots);
    assert DistinctBy(slots[1..], IdOf);
    if slots[0].role == Retired {
      DeleteRows(t, slots[0], env, budget);
    }
  }

  lemma {:induction false} CleanUpKeeps(t: Tables, slots: seq<Slot>, env: Env, budget: int, log: seq<Committed>)
    requires Inv(t, log, env.definition) && ShowsRetired(t, slots)
    ensures Inv(CleanUp(t, slots, env, budget), log, env.definition) && StepKeeps(t, CleanUp(t, slots, env, budget))
    decreases |slots|
  {
    if slots != [] && budget > 0 {
      var s := slots[0];
      assert s in slots;
      ShowsRest(t, slots, env, budget);
      if s.role != Retired {
        CleanUpKeeps(t, slots[1..], env, budget, log);
      } else {
        DeleteRowsKeeps(t, s, env, budget, log);
        var next := DeleteRetiredRows(t, s, env, budget);
        CleanUpKeeps(next, slots[1..], env, budget - Deleted(s, env, budget), log);
        StepKeepsTransitive(t, next, CleanUp(next, slots[1..], env, budget - Deleted(s, env, budget)));
      }
    }
  }

  /**
   * What cleaning up does to one slot: nothing while it is live, and to a retired one only its rows and
   * its removal.
   */
  ghost predicate CleanedAt(before: Option<Slot>, after: Option<Slot>) {
    && (before.Some? && before.value.Live() ==> after == before)
    && (after.Some? ==> before.Some? && after.value == before.value.(content := after.value.content))
    && (before.Some? && after.None? ==> before.value.role == Retired)
  }

  lemma {:induction false} CleanUpAt(t: Tables, slots: seq<Slot>, env: Env, budget: int, x: SlotId)
    requires ShowsRetired(t, slots)
    ensures var next := CleanUp(t, slots, env, budget);
            && next.nextSlot == t.nextSlot && CleanedAt(t.meta.Get(x), next.meta.Get(x))
            && ((forall s :: s in slots ==> s.slot != x) ==> next.meta.Get(x) == t.meta.Get(x))
    decreases |slots|
  {
    if slots != [] && budget > 0 {
      var s := slots[0];
      assert s in slots;
      assert forall y :: y in slots[1..] ==> y in slots;
      ShowsRest(t, slots, env, budget);
      if s.role != Retired {
        CleanUpAt(t, slots[1..], env, budget, x);
      } else {
        DeleteRows(t, s, env, budget);
        var next := DeleteRetiredRows(t, s, env, budget);
        CleanUpAt(next, slots[1..], env, budget - Deleted(s, env, budget), x);
        if x == s.slot {
          OthersFollow(slots);
        }
      }
    }
  }

  lemma {:induction false} OthersFollow(slots: seq<Slot>)
    requires slots != [] && DistinctBy(slots, IdOf)
    ensures forall y :: y in slots[1..] ==> y.slot != slots[0].slot
  {
    forall y | y in slots[1..] ensures y.slot != slots[0].slot {
      var i :| 0 <= i < |slots[1..]| && slots[1..][i] == y;
      assert IdOf(slots[0]) != IdOf(slots[i + 1]);
    }
  }

  lemma {:induction false} RetiredRowsCons(slots: seq<Slot>, i: nat)
    requires 0 < i < |slots|
    ensures RetiredRows(slots[..i + 1]) == RetiredRowsOf(slots[0]) + RetiredRows(slots[1..][..i])
    ensures RowCount(slots[i]) <= RetiredRows(slots[1..][..i]) || slots[i].role != Retired
  {
    assert slots[..i + 1][1..] == slots[1..][..i];
    var rest := slots[1..];
    RetiredRowsLast(rest[..i]);
    assert rest[..i][i - 1] == slots[i];
  }

  lemma {:induction false} RetiredRowsLast(slots: seq<Slot>)
    requires slots != []
    ensures RetiredRowsOf(slots[|slots| - 1]) <= RetiredRows(slots)
  {
    if |slots| > 1 {
      RetiredRowsLast(slots[1..]);
    }
  }

  lemma {:induction false} RetiredRowsOne(s: Slot)
    ensures RetiredRows([s]) == RetiredRowsOf(s)
  {
    var one := [s];
    assert one[1..] == [];
    assert SumOf(one, RetiredRowsOf) == RetiredRowsOf(one[0]) + SumOf(one[1..], RetiredRowsOf);
  }

  lemma {:induction false} FirstRemoved(t: Tables, slots: seq<Slot>, env: Env, budget: int)
    requires FairPick(env.pick) && ShowsRetired(t, slots)
    requires slots != [] && slots[0].role == Retired && budget > 0
    ensures RemovedAt(CleanUp(t, slots, env, budget), slots, 0, budget)
  {
    var s := slots[0];
    var next := DeleteRetiredRows(t, s, env, budget);
    assert s in slots && slots[..1] == [s];
    RetiredRowsOne(s);
    ShowsRest(t, slots, env, budget);
    RetiredRest(t, slots, env, budget);
    OthersFollow(slots);
    DeleteRows(t, s, env, budget);
    DeletionFacts(s, env, budget);
    CleanUpAt(next, slots[1..], env, budget - Deleted(s, env, budget), s.slot);
    var after := CleanUp(t, slots, env, budget).meta.Get(s.slot);
    assert after == next.meta.Get(s.slot);
    assert after.Some? ==> after.value == s.(content := LeftRows(s, env, budget));
  }

  /** What the first slot used up counts against the ones behind it. */
  lemma {:induction false} RemovedBehind(next: Tables, slots: seq<Slot>, i: nat, budget: int, used: nat)
    requires 0 < i < |slots| && slots[i].role == Retired && budget > 0
    requires used == if RetiredRowsOf(slots[0]) < budget then RetiredRowsOf(slots[0]) else budget
    requires RemovedAt(next, slots[1..], i - 1, budget - used)
    ensures RemovedAt(next, slots, i, budget)
  {
    RetiredRowsCons(slots, i);
    assert slots[1..][i - 1] == slots[i];
  }

  /** The retired slots removed are exactly the first ones the row budget pays for in full. */
  lemma {:induction false} CleanUpExactly(t: Tables, slots: seq<Slot>, env: Env, budget: int, i: nat)
    requires FairPick(env.pick) && ShowsRetired(t, slots)
    requires i < |slots| && slots[i].role == Retired
    ensures RemovedAt(CleanUp(t, slots, env, budget), slots, i, budget)
    decreases |slots|
  {
    if budget <= 0 {
      assert slots[i] in slots;
      RetiredRowsLast(slots[..i + 1]);
    } else if i == 0 {
      FirstRemoved(t, slots, env, budget);
    } else if slots[0].role == Retired {
      ShowsRest(t, slots, env, budget);
      var used := Deleted(slots[0], env, budget);
      var rest := DeleteRetiredRows(t, slots[0], env, budget);
      CleanUpExactly(rest, slots[1..], env, budget - used, i - 1);
      RemovedBehindRetired(t, slots, env, budget, i);
    } else {
      ShowsRest(t, slots, env, budget);
      CleanUpExactly(t, slots[1..], env, budget, i - 1);
      RemovedBehind(CleanUp(t, slots, env, budget), slots, i, budget, 0);
    }
  }

  lemma {:induction false} RemovedBehindRetired(t: Tables, slots: seq<Slot>, env: Env, budget: nat, i: nat)
    requires FairPick(env.pick) && budget > 0 && 0 < i < |slots| && slots[0].role == Retired && slots[i].role == Retired
    requires var used := Deleted(slots[0], env, budget);
             RemovedAt(CleanUp(DeleteRetiredRows(t, slots[0], env, budget), slots[1..], env, budget - used), slots[1..],
               i - 1, budget - used)
    ensures RemovedAt(CleanUp(t, slots, env, budget), slots, i, budget)
  {
    RetiredRest(t, slots, env, budget);
    RetiredUses(slots[0], env, budget);
    RemovedBehind(CleanUp(t, slots, env, budget), slots, i, budget, Deleted(slots[0], env, budget));
  }

  lemma {:induction false} RetiredRest(t: Tables, slots: seq<Slot>, env: Env, budget: nat)
    requires slots != [] && slots[0].role == Retired && budget > 0
    ensures CleanUp(t, slots, env, budget)
            == CleanUp(DeleteRetiredRows(t, slots[0], env, budget), slots[1..], env,
              budget - Deleted(slots[0], env, budget))
  {
  }

  lemma {:induction false} RetiredUses(s: Slot, env: Env, budget: nat)
    requires FairPick(env.pick) && s.role == Retired
    ensures Deleted(s, env, budget) == if RetiredRowsOf(s) < budget then RetiredRowsOf(s) else budget
  {
    DeletionFacts(s, env, budget);
  }

  /** Cleaning up touches retired slots only, and removes exactly those whose rows it deleted within its budget. */
  lemma {:induction false} CleanUpCleans(t: Tables, env: Env, budget: int)
    requires FairPick(env.pick) && ShowsRetired(t, t.meta.Values())
    ensures var next := CleanUp(t, t.meta.Values(), env, budget); Cleaned(t, next) && RemovedExactly(t, next, budget)
  {
    var slots := t.meta.Values();
    var next := CleanUp(t, slots, env, budget);
    forall x {:trigger next.meta.Get(x)} {:trigger t.meta.Get(x)} ensures CleanedAt(t.meta.Get(x), next.meta.Get(x)) {
      CleanUpAt(t, slots, env, budget, x);
    }
    forall i | 0 <= i < |slots| && slots[i].role == Retired ensures RemovedAt(next, slots, i, budget) {
      CleanUpExactly(t, slots, env, budget, i);
    }
  }
}
