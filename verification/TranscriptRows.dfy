/** Transcript rows in tables of their own, and their budgeted deletion before the slot they belong to. */
module TranscriptRows {
  import opened Collections
  import opened Events
  import opened TranscriptPlan
  import opened TranscriptSlots
  import opened TranscriptInvariants
  import opened TranscriptSlices
  import opened TranscriptRuns

  /** A row is keyed by its slot and its own id. */
  type RowKey = (SlotId, string)

  /** The rows of one slot. */
  function RowsOf(rows: map<RowKey, string>, slot: SlotId): (r: map<string, string>)
    ensures forall k :: k in r <==> (slot, k) in rows
    ensures forall k :: k in r ==> r[k] == rows[(slot, k)]
  {
    map p: RowKey | p in rows && p.0 == slot :: p.1 := rows[p]
  }

  function ContentIn(records: map<RowKey, string>, aliases: map<RowKey, string>): SlotId -> Content {
    (slot: SlotId) => Content(RowsOf(records, slot), RowsOf(aliases, slot))
  }

  /** The rows left when some of one slot's are deleted. */
  function Without(rows: map<RowKey, string>, slot: SlotId, doomed: set<string>): map<RowKey, string> {
    map p | p in rows && !(p.0 == slot && p.1 in doomed) :: rows[p]
  }

  /** Meta rows with the rows of their slots filled in. */
  function Filled(meta: OMap<SlotId, Slot>, content: SlotId -> Content): (r: OMap<SlotId, Slot>)
    ensures forall j {:trigger r.Get(j)} ::
            r.Get(j) ==
            if meta.Has(j) then Some(meta.Get(j).value.(content := content(j))) else None
    ensures meta.Unique() ==> r.Unique()
  {
    match meta
    case Empty => Empty
    case Entry(slot, s, rest) => Entry(slot, s.(content := content(slot)), Filled(rest, content))
  }

  lemma {:induction false} FilledAlike(meta: OMap<SlotId, Slot>, a: SlotId -> Content, b: SlotId -> Content)
    requires forall k :: meta.Has(k) ==> a(k) == b(k)
    ensures Filled(meta, a) == Filled(meta, b)
  {
    if meta.Entry? {
      assert meta.Has(meta.key);
      assert forall k :: meta.rest.Has(k) ==> meta.Has(k);
      FilledAlike(meta.rest, a, b);
    }
  }

  /** Changing the rows of one slot changes that slot's entry only. */
  lemma {:induction false} FilledSet(meta: OMap<SlotId, Slot>, a: SlotId -> Content, b: SlotId -> Content, slot: SlotId)
    requires meta.Unique() && meta.Has(slot) && forall k :: k != slot ==> a(k) == b(k)
    ensures Filled(meta, b) == Filled(meta, a).Set(slot, meta.Get(slot).value.(content := b(slot)))
  {
    if meta.key == slot {
      FilledAlike(meta.rest, a, b);
    } else {
      FilledSet(meta.rest, a, b, slot);
    }
  }

  lemma {:induction false} FilledDelete(
      meta: OMap<SlotId, Slot>, a: SlotId -> Content, b: SlotId -> Content, slot: SlotId)
    requires meta.Unique() && meta.Has(slot) && forall k :: k != slot ==> a(k) == b(k)
    ensures Filled(meta.Delete(slot), b) == Filled(meta, a).Delete(slot)
  {
    if meta.key == slot {
      FilledAlike(meta.rest, a, b);
      DeleteAbsent(meta.rest, slot);
      DeleteAbsent(Filled(meta.rest, a), slot);
    } else {
      FilledDelete(meta.rest, a, b, slot);
    }
  }

  lemma {:induction false} RowsWithout(rows: map<RowKey, string>, slot: SlotId, doomed: set<string>, other: SlotId)
    ensures RowsOf(Without(rows, slot, doomed), other) ==
            if other == slot then RowsOf(rows, slot) - doomed else RowsOf(rows, other)
  {
  }

  lemma {:induction false} ContentWithout(records: map<RowKey, string>, aliases: map<RowKey, string>, slot: SlotId,
                                          recordIds: set<string>, aliasIds: set<string>, k: SlotId)
    ensures var before, after := ContentIn(records, aliases)(k),
            ContentIn(Without(records, slot, recordIds), Without(aliases, slot, aliasIds))(k);
            after == if k == slot then Content(before.records - recordIds, before.aliases - aliasIds) else before
  {
    RowsWithout(records, slot, recordIds, k);
    RowsWithout(aliases, slot, aliasIds, k);
  }

  /** The slot table read from the three tables. */
  function ReadTables(
      meta: OrderedMap<SlotId, Slot>, nextSlot: SlotId, records: map<RowKey, string>, aliases: map<RowKey,
        string>): Tables {
    Tables(Filled(meta, ContentIn(records, aliases)), nextSlot)
  }

  ghost predicate Belongs(rows: map<RowKey, string>, meta: OrderedMap<SlotId, Slot>) {
    forall p :: p in rows ==> meta.Has(p.0)
  }

  /** What a deletion leaves of the contents. */
  lemma {:induction false} ContentAfter(
      records: map<RowKey, string>, aliases: map<RowKey, string>, s: Slot, env: Env, limit: nat)
    requires s.content == ContentIn(records, aliases)(s.slot)
    ensures var after := ContentIn(Without(records, s.slot, DeletedRecords(s, env, limit)),
            Without(aliases, s.slot, DeletedAliases(s, env, limit)));
            && (forall k :: k != s.slot ==> after(k) == ContentIn(records, aliases)(k))
            && after(s.slot) == LeftRows(s, env, limit)
  {
    var recordIds, aliasIds := DeletedRecords(s, env, limit), DeletedAliases(s, env, limit);
    ContentWithout(records, aliases, s.slot, recordIds, aliasIds, s.slot);
    forall k | k != s.slot
      ensures ContentIn(Without(records, s.slot, recordIds), Without(aliases, s.slot, aliasIds))(k)
              == ContentIn(records, aliases)(k)
    {
      ContentWithout(records, aliases, s.slot, recordIds, aliasIds, k);
    }
  }

  /** Deleting rows, then the meta row once a deletion left budget, is the deletion on the slot table. */
  lemma {:induction false} DeletionIsDeletion(meta: OrderedMap<SlotId, Slot>, nextSlot: SlotId, records: map<RowKey,
    string>, aliases: map<RowKey, string>,
                                              s: Slot, env: Env, limit: nat)
    requires var t := ReadTables(meta, nextSlot, records, aliases); t.meta.Get(s.slot) == Some(s) && s.role == Retired
    ensures var gone := Deleted(s, env, limit) < limit;
            ReadTables(if gone then meta.Delete(s.slot) else meta, nextSlot,
                 Without(records, s.slot, DeletedRecords(s, env, limit)),
                   Without(aliases, s.slot, DeletedAliases(s, env, limit)))
            == DeleteRetiredRows(ReadTables(meta, nextSlot, records, aliases), s, env, limit)
  {
    var before := ContentIn(records, aliases);
    var after := ContentIn(Without(records, s.slot, DeletedRecords(s, env, limit)),
      Without(aliases, s.slot, DeletedAliases(s, env, limit)));
    ContentAfter(records, aliases, s, env, limit);
    if Deleted(s, env, limit) < limit {
      FilledDelete(meta, before, after, s.slot);
    } else {
      FilledSet(meta, before, after, s.slot);
    }
  }

  lemma {:induction false} StillBelong(
      rows: map<RowKey, string>, meta: OrderedMap<SlotId, Slot>, slot: SlotId, doomed: set<string>)
    requires Belongs(rows, meta)
    ensures Belongs(Without(rows, slot, doomed), meta)
    ensures RowsOf(rows, slot) - doomed == map[] ==> Belongs(Without(rows, slot, doomed), meta.Delete(slot))
  {
    var left := Without(rows, slot, doomed);
    RowsWithout(rows, slot, doomed, slot);
    forall p | p in left && RowsOf(left, slot) == map[] ensures p.0 != slot {
      assert p == (p.0, p.1);
      assert p.0 == slot ==> p.1 in RowsOf(left, slot);
    }
  }

  /** With limit to spare, a deletion takes every row of the slot. */
  lemma {:induction false} SparedLimitEmpties(s: Slot, env: Env, limit: nat)
    requires FairPick(env.pick)
    ensures Deleted(s, env, limit) <= limit
    ensures Deleted(s, env, limit) < limit ==>
              && s.content.records - DeletedRecords(s, env, limit) == map[]
              && s.content.aliases - DeletedAliases(s, env, limit) == map[]
  {
    DeletionFacts(s, env, limit);
  }

  class TranscriptTables {
    /** Slot rows; the rows kept under a slot are in the other two tables. */
    var meta: OrderedMap<SlotId, Slot>
    var nextSlot: SlotId
    var records: map<RowKey, string>
    var aliases: map<RowKey, string>

    /** Every row belongs to a slot that is there. */
    ghost predicate NoOrphans()
      reads this
    {
      Belongs(records, meta) && Belongs(aliases, meta)
    }

    function Stored(): Tables
      reads this
    {
      ReadTables(meta, nextSlot, records, aliases)
    }

    constructor ()
      ensures NoOrphans() && Stored() == NO_SLOTS
    {
      meta, nextSlot, records, aliases := Empty, 1, map[], map[];
    }

    /** Records first, then aliases within what is left of the limit. */
    method PickRows(s: Slot, limit: nat, env: Env) returns (recordIds: set<string>, aliasIds: set<string>)
      requires s.content == ContentIn(records, aliases)(s.slot)
      ensures recordIds == DeletedRecords(s, env, limit) && aliasIds == DeletedAliases(s, env, limit)
    {
      recordIds := env.pick(RowsOf(records, s.slot).Keys, limit);
      aliasIds := if |recordIds| >= limit then {} else env.pick(RowsOf(aliases, s.slot).Keys, limit - |recordIds|);
    }

    /** Delete rows of a slot, and the slot itself when none of its rows is left. */
    method RemoveRows(slot: SlotId, recordIds: set<string>, aliasIds: set<string>, whole: bool)
      requires NoOrphans()
      requires whole ==> RowsOf(records, slot) - recordIds == map[] && RowsOf(aliases, slot) - aliasIds == map[]
      modifies `meta, `records, `aliases
      ensures NoOrphans()
      ensures records == Without(old(records), slot, recordIds) && aliases == Without(old(aliases), slot, aliasIds)
      ensures meta == if whole then old(meta).Delete(slot) else old(meta)
    {
      StillBelong(records, meta, slot, recordIds);
      StillBelong(aliases, meta, slot, aliasIds);
      records := Without(records, slot, recordIds);
      aliases := Without(aliases, slot, aliasIds);
      if whole {
        meta := meta.Delete(slot);
      }
    }

    /**
     * Delete up to `limit` rows of a retired slot, records first, and its meta row once none is left:
     * no row ever stays behind without its slot.
     */
    method DeleteRetiredTranscriptRows(s: Slot, limit: nat, env: Env) returns (deleted: nat)
      requires NoOrphans() && FairPick(env.pick)
      requires Stored().meta.Get(s.slot) == Some(s) && s.role == Retired
      modifies `meta, `records, `aliases
      ensures NoOrphans()
      ensures deleted == Deleted(s, env, limit) && deleted <= limit
      ensures Stored() == DeleteRetiredRows(old(Stored()), s, env, limit)
    {
      DeletionIsDeletion(meta, nextSlot, records, aliases, s, env, limit);
      SparedLimitEmpties(s, env, limit);
      var recordIds, aliasIds := PickRows(s, limit, env);
      deleted := |recordIds| + |aliasIds|;
      RemoveRows(s.slot, recordIds, aliasIds, deleted < limit);
    }

    /** The next slot of the list, and the budget left after it. */
    method CleanUpNext(slots: seq<Slot>, budget: nat, env: Env) returns (left: nat)
      requires NoOrphans() && FairPick(env.pick) && ShowsRetired(Stored(), slots) && slots != [] && budget > 0
      modifies `meta, `records, `aliases
      ensures NoOrphans() && ShowsRetired(Stored(), slots[1..])
      ensures CleanUp(old(Stored()), slots, env, budget) == CleanUp(Stored(), slots[1..], env, left)
    {
      var s := slots[0];
      left := budget;
      assert s in slots;
      ShowsRest(Stored(), slots, env, budget);
      if s.role == Retired {
        var deleted := DeleteRetiredTranscriptRows(s, budget, env);
        left := budget - deleted;
      }
    }

    /** Retired slots in creation order until the budget is used up. */
    method CleanUpRetired(env: Env, limits: SliceLimits)
      requires NoOrphans() && FairPick(env.pick) && TableOk(Stored())
      modifies `meta, `records, `aliases
      ensures NoOrphans()
      ensures Stored() == CleanUp(old(Stored()), old(Stored()).meta.Values(), env, limits.maxDeletedRows)
      ensures RemovedExactly(old(Stored()), Stored(), limits.maxDeletedRows)
    {
      ghost var first := Stored();
      var slots := Stored().meta.Values();
      var budget: nat := limits.maxDeletedRows;
      ListsRetired(first);
      CleanUpCleans(first, env, budget);
      ghost var cleaned := CleanUp(first, slots, env, budget);
      while slots != [] && budget > 0
        invariant NoOrphans() && ShowsRetired(Stored(), slots)
        invariant cleaned == CleanUp(Stored(), slots, env, budget)
        decreases |slots|
      {
        budget := CleanUpNext(slots, budget, env);
        slots := slots[1..];
      }
    }
  }
}
