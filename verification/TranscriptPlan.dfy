/** Projecting committed events into transcript rows: the batch planner and the one-pass projection. */
module TranscriptPlan {
  import opened Collections
  import opened Events

  type RecordId = string
  type Record = string
  type AliasKey = string

  /** The rows of one stored transcript version. */
  datatype Content = Content(records: map<RecordId, Record>, aliases: map<AliasKey, RecordId>)

  const NO_ROWS := Content(map[], map[])

  /** What interpreting one event writes: records replace, aliases are only ever inserted. */
  datatype Change = Change(puts: seq<(RecordId, Record)>, aliases: seq<(AliasKey, RecordId)>)

  /** How a transcript version reads events: a partial step over the rows so far, and which records a store can hold. */
  datatype Definition = Definition(step: (Content, Committed) -> Option<Change>, storable: (RecordId, Record) -> bool)

  function Put(records: map<RecordId, Record>, puts: seq<(RecordId, Record)>): map<RecordId, Record> {
    if puts == [] then records
    else Put(records, puts[..|puts| - 1])[puts[|puts| - 1].0 := puts[|puts| - 1].1]
  }

  function InsertAliases(
      aliases: map<AliasKey, RecordId>, inserts: seq<(AliasKey, RecordId)>): map<AliasKey, RecordId> {
    if inserts == [] then aliases
    else
      var before, last := InsertAliases(aliases, inserts[..|inserts| - 1]), inserts[|inserts| - 1];
      if last.0 in before then before else before[last.0 := last.1]
  }

  function ApplyChange(c: Content, change: Change): Content {
    Content(Put(c.records, change.puts), InsertAliases(c.aliases, change.aliases))
  }

  /** The one-pass projection: every event in turn, each seeing the rows all earlier ones left. */
  function Project(d: Definition, c: Content, events: seq<Committed>): Option<Content> {
    if events == [] then Some(c)
    else
      var before := Project(d, c, events[..|events| - 1]);
      if before.None? then None
      else
        var change := d.step(before.value, events[|events| - 1]);
        if change.None? then None else Some(ApplyChange(before.value, change.value))
  }

  lemma {:induction false} ProjectAppend(d: Definition, c: Content, a: seq<Committed>, b: seq<Committed>)
    ensures Project(d, c, a + b) == if Project(d, c, a).Some? then Project(d, Project(d, c, a).value, b) else None
  {
    if b == [] {
      assert a + b == a;
    } else {
      assert (a + b)[..|a + b| - 1] == a + b[..|b| - 1];
      ProjectAppend(d, c, a, b[..|b| - 1]);
    }
  }

  // ---------------------------------------------------------------------------
  // The batch planner
  // ---------------------------------------------------------------------------

  /** What a batch has written so far, over the stored rows it reads through. */
  datatype Overlay = Overlay(records: OrderedMap<RecordId, Record>, aliases: OrderedMap<AliasKey, RecordId>,
    throughSeq: Seq)

  datatype Plan = Plan(records: seq<(RecordId, Record)>, aliases: seq<(AliasKey, RecordId)>, throughSeq: Seq)

  /** The rows a batch sees: its own records first, its aliases only where the store has none. */
  function View(stored: Content, o: Overlay): Content {
    Content(Put(stored.records, o.records.Entries()), InsertAliases(stored.aliases, o.aliases.Entries()))
  }

  function PutAll(records: OrderedMap<RecordId, Record>, puts: seq<(RecordId, Record)>): OrderedMap<RecordId, Record> {
    if puts == [] then records
    else PutAll(records, puts[..|puts| - 1]).Set(puts[|puts| - 1].0, puts[|puts| - 1].1)
  }

  /** Insert aliases neither the store nor the batch has yet. */
  function AliasAll(
      stored: map<AliasKey, RecordId>, aliases: OrderedMap<AliasKey, RecordId>, inserts: seq<(AliasKey, RecordId)>):
    OrderedMap<AliasKey, RecordId>
  {
    if inserts == [] then aliases
    else
      var before, last := AliasAll(stored, aliases, inserts[..|inserts| - 1]), inserts[|inserts| - 1];
      if last.0 in stored || before.Has(last.0) then before else before.Set(last.0, last.1)
  }

  /** Interpret the events past the cursor over the overlay; the others are skipped. */
  function Interpret(d: Definition, stored: Content, o: Overlay, events: seq<Committed>): Option<Overlay> {
    if events == [] then Some(o)
    else
      var before, e := Interpret(d, stored, o, events[..|events| - 1]), events[|events| - 1];
      if before.None? || e.at <= before.value.throughSeq then before
      else
        var change := d.step(View(stored, before.value), e);
        if change.None? then None
        else
          Some(Overlay(PutAll(before.value.records, change.value.puts),
                       AliasAll(stored.aliases, before.value.aliases, change.value.aliases), e.at))
  }

  predicate Storable(d: Definition, records: seq<(RecordId, Record)>) {
    forall r :: r in records ==> d.storable(r.0, r.1)
  }

  /** A plan exists when every event could be interpreted and every record left at the end can be stored. */
  function PlanTranscriptBatch(d: Definition, stored: Content, cursor: Seq, events: seq<Committed>): Option<Plan> {
    var o := Interpret(d, stored, Overlay(Empty, Empty, cursor), events);
    if o.None? || !Storable(d, o.value.records.Entries()) then None
    else Some(Plan(o.value.records.Entries(), o.value.aliases.Entries(), o.value.throughSeq))
  }

  /** The rows after writing a plan: records upserted, aliases inserted unless present. */
  function Written(c: Content, plan: Plan): Content {
    Content(Put(c.records, plan.records), InsertAliases(c.aliases, plan.aliases))
  }

  // ---------------------------------------------------------------------------
  // Writing a plan is projecting its events
  // ---------------------------------------------------------------------------

  lemma {:induction false} PutCons(records: map<RecordId, Record>, r: (RecordId, Record), puts: seq<(RecordId, Record)>)
    ensures Put(records, [r] + puts) == Put(records[r.0 := r.1], puts)
  {
    if puts == [] {
      assert ([r] + puts)[..0] == [];
    } else {
      assert ([r] + puts)[..|puts|] == [r] + puts[..|puts| - 1];
      PutCons(records, r, puts[..|puts| - 1]);
    }
  }

  lemma {:induction false} PutEntries(records: map<RecordId, Record>, m: OMap<RecordId, Record>)
    requires m.Unique()
    ensures var r := Put(records, m.Entries());
            && (forall k :: k in r <==> k in records || m.Has(k))
            && (forall k :: k in r ==> r[k] == if m.Has(k) then m.Get(k).value else records[k])
    decreases m
  {
    if m.Entry? {
      PutCons(records, (m.key, m.value), m.rest.Entries());
      PutEntries(records[m.key := m.value], m.rest);
      assert m.Get(m.key) == Some(m.value);
      forall k ensures k != m.key ==> m.Get(k) == m.rest.Get(k) {
      }
    }
  }

  lemma {:induction false} InsertCons(
      aliases: map<AliasKey, RecordId>, r: (AliasKey, RecordId), inserts: seq<(AliasKey, RecordId)>)
    ensures InsertAliases(aliases, [r] + inserts)
            == InsertAliases(if r.0 in aliases then aliases else aliases[r.0 := r.1], inserts)
  {
    if inserts == [] {
      assert ([r] + inserts)[..0] == [];
    } else {
      assert ([r] + inserts)[..|inserts|] == [r] + inserts[..|inserts| - 1];
      InsertCons(aliases, r, inserts[..|inserts| - 1]);
    }
  }

  lemma {:induction false} InsertEntries(aliases: map<AliasKey, RecordId>, m: OMap<AliasKey, RecordId>)
    requires m.Unique()
    ensures var r := InsertAliases(aliases, m.Entries());
            && (forall k :: k in r <==> k in aliases || m.Has(k))
            && (forall k :: k in r ==> r[k] == if k in aliases then aliases[k] else m.Get(k).value)
    decreases m
  {
    if m.Entry? {
      InsertCons(aliases, (m.key, m.value), m.rest.Entries());
      InsertEntries(if m.key in aliases then aliases else aliases[m.key := m.value], m.rest);
      assert m.Get(m.key) == Some(m.value);
      forall k ensures k != m.key ==> m.Get(k) == m.rest.Get(k) {
      }
    }
  }

  lemma {:induction false} PutOne(
      stored: map<RecordId, Record>, o: OrderedMap<RecordId, Record>, k: RecordId, v: Record)
    ensures Put(stored, o.Set(k, v).Entries()) == Put(stored, o.Entries())[k := v]
  {
    PutEntries(stored, o);
    PutEntries(stored, o.Set(k, v));
  }

  lemma {:induction false} InsertOne(
      stored: map<AliasKey, RecordId>, o: OrderedMap<AliasKey, RecordId>, k: AliasKey, v: RecordId)
    ensures k in InsertAliases(stored, o.Entries()) <==> k in stored || o.Has(k)
    ensures k !in stored && !o.Has(k) ==>
            InsertAliases(stored, o.Set(k, v).Entries())
            == InsertAliases(stored, o.Entries())[k := v]
  {
    InsertEntries(stored, o);
    InsertEntries(stored, o.Set(k, v));
  }

  /** Records put into the overlay are seen through it as if written to the store. */
  lemma {:induction false} PutThroughOverlay(
      stored: map<RecordId, Record>, o: OrderedMap<RecordId, Record>, puts: seq<(RecordId, Record)>)
    ensures Put(stored, PutAll(o, puts).Entries()) == Put(Put(stored, o.Entries()), puts)
  {
    if puts != [] {
      var front, last := puts[..|puts| - 1], puts[|puts| - 1];
      PutThroughOverlay(stored, o, front);
      PutOne(stored, PutAll(o, front), last.0, last.1);
    }
  }

  lemma {:induction false} AliasThroughOverlay(stored: map<AliasKey, RecordId>, o: OrderedMap<AliasKey, RecordId>,
                                               inserts: seq<(AliasKey, RecordId)>)
    ensures InsertAliases(stored, AliasAll(stored, o, inserts).Entries())
            == InsertAliases(InsertAliases(stored, o.Entries()), inserts)
  {
    if inserts != [] {
      var front, last := inserts[..|inserts| - 1], inserts[|inserts| - 1];
      AliasThroughOverlay(stored, o, front);
      InsertOne(stored, AliasAll(stored, o, front), last.0, last.1);
    }
  }

  /** The events follow the cursor without gaps. */
  predicate Follows(events: seq<Committed>, cursor: Seq) {
    Dense(events, cursor)
  }

  lemma {:induction false} InterpretIsProject(d: Definition, stored: Content, o: Overlay, events: seq<Committed>)
    requires Follows(events, o.throughSeq)
    ensures var r, p := Interpret(d, stored, o, events), Project(d, View(stored, o), events);
            && (r.Some? <==> p.Some?)
            && (r.Some? ==> View(stored, r.value) == p.value && r.value.throughSeq == o.throughSeq + |events|)
  {
    if events != [] {
      var front, e := events[..|events| - 1], events[|events| - 1];
      InterpretIsProject(d, stored, o, front);
      var before := Interpret(d, stored, o, front);
      if before.Some? {
        var change := d.step(View(stored, before.value), e);
        if change.Some? {
          PutThroughOverlay(stored.records, before.value.records, change.value.puts);
          AliasThroughOverlay(stored.aliases, before.value.aliases, change.value.aliases);
        }
      }
    }
  }

  /** Writing a batch's plan leaves the rows of the one-pass projection and the cursor at the batch's end. */
  lemma {:induction false} PlanIsProjection(d: Definition, stored: Content, cursor: Seq, events: seq<Committed>)
    requires Follows(events, cursor)
    ensures var plan := PlanTranscriptBatch(d, stored, cursor, events);
            plan.Some? ==>
              && Project(d, stored, events) == Some(Written(stored, plan.value))
              && plan.value.throughSeq == cursor + |events|
    ensures Project(d, stored, events).None? ==> PlanTranscriptBatch(d, stored, cursor, events).None?
  {
    InterpretIsProject(d, stored, Overlay(Empty, Empty, cursor), events);
    assert View(stored, Overlay(Empty, Empty, cursor)) == stored;
  }

  /** Events at or below the cursor are skipped: replaying a written batch plans nothing. */
  lemma {:induction false} ReplayPlansNothing(d: Definition, stored: Content, cursor: Seq, events: seq<Committed>)
    requires forall e :: e in events ==> e.at <= cursor
    ensures PlanTranscriptBatch(d, stored, cursor, events) == Some(Plan([], [], cursor))
  {
    SkipAll(d, stored, Overlay(Empty, Empty, cursor), events);
  }

  lemma {:induction false} SkipAll(d: Definition, stored: Content, o: Overlay, events: seq<Committed>)
    requires forall e :: e in events ==> e.at <= o.throughSeq
    ensures Interpret(d, stored, o, events) == Some(o)
  {
    if events != [] {
      assert forall e :: e in events[..|events| - 1] ==> e in events;
      assert events[|events| - 1] in events;
      SkipAll(d, stored, o, events[..|events| - 1]);
    }
  }

  /** Every record of every change is storable. */
  ghost predicate PutsStorable(d: Definition) {
    forall c, e :: d.step(c, e).Some? ==> Storable(d, d.step(c, e).value.puts)
  }

  lemma {:induction false} PutAllStorable(d: Definition, o: OrderedMap<RecordId, Record>, puts: seq<(RecordId, Record)>)
    requires forall k :: o.Has(k) ==> d.storable(k, o.Get(k).value)
    requires Storable(d, puts)
    ensures forall k :: PutAll(o, puts).Has(k) ==> d.storable(k, PutAll(o, puts).Get(k).value)
  {
    if puts != [] {
      var last := puts[|puts| - 1];
      assert last in puts;
      assert forall r :: r in puts[..|puts| - 1] ==> r in puts;
      PutAllStorable(d, o, puts[..|puts| - 1]);
    }
  }

  lemma {:induction false} InterpretStorable(d: Definition, stored: Content, o: Overlay, events: seq<Committed>)
    requires PutsStorable(d)
    requires forall k :: o.records.Has(k) ==> d.storable(k, o.records.Get(k).value)
    ensures var r := Interpret(d, stored, o, events);
            r.Some? ==> forall k :: r.value.records.Has(k) ==> d.storable(k, r.value.records.Get(k).value)
  {
    if events != [] {
      var front, e := events[..|events| - 1], events[|events| - 1];
      InterpretStorable(d, stored, o, front);
      var before := Interpret(d, stored, o, front);
      if before.Some? && e.at > before.value.throughSeq && d.step(View(stored, before.value), e).Some? {
        PutAllStorable(d, before.value.records, d.step(View(stored, before.value), e).value.puts);
      }
    }
  }

  /**
   * For a definition that only puts storable records, how the log is cut into batches does not
   * matter: two batches succeed exactly when one does, and leave the same rows and cursor.
   */
  lemma {:induction false} BatchesCompose(
      d: Definition, stored: Content, cursor: Seq, a: seq<Committed>, b: seq<Committed>)
    requires PutsStorable(d) && Follows(a + b, cursor)
    ensures var whole, first := PlanTranscriptBatch(d, stored, cursor, a + b),
            PlanTranscriptBatch(d, stored, cursor, a);
            if first.None? then whole.None?
            else
              var second := PlanTranscriptBatch(d, Written(stored, first.value), first.value.throughSeq, b);
              && (whole.Some? <==> second.Some?)
              && (whole.Some? ==>
                    && Written(stored, whole.value) == Written(Written(stored, first.value), second.value)
                    && whole.value.throughSeq == second.value.throughSeq)
  {
    assert forall i :: 0 <= i < |a| ==> (a + b)[i] == a[i];
    assert forall i :: 0 <= i < |b| ==> (a + b)[|a| + i] == b[i];
    PlanExistsExactly(d, stored, cursor, a + b);
    PlanExistsExactly(d, stored, cursor, a);
    PlanIsProjection(d, stored, cursor, a + b);
    PlanIsProjection(d, stored, cursor, a);
    ProjectAppend(d, stored, a, b);
    var first := PlanTranscriptBatch(d, stored, cursor, a);
    if first.Some? {
      PlanExistsExactly(d, Written(stored, first.value), first.value.throughSeq, b);
      PlanIsProjection(d, Written(stored, first.value), first.value.throughSeq, b);
    }
  }

  lemma {:induction false} PlanExistsExactly(d: Definition, stored: Content, cursor: Seq, events: seq<Committed>)
    requires PutsStorable(d) && Follows(events, cursor)
    ensures PlanTranscriptBatch(d, stored, cursor, events).Some? <==> Project(d, stored, events).Some?
  {
    var o := Overlay(Empty, Empty, cursor);
    InterpretIsProject(d, stored, o, events);
    InterpretStorable(d, stored, o, events);
    assert View(stored, o) == stored;
    var r := Interpret(d, stored, o, events);
    if r.Some? {
      forall e | e in r.value.records.Entries() ensures d.storable(e.0, e.1) {
        EntryIsValue(r.value.records, e);
      }
    }
  }
}
