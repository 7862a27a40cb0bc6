/** The durable append against the in-memory one. */
module StoreRefinement {
  import opened Collections
  import opened Events
  import opened SessionStore
  import opened SqlStore

  /** Every stored summary carries its own id, as both stores demand. */
  ghost predicate SummariesNamed(log: seq<Committed>) {
    forall i {:trigger log[i]} :: 0 <= i < |log| && log[i].event.payload.SummaryCreated? ==>
      log[i].event.payload.summary.summaryId == log[i].event.payload.summaryId
  }

  /** Every entry appended after `log` passed the durable store's own checks when it was appended. */
  ghost predicate Consistent(log: seq<Committed>, next: seq<Committed>) {
    forall k {:trigger next[..k]} :: |log| <= k < |next| ==> SqlAccepts(next[..k], next[k].event.payload)
  }

  lemma {:induction false} FindIsPosition(log: seq<Committed>, id: EventId)
    requires WellFormed(log)
    ensures FindEvent(log, id) == if PositionOf(log, id).Some? then Some(log[PositionOf(log, id).value]) else None
  {
    var at := PositionOf(log, id);
    if at.Some? {
      FindOnlyEntry(log, at.value);
    }
  }

  lemma {:induction false} SameSummary(log: seq<Committed>, id: SummaryId)
    requires SummariesNamed(log)
    ensures Last(log, CreatedSummaryId, id).Some? <==> SummaryById(log, id).Some?
    ensures var last := Last(log, CreatedSummaryId, id);
            last.Some? ==>
              last.value.event.payload.SummaryCreated?
              && SummaryById(log, id) == Some(last.value.event.payload.summary)
  {
    if log != [] {
      var front := log[..|log| - 1];
      assert forall i :: 0 <= i < |front| ==> front[i] == log[i];
      SameSummary(front, id);
    }
  }

  /** The durable store is the stricter one. */
  lemma {:induction false} AcceptedByBoth(log: seq<Committed>, p: Payload)
    requires SummariesNamed(log) && SqlAccepts(log, p)
    ensures Accepts(log, p)
  {
    if p.ContextRebased? {
      SameSummary(log, p.summaryId);
    }
  }

  lemma {:induction false} AcceptedIsNamed(log: seq<Committed>, e: Committed)
    requires SummariesNamed(log) && Accepts(log, e.event.payload)
    ensures SummariesNamed(log + [e])
  {
  }

  lemma {:induction false} PrefixNotReused(log: seq<Committed>, next: seq<Committed>)
    requires log <= next && IdsNotReused(next)
    ensures IdsNotReused(log)
  {
    forall i, j | 0 <= i < j < |log| ensures
        var p, q := log[i].event.payload, log[j].event.payload;
        && (AdmittedId(p).Some? ==> AdmittedId(p) != AdmittedId(q))
        && (ContextMessageId(p).Some? ==> ContextMessageId(p) != ContextMessageId(q))
        && (CreatedSummaryId(p).Some? ==> CreatedSummaryId(p) != CreatedSummaryId(q)) {
      assert log[i] == next[i] && log[j] == next[j];
    }
  }

  /** One event: what the durable store appends, the in-memory store appends too. */
  lemma {:induction false} OneEvent(sessionId: SessionId, log: seq<Committed>, event: Event)
    requires WellFormed(log) && SummariesNamed(log) && event.sessionId == sessionId
    ensures var sql, mem := SqlAppendEvent(sessionId, log, event), AppendEvent(log, event);
            && (sql.Some? ==> mem == Some(sql.value.log))
            && (mem.Some? ==> log <= mem.value && WellFormed(mem.value) && SummariesNamed(mem.value))
            && (mem.Some? && IdsNotReused(log) ==>
                  (sql.Some? <==> (mem.value != log ==> SqlAccepts(log, event.payload))))
            && (sql.Some? && IdsNotReused(log) ==> FindEvent(sql.value.log, event.eventId) == Some(sql.value.entry))
  {
    FindIsPosition(log, event.eventId);
    AppendGrowsByOne(log, event);
    var existing := PositionOf(log, event.eventId);
    if existing.Some? {
      if IdsNotReused(log) {
        EverythingReadsBack(log, existing.value);
      }
    } else {
      if SqlAccepts(log, event.payload) {
        AcceptedByBoth(log, event.payload);
      }
      if Accepts(log, event.payload) {
        AcceptedIsNamed(log, Committed(|log| + 1, event));
      }
    }
  }

  lemma {:induction false} BatchRefines(sessionId: SessionId, log: seq<Committed>, events: seq<Event>)
    requires WellFormed(log) && SummariesNamed(log) && InSession(sessionId, events)
    ensures var sql, mem := SqlAppendBatch(sessionId, log, events), AppendEvents(log, events);
            && (sql.Some? ==> mem == Some(sql.value.log))
            && (mem.Some? ==> log <= mem.value && WellFormed(mem.value) && SummariesNamed(mem.value))
            && (mem.Some? && IdsNotReused(mem.value) ==>
                  && (sql.Some? <==> Consistent(log, mem.value))
                  && (sql.Some? ==> Answered(mem.value, events, sql.value.entries)))
  {
    if events != [] {
      var front, event := events[..|events| - 1], events[|events| - 1];
      assert events == front + [event];
      BatchRefines(sessionId, log, front);
      var mem := AppendEvents(log, events);
      if AppendEvents(log, front).Some? {
        var before := AppendEvents(log, front).value;
        OneEvent(sessionId, before, event);
        if mem.Some? && IdsNotReused(mem.value) {
          PrefixNotReused(before, mem.value);
          ConsistentStep(log, before, mem.value);
          var sql := SqlAppendBatch(sessionId, log, front);
          if sql.Some? && SqlAppendEvent(sessionId, before, event).Some? {
            AnsweredMore(before, mem.value, front, sql.value.entries, event,
              SqlAppendEvent(sessionId, before, event).value.entry);
          }
        }
      }
    }
  }

  lemma {:induction false} ConsistentStep(log: seq<Committed>, before: seq<Committed>, next: seq<Committed>)
    requires log <= before <= next && |next| <= |before| + 1
    ensures Consistent(log, next) <==>
            Consistent(log, before) && (next != before ==> SqlAccepts(before, next[|before|].event.payload))
  {
    assert forall k :: 0 <= k <= |before| ==> next[..k] == before[..k];
    assert before[..|before|] == before;
    if next == before {
      assert next == before;
    }
  }

  /**
   * The durable append refines the in-memory one: what it commits the in-memory store commits with
   * the same positions, and when no id is reused it answers with the committed events and fails
   * exactly when the in-memory store does or an entry breaks one of its own checks.
   */
  lemma {:induction false} SqlRefinesMemory(sessionId: SessionId, log: seq<Committed>, events: seq<Event>)
    requires WellFormed(log) && SummariesNamed(log)
    ensures var sql, mem := SqlAppendBatch(sessionId, log, events), AppendBatch(sessionId, log, events);
            && (sql.Some? ==> mem == Some(sql.value.log) && Grows(log, sql.value.log, events))
            && (mem.Some? && IdsNotReused(mem.value) ==>
                  && (sql.Some? <==> Consistent(log, mem.value))
                  && (sql.Some? ==> Answered(mem.value, events, sql.value.entries)))
  {
    if InSession(sessionId, events) {
      BatchRefines(sessionId, log, events);
      if AppendEvents(log, events).Some? {
        AppendGrows(log, events);
      }
    } else {
      WrongSession(sessionId, log, events);
    }
  }

  lemma {:induction false} WrongSession(sessionId: SessionId, log: seq<Committed>, events: seq<Event>)
    requires !InSession(sessionId, events)
    ensures SqlAppendBatch(sessionId, log, events).None?
  {
    if events != [] && events[|events| - 1].sessionId == sessionId {
      assert events == events[..|events| - 1] + [events[|events| - 1]];
      WrongSession(sessionId, log, events[..|events| - 1]);
    }
  }

  /** Appending never disturbs what was committed: without reuse every old entry still reads back as it was. */
  lemma {:induction false} CommittedEventsStayReadable(
      sessionId: SessionId, log: seq<Committed>, events: seq<Event>, i: nat)
    requires WellFormed(log) && SummariesNamed(log) && i < |log|
    requires SqlAppendBatch(sessionId, log, events).Some?
             && IdsNotReused(SqlAppendBatch(sessionId, log, events).value.log)
    ensures i < |SqlAppendBatch(sessionId, log, events).value.log|
    ensures ReadBack(SqlAppendBatch(sessionId, log, events).value.log, i) == Some(log[i])
  {
    SqlRefinesMemory(sessionId, log, events);
    EverythingReadsBack(SqlAppendBatch(sessionId, log, events).value.log, i);
  }
}
