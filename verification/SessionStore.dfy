/** The in-memory session store: the specification of an idempotent, all-or-nothing append. */
module SessionStore {
  import opened Collections
  import opened Events

  // ---------------------------------------------------------------------------
  // The log as a value
  // ---------------------------------------------------------------------------

  function HasId(id: EventId): Committed -> bool {
    (entry: Committed) => entry.event.eventId == id
  }

  function FindEvent(log: seq<Committed>, id: EventId): Option<Committed> {
    Find(log, HasId(id))
  }

  /** The artifact last stored under a summary id. */
  function SummaryById(log: seq<Committed>, id: SummaryId): Option<Summary> {
    if log == [] then None
    else
      match log[|log| - 1].event.payload
      case SummaryCreated(_, _, _, _, summary) =>
        if summary.summaryId == id then Some(summary) else SummaryById(log[..|log| - 1], id)
      case _ => SummaryById(log[..|log| - 1], id)
  }

  /** A summary must carry its own id, and a rebase must name a stored summary. */
  predicate Accepts(log: seq<Committed>, p: Payload) {
    match p
    case SummaryCreated(_, summaryId, _, _, summary) => summary.summaryId == summaryId
    case ContextRebased(_, summaryId, _, _) => SummaryById(log, summaryId).Some?
    case _ => true
  }

  function AppendEvent(log: seq<Committed>, event: Event): Option<seq<Committed>> {
    if FindEvent(log, event.eventId).Some? then Some(log)
    else if Accepts(log, event.payload) then Some(log + [Committed(|log| + 1, event)])
    else None
  }

  /** The log after a batch, or nothing when one of its events is refused. */
  function AppendEvents(log: seq<Committed>, events: seq<Event>): Option<seq<Committed>> {
    if events == [] then Some(log)
    else
      var before := AppendEvents(log, events[..|events| - 1]);
      if before.None? then None else AppendEvent(before.value, events[|events| - 1])
  }

  predicate InSession(sessionId: SessionId, events: seq<Event>) {
    forall e :: e in events ==> e.sessionId == sessionId
  }

  function AppendBatch(sessionId: SessionId, log: seq<Committed>, events: seq<Event>): Option<seq<Committed>> {
    if InSession(sessionId, events) then AppendEvents(log, events) else None
  }

  /** A log as a store keeps it: positions without gaps, no event id twice. */
  ghost predicate WellFormed(log: seq<Committed>) {
    Dense(log, 0) && forall i, j :: 0 <= i < j < |log| ==> log[i].event.eventId != log[j].event.eventId
  }

  lemma {:induction false} FindOnlyEntry(log: seq<Committed>, i: nat)
    requires WellFormed(log) && i < |log|
    ensures FindEvent(log, log[i].event.eventId) == Some(log[i])
  {
    assert log[i] in log;
    var found := FindEvent(log, log[i].event.eventId).value;
    var j :| 0 <= j < |log| && log[j] == found;
  }

  lemma {:induction false} FindInPrefix(log: seq<Committed>, more: seq<Committed>, id: EventId)
    requires FindEvent(log, id).Some?
    ensures FindEvent(log + more, id) == FindEvent(log, id)
  {
    assert (log + more)[0] == log[0];
    if !HasId(id)(log[0]) {
      assert (log + more)[1..] == log[1..] + more;
      FindInPrefix(log[1..], more, id);
    }
  }

  /** What an append does: the log grows at its end, and every event of the batch is in it once. */
  ghost predicate Grows(log: seq<Committed>, next: seq<Committed>, events: seq<Event>) {
    && log <= next
    && WellFormed(next)
    && (forall e :: e in events ==> FindEvent(next, e.eventId).Some?)
    && (forall i :: |log| <= i < |next| ==> next[i].event in events)
  }

  /** One event more keeps the log well formed, with the event in it. */
  lemma {:induction false} AppendGrowsByOne(log: seq<Committed>, event: Event)
    requires WellFormed(log)
    ensures FindEvent(log, event.eventId).None? ==>
              var next := log + [Committed(|log| + 1, event)];
              WellFormed(next) && FindEvent(next, event.eventId) == Some(Committed(|log| + 1, event))
  {
    if FindEvent(log, event.eventId).None? {
      var next := log + [Committed(|log| + 1, event)];
      forall i | 0 <= i < |log| ensures log[i].event.eventId != event.eventId {
        assert log[i] in log;
      }
      FindOnlyEntry(next, |log|);
    }
  }

  lemma {:induction false} GrowsThrough(log: seq<Committed>, before: seq<Committed>, events: seq<Event>, event: Event)
    requires Grows(log, before, events) && FindEvent(before, event.eventId).None?
    ensures Grows(log, before + [Committed(|before| + 1, event)], events + [event])
  {
    var next := before + [Committed(|before| + 1, event)];
    AppendGrowsByOne(before, event);
    forall x | x in events ensures FindEvent(next, x.eventId).Some? {
      FindInPrefix(before, [Committed(|before| + 1, event)], x.eventId);
    }
    forall i | |log| <= i < |next| ensures next[i].event in events + [event] {
      assert i < |before| ==> next[i] == before[i];
    }
  }

  lemma {:induction false} GrowsByLast(log: seq<Committed>, before: seq<Committed>, events: seq<Event>)
    requires events != [] && Grows(log, before, events[..|events| - 1])
    requires AppendEvent(before, events[|events| - 1]).Some?
    ensures Grows(log, AppendEvent(before, events[|events| - 1]).value, events)
  {
    var front, last := events[..|events| - 1], events[|events| - 1];
    assert events == front + [last];
    if FindEvent(before, last.eventId).None? {
      GrowsThrough(log, before, front, last);
    }
  }

  lemma {:induction false} AppendGrows(log: seq<Committed>, events: seq<Event>)
    requires WellFormed(log) && AppendEvents(log, events).Some?
    ensures Grows(log, AppendEvents(log, events).value, events)
  {
    if events != [] {
      AppendGrows(log, events[..|events| - 1]);
      GrowsByLast(log, AppendEvents(log, events[..|events| - 1]).value, events);
    }
  }

  lemma {:induction false} KnownEventsChangeNothing(log: seq<Committed>, events: seq<Event>)
    requires forall e :: e in events ==> FindEvent(log, e.eventId).Some?
    ensures AppendEvents(log, events) == Some(log)
  {
    if events != [] {
      assert forall e :: e in events[..|events| - 1] ==> e in events;
      KnownEventsChangeNothing(log, events[..|events| - 1]);
    }
  }

  /** Retrying a committed batch, or any part of it in any order, changes nothing. */
  lemma {:induction false} AppendIsIdempotent(log: seq<Committed>, events: seq<Event>, retried: seq<Event>)
    requires WellFormed(log) && AppendEvents(log, events).Some?
    requires forall e :: e in retried ==> e in events
    ensures AppendEvents(AppendEvents(log, events).value, retried) == AppendEvents(log, events)
  {
    AppendGrows(log, events);
    KnownEventsChangeNothing(AppendEvents(log, events).value, retried);
  }

  // ---------------------------------------------------------------------------
  // The store
  // ---------------------------------------------------------------------------

  class InMemorySessionStore {
    const sessionId: SessionId
    var committed: seq<Committed>
    var summaries: OrderedMap<SummaryId, Summary>

    ghost predicate Valid()
      reads this
    {
      WellFormed(committed) && Indexed(committed, summaries)
    }

    constructor (sessionId: SessionId)
      ensures Valid() && committed == [] && this.sessionId == sessionId
    {
      this.sessionId := sessionId;
      committed := [];
      summaries := Empty;
    }

    /**
     * Append a batch in one critical section. The answers are the entries of the new log carrying
     * the batch's event ids; a refused batch leaves the store as it was.
     */
    method Append(events: seq<Event>) returns (answers: Option<seq<Committed>>)
      requires Valid()
      modifies this
      ensures Valid()
      ensures answers.Some? <==> AppendBatch(sessionId, old(committed), events).Some?
      ensures answers.None? ==> committed == old(committed) && summaries == old(summaries)
      ensures answers.Some? ==>
                && Some(committed) == AppendBatch(sessionId, old(committed), events)
                && Answered(committed, events, answers.value)
    {
      var scoped := EnsureSession(events);
      if !scoped {
        return None;
      }
      var next, nextSummaries := committed, summaries;
      var results: seq<Committed> := [];
      for i := 0 to |events|
        invariant committed == old(committed) && summaries == old(summaries)
        invariant AppendEvents(committed, events[..i]) == Some(next)
        invariant WellFormed(next) && Indexed(next, nextSummaries)
        invariant |results| == i
        invariant Answered(next, events[..i], results)
      {
        assert events[..i + 1][..i] == events[..i];
        ghost var before := next;
        var answer: Option<Committed>;
        answer, next, nextSummaries := Stage(next, nextSummaries, events[i]);
        if answer.None? {
          RefusedForever(committed, events, i);
          return None;
        }
        AnsweredMore(before, next, events[..i], results, events[i], answer.value);
        assert events[..i + 1] == events[..i] + [events[i]];
        results := results + [answer.value];
      }
      assert events[..|events|] == events;
      committed, summaries := next, nextSummaries;
      answers := Some(results);
    }

    method EnsureSession(events: seq<Event>) returns (scoped: bool)
      ensures scoped <==> InSession(sessionId, events)
    {
      for i := 0 to |events|
        invariant InSession(sessionId, events[..i])
      {
        if events[i].sessionId != sessionId {
          assert events[i] in events;
          return false;
        }
      }
      assert events[..|events|] == events;
      return true;
    }

    /** Stage one event after those already staged, or answer with the entry that carries its id. */
    method Stage(log: seq<Committed>, known: OrderedMap<SummaryId, Summary>, event: Event)
      returns (answer: Option<Committed>, next: seq<Committed>, nextSummaries: OrderedMap<SummaryId, Summary>)
      requires WellFormed(log) && Indexed(log, known)
      ensures answer.Some? <==> AppendEvent(log, event).Some?
      ensures answer.Some? ==>
                && AppendEvent(log, event) == Some(next)
                && log <= next && WellFormed(next) && Indexed(next, nextSummaries)
                && FindEvent(next, event.eventId) == answer
    {
      AppendGrowsByOne(log, event);
      answer, next, nextSummaries := FindEvent(log, event.eventId), log, known;
      if answer.None? {
        if event.payload.SummaryCreated? {
          if event.payload.summary.summaryId != event.payload.summaryId {
            return;
          }
          nextSummaries := nextSummaries.Set(event.payload.summaryId, event.payload.summary);
        }
        if event.payload.ContextRebased? && !nextSummaries.Has(event.payload.summaryId) {
          return;
        }
        IndexedAfter(log, known, Committed(|log| + 1, event));
        next := log + [Committed(|log| + 1, event)];
        answer := Some(Committed(|log| + 1, event));
      }
    }
  }

  /** The summaries a log stored last under each id. */
  ghost predicate Indexed(log: seq<Committed>, summaries: OrderedMap<SummaryId, Summary>) {
    forall id :: summaries.Get(id) == SummaryById(log, id)
  }

  lemma {:induction false} IndexedAfter(log: seq<Committed>, known: OrderedMap<SummaryId, Summary>, entry: Committed)
    requires Indexed(log, known) && Accepts(log, entry.event.payload)
    ensures var p := entry.event.payload;
            Indexed(log + [entry], if p.SummaryCreated? then known.Set(p.summaryId, p.summary) else known)
  {
    assert (log + [entry])[..|log + [entry]| - 1] == log;
  }

  ghost predicate Answered(log: seq<Committed>, events: seq<Event>, answers: seq<Committed>) {
    |answers| == |events| && forall k :: 0 <= k < |events| ==> FindEvent(log, events[k].eventId) == Some(answers[k])
  }

  lemma {:induction false} AnsweredMore(
      log: seq<Committed>, next: seq<Committed>, events: seq<Event>, answers: seq<Committed>, event: Event,
      answer: Committed)
    requires log <= next && Answered(log, events, answers)
    requires FindEvent(next, event.eventId) == Some(answer)
    ensures Answered(next, events + [event], answers + [answer])
  {
    forall k | 0 <= k < |events| ensures FindEvent(next, events[k].eventId) == Some(answers[k]) {
      FindInPrefix(log, next[|log|..], events[k].eventId);
      assert log + next[|log|..] == next;
    }
  }

  lemma {:induction false} RefusedForever(log: seq<Committed>, events: seq<Event>, i: nat)
    requires i < |events| && AppendEvents(log, events[..i + 1]).None?
    ensures AppendEvents(log, events).None?
  {
    if i + 1 < |events| {
      assert events[..|events| - 1][..i + 1] == events[..i + 1];
      RefusedForever(log, events[..|events| - 1], i);
    } else {
      assert events[..i + 1] == events;
    }
  }

  // ---------------------------------------------------------------------------
  // Summaries come before their rebases
  // ---------------------------------------------------------------------------

  /** An event of the log stores a summary under the id. */
  ghost predicate StoresSummary(log: seq<Committed>, id: SummaryId) {
    exists e :: e in log && e.event.payload.SummaryCreated? && e.event.payload.summary.summaryId == id
  }

  lemma {:induction false} SummaryFound(log: seq<Committed>, id: SummaryId)
    ensures SummaryById(log, id).Some? <==> StoresSummary(log, id)
  {
    if log != [] {
      var front, last := log[..|log| - 1], log[|log| - 1];
      SummaryFound(front, id);
      assert log == front + [last];
      assert last in log && forall e :: e in log <==> e in front || e == last;
    }
  }

  /** A new event is taken unless it is a summary under another id, or a rebase to a summary not stored. */
  lemma {:induction false} TakenExactly(log: seq<Committed>, event: Event)
    requires forall e :: e in log ==> e.event.eventId != event.eventId
    ensures AppendEvent(log, event) ==
            if event.payload.SummaryCreated? && event.payload.summary.summaryId != event.payload.summaryId then None
            else if event.payload.ContextRebased? && !StoresSummary(log, event.payload.summaryId) then None
            else Some(log + [Committed(|log| + 1, event)])
  {
    if event.payload.ContextRebased? {
      SummaryFound(log, event.payload.summaryId);
    }
  }

  /** Every rebase comes after a summary of its id. */
  ghost predicate RebasesSupported(log: seq<Committed>) {
    forall i :: 0 <= i < |log| && log[i].event.payload.ContextRebased? ==>
      StoresSummary(log[..i], log[i].event.payload.summaryId)
  }

  /** Over any batches no rebase is committed before its summary. */
  lemma {:induction false} RebasesStaySupported(log: seq<Committed>, events: seq<Event>)
    requires RebasesSupported(log) && AppendEvents(log, events).Some?
    ensures RebasesSupported(AppendEvents(log, events).value)
  {
    if events != [] {
      var before := AppendEvents(log, events[..|events| - 1]).value;
      var next := AppendEvents(log, events).value;
      RebasesStaySupported(log, events[..|events| - 1]);
      if next != before {
        forall i | 0 <= i < |next| && next[i].event.payload.ContextRebased?
          ensures StoresSummary(next[..i], next[i].event.payload.summaryId)
        {
          if i < |before| {
            assert next[..i] == before[..i] && next[i] == before[i];
          } else {
            assert next[..i] == before;
            SummaryFound(before, next[i].event.payload.summaryId);
          }
        }
      }
    }
  }
}
