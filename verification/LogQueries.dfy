/** Looking events up in a log: the last or first that fits, what came after or before it, and what still counts. */
module LogQueries {
  import opened Collections
  import opened Events

  /** The last event that fits. */
  function Latest(log: seq<Committed>, fits: Committed -> bool): (r: Option<Committed>)
    ensures r.Some? ==> r.value in log && fits(r.value)
    ensures r.None? <==> forall e :: e in log ==> !fits(e)
  {
    if log == [] then None
    else
      var front, last := log[..|log| - 1], log[|log| - 1];
      assert log == front + [last];
      if fits(last) then Some(last) else Latest(front, fits)
  }

  /** The first event that fits. */
  function Earliest(log: seq<Committed>, fits: Committed -> bool): (r: Option<Committed>)
    ensures r.Some? ==> r.value in log && fits(r.value)
  {
    if log == [] then None
    else
      var front, last := log[..|log| - 1], log[|log| - 1];
      if Latest(front, fits).Some? then Earliest(front, fits)
      else if fits(last) then Some(last) else None
  }

  /** The events after the last one that fits; all of them when none does. */
  function AfterLatest(log: seq<Committed>, fits: Committed -> bool): seq<Committed> {
    if log == [] || fits(log[|log| - 1]) then [] else AfterLatest(log[..|log| - 1], fits) + [log[|log| - 1]]
  }

  /** The events after the first one that fits; none when none does. */
  function AfterEarliest(log: seq<Committed>, fits: Committed -> bool): seq<Committed> {
    if log == [] || Latest(log[..|log| - 1], fits).None? then []
    else AfterEarliest(log[..|log| - 1], fits) + [log[|log| - 1]]
  }

  /** The events before the last one that fits; none when none does. */
  function BeforeLatest(log: seq<Committed>, fits: Committed -> bool): seq<Committed> {
    if log == [] then []
    else if fits(log[|log| - 1]) then log[..|log| - 1]
    else BeforeLatest(log[..|log| - 1], fits)
  }

  /** Whether an event, after the log so far and those of its events that still count, drops a record. */
  type Drops = (seq<Committed>, seq<Committed>, Committed) -> bool

  /** The events since the last one that dropped the record. */
  function Counting(log: seq<Committed>, drops: Drops): seq<Committed> {
    if log == [] then []
    else
      var front, e := log[..|log| - 1], log[|log| - 1];
      var before := Counting(front, drops);
      if drops(front, before, e) then [] else before + [e]
  }

  lemma {:induction false} LatestSnoc(log: seq<Committed>, e: Committed, fits: Committed -> bool)
    ensures Latest(log + [e], fits) == if fits(e) then Some(e) else Latest(log, fits)
  {
    assert (log + [e])[..|log|] == log;
  }

  lemma {:induction false} AfterSnoc(log: seq<Committed>, e: Committed, fits: Committed -> bool)
    ensures Latest(log + [e], fits) == if fits(e) then Some(e) else Latest(log, fits)
    ensures AfterLatest(log + [e], fits) == if fits(e) then [] else AfterLatest(log, fits) + [e]
  {
    assert (log + [e])[..|log|] == log;
  }

  lemma {:induction false} Snoc(log: seq<Committed>, e: Committed, fits: Committed -> bool)
    ensures Latest(log + [e], fits) == if fits(e) then Some(e) else Latest(log, fits)
    ensures Earliest(log + [e], fits) ==
            if Latest(log, fits).Some? then Earliest(log, fits) else if fits(e) then Some(e) else None
    ensures AfterLatest(log + [e], fits) == if fits(e) then [] else AfterLatest(log, fits) + [e]
    ensures AfterEarliest(log + [e], fits) == if Latest(log, fits).None? then [] else AfterEarliest(log, fits) + [e]
    ensures BeforeLatest(log + [e], fits) == if fits(e) then log else BeforeLatest(log, fits)
    ensures Earliest(log, fits).Some? <==> Latest(log, fits).Some?
  {
    assert (log + [e])[..|log|] == log;
    EarliestExists(log, fits);
  }

  lemma {:induction false} EarliestExists(log: seq<Committed>, fits: Committed -> bool)
    ensures Earliest(log, fits).Some? <==> Latest(log, fits).Some?
  {
    if log != [] {
      EarliestExists(log[..|log| - 1], fits);
    }
  }

  /** Nothing behind the last event that fits does. */
  lemma {:induction false} LatestExactly(log: seq<Committed>, fits: Committed -> bool, e: Committed)
    ensures Latest(log, fits) == Some(e)
            <==> exists i :: 0 <= i < |log| && log[i] == e && fits(e) && forall j :: i < j < |log| ==> !fits(log[j])
  {
    if log != [] {
      var front, last := log[..|log| - 1], log[|log| - 1];
      LatestExactly(front, fits, e);
      if fits(last) {
        assert Latest(log, fits) == Some(last);
        if e == last {
          assert log[|log| - 1] == e;
        }
      } else if Latest(front, fits) == Some(e) {
        var i :| 0 <= i < |front| && front[i] == e && forall j :: i < j < |front| ==> !fits(front[j]);
        assert log[i] == e && forall j :: i < j < |log| ==> !fits(log[j]) by {
          assert forall j :: i < j < |front| ==> log[j] == front[j];
        }
      }
      if i :| 0 <= i < |log| && log[i] == e && fits(e) && forall j :: i < j < |log| ==> !fits(log[j]) {
        assert i < |front| ==> front[i] == e && forall j :: i < j < |front| ==> front[j] == log[j];
      }
    }
  }

  lemma {:induction false} CountingSnoc(log: seq<Committed>, e: Committed, drops: Drops)
    ensures Counting(log + [e], drops) ==
            if drops(log, Counting(log, drops), e) then [] else Counting(log, drops) + [e]
  {
    assert (log + [e])[..|log|] == log;
  }

  /** What nothing drops counts. */
  lemma {:induction false} CountingAll(log: seq<Committed>, drops: Drops)
    requires forall front, events, e :: e in log ==> !drops(front, events, e)
    ensures Counting(log, drops) == log
  {
    if log != [] {
      CountingAll(log[..|log| - 1], drops);
      assert log == log[..|log| - 1] + [log[|log| - 1]];
    }
  }
}
