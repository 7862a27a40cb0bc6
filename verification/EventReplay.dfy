/** Paged replay of the committed log while appends go on between the pages. */
module EventReplay {
  import opened Collections
  import opened Events

  const PAGE_ROWS := 16

  /** The entries after one position through another, in order. */
  function Between(log: seq<Committed>, after: Seq, through: Seq): (r: seq<Committed>)
    requires Dense(log, 0) && through <= |log|
    ensures after < through ==> |r| == through - after
    ensures after >= through ==> r == []
  {
    if after < through then log[after..through] else []
  }

  function Min(a: nat, b: nat): nat {
    if a < b then a else b
  }

  class CommittedEventStream {
    var afterSeq: Seq
    /** The head seen by the first page bounds every later one. */
    var throughSeq: Option<Seq>
    var done: bool

    constructor (afterSeq: Seq)
      ensures this.afterSeq == afterSeq && throughSeq.None? && !done
    {
      this.afterSeq := afterSeq;
      throughSeq := None;
      done := false;
    }

    /** Where the replay ends when pulled from this log. */
    function Through(log: seq<Committed>): Seq
      reads this
    {
      if throughSeq.Some? then throughSeq.value else |log|
    }

    ghost predicate Valid(log: seq<Committed>)
      reads this
    {
      Dense(log, 0) && Through(log) <= |log|
    }

    /** What is still to be delivered. */
    function Remaining(log: seq<Committed>): seq<Committed>
      requires Valid(log)
      reads this
    {
      if done then [] else Between(log, afterSeq, Through(log))
    }

    /** One page of the log as it is now: never empty unless the stream ends. */
    method Pull(log: seq<Committed>) returns (page: seq<Committed>)
      requires Valid(log)
      modifies this
      ensures Valid(log)
      ensures page + Remaining(log) == old(Remaining(log))
      ensures |page| == Min(PAGE_ROWS, |old(Remaining(log))|)
      ensures page == [] ==> done
      ensures !done ==> throughSeq == Some(old(Through(log)))
    {
      if done {
        return [];
      }
      var through := Through(log);
      page := Between(log, afterSeq, Min(through, afterSeq + PAGE_ROWS));
      if page == [] {
        done := true;
        return;
      }
      var lastSeq := page[|page| - 1].at;
      if lastSeq < through {
        afterSeq, throughSeq := lastSeq, Some(through);
      } else {
        done := true;
      }
    }
  }

  /** The log only ever grows at its end. */
  ghost predicate GrowingLog(logAt: nat -> seq<Committed>) {
    Dense(logAt(0), 0) && forall k: nat :: GrowsAfter(logAt, k)
  }

  ghost predicate GrowsAfter(logAt: nat -> seq<Committed>, k: nat) {
    logAt(k) <= logAt(k + 1) && Dense(logAt(k + 1), 0)
  }

  lemma {:induction false} RemainingIsStable(log: seq<Committed>, next: seq<Committed>, after: Seq, through: Seq)
    requires Dense(log, 0) && Dense(next, 0) && log <= next && through <= |log|
    ensures Between(next, after, through) == Between(log, after, through)
  {
    if after < through {
      assert next[after..through] == log[after..through];
    }
  }

  /** The replay still to come, in terms of the log its first page saw. */
  function Rest(stream: CommittedEventStream, first: seq<Committed>): seq<Committed>
    requires Dense(first, 0)
    reads stream
  {
    if stream.done then [] else Between(first, stream.afterSeq, |first|)
  }

  /** A page of the grown log is a page of the log the replay began with. */
  method PullPage(
      stream: CommittedEventStream, log: seq<Committed>, ghost first: seq<Committed>) returns (page: seq<Committed>)
    requires Dense(log, 0) && Dense(first, 0) && first <= log
    requires stream.Through(log) == |first|
    modifies stream
    ensures page + Rest(stream, first) == old(Rest(stream, first))
    ensures page == [] ==> stream.done
    ensures !stream.done ==> stream.throughSeq == Some(|first|)
  {
    RemainingIsStable(first, log, stream.afterSeq, |first|);
    page := stream.Pull(log);
    RemainingIsStable(first, log, stream.afterSeq, |first|);
  }

  /**
   * Pull page after page, the log being `logAt(k)` at page `k`: whatever is appended meanwhile, the
   * replay ends and delivers once and in order what followed the position when it began.
   */
  method Replay(afterSeq: Seq, logAt: nat -> seq<Committed>) returns (delivered: seq<Committed>)
    requires GrowingLog(logAt)
    ensures delivered == Between(logAt(0), afterSeq, |logAt(0)|)
  {
    var stream := new CommittedEventStream(afterSeq);
    delivered := [];
    var k: nat := 0;
    ghost var first := logAt(0);
    while !stream.done
      invariant fresh(stream) && Dense(first, 0) && Dense(logAt(k), 0) && first <= logAt(k)
      invariant !stream.done ==> stream.Through(logAt(k)) == |first|
      invariant delivered + Rest(stream, first) == Between(first, afterSeq, |first|)
      decreases |Rest(stream, first)|, !stream.done
    {
      assert GrowsAfter(logAt, k);
      ghost var before, rest := delivered, Rest(stream, first);
      var page := PullPage(stream, logAt(k), first);
      delivered := delivered + page;
      assert delivered + Rest(stream, first) == before + (page + Rest(stream, first)) == before + rest;
      k := k + 1;
    }
  }
}
