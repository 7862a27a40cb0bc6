/** The sink inbox: durable heads coalesced around bounded ephemeral barriers. */
module SinkInbox {
  import opened Collections
  import opened Events

  const EPHEMERAL_CAPACITY := 128
  const EPHEMERAL_BYTE_CAPACITY := 256 * 1024

  /** A best-effort update, positioned at the durable head it was published at. */
  datatype Ephemeral = Ephemeral(at: Seq, data: Json)

  datatype Pending = Pending(event: Ephemeral, bytes: nat)

  datatype SinkWork = DurableThrough(throughSeq: Seq) | EphemeralWork(event: Ephemeral)

  function Bytes(pending: seq<Pending>): nat {
    if pending == [] then 0 else pending[0].bytes + Bytes(pending[1..])
  }

  lemma {:induction false} BytesSnoc(pending: seq<Pending>, p: Pending)
    ensures Bytes(pending + [p]) == Bytes(pending) + p.bytes
  {
    if pending == [] {
      assert pending + [p] == [p];
    } else {
      assert (pending + [p])[1..] == pending[1..] + [p];
      BytesSnoc(pending[1..], p);
    }
  }

  /** The entries left once those positioned before the cursor are dropped. */
  function Live(pending: seq<Pending>, cursor: Seq): (r: seq<Pending>)
    ensures |r| <= |pending|
    ensures r != [] ==> cursor <= r[0].event.at
  {
    if pending == [] || cursor <= pending[0].event.at then pending else Live(pending[1..], cursor)
  }

  class Inbox {
    var head: Seq
    var pending: seq<Pending>
    var pendingBytes: nat

    ghost predicate Valid()
      reads this
    {
      && pendingBytes == Bytes(pending)
      && |pending| <= EPHEMERAL_CAPACITY
      && pendingBytes <= EPHEMERAL_BYTE_CAPACITY
    }

    constructor (initialHead: Seq)
      ensures Valid() && head == initialHead && pending == []
    {
      head, pending, pendingBytes := initialHead, [], 0;
    }

    method Notify(throughSeq: Seq)
      requires Valid()
      modifies `head
      ensures Valid() && head == if old(head) < throughSeq then throughSeq else old(head)
    {
      if head < throughSeq {
        head := throughSeq;
      }
    }

    /** Accepted at the end, or dropped when it would pass the count or the byte limit. */
    method OfferEphemeral(event: Ephemeral, bytes: nat) returns (accepted: bool)
      requires Valid()
      modifies `pending, `pendingBytes
      ensures Valid()
      ensures accepted <==>
              |old(pending)| < EPHEMERAL_CAPACITY
              && Bytes(old(pending)) + bytes <= EPHEMERAL_BYTE_CAPACITY
      ensures pending == if accepted then old(pending) + [Pending(event, bytes)] else old(pending)
    {
      if |pending| >= EPHEMERAL_CAPACITY || bytes > EPHEMERAL_BYTE_CAPACITY - pendingBytes {
        return false;
      }
      BytesSnoc(pending, Pending(event, bytes));
      pending := pending + [Pending(event, bytes)];
      pendingBytes := pendingBytes + bytes;
      accepted := true;
    }

    /** The next step for a cursor: durables up to the first barrier, the barrier itself, or the head. */
    method Poll(cursor: Seq) returns (work: Option<SinkWork>)
      requires Valid()
      modifies `pending, `pendingBytes
      ensures Valid()
      ensures var live := Live(old(pending), cursor);
              if live == [] then
                pending == [] && work == if cursor < head then Some(DurableThrough(head)) else None
              else if live[0].event.at > cursor then
                pending == live && work == Some(DurableThrough(live[0].event.at))
              else
                pending == live[1..] && work == Some(EphemeralWork(live[0].event))
    {
      while pending != []
        invariant Valid()
        invariant Live(pending, cursor) == Live(old(pending), cursor)
        decreases |pending|
      {
        var first := pending[0];
        if first.event.at > cursor {
          return Some(DurableThrough(first.event.at));
        }
        pending := pending[1..];
        pendingBytes := pendingBytes - first.bytes;
        if first.event.at == cursor {
          return Some(EphemeralWork(first.event));
        }
      }
      work := if cursor < head then Some(DurableThrough(head)) else None;
    }
  }

  // ---------------------------------------------------------------------------
  // A driver following the inbox
  // ---------------------------------------------------------------------------

  /** What the sink was given, one entry at a time. */
  datatype Delivery = Durable(at: Seq) | Update(event: Ephemeral)

  function EphemeralsOf(delivered: seq<Delivery>): seq<Ephemeral> {
    if delivered == [] then []
    else
      var front, last := EphemeralsOf(delivered[..|delivered| - 1]), delivered[|delivered| - 1];
      if last.Update? then front + [last.event] else front
  }

  function EventsOf(pending: seq<Pending>): seq<Ephemeral> {
    seq(|pending|, i requires 0 <= i < |pending| => pending[i].event)
  }

  /** The last durable position among the deliveries. */
  function CursorAfter(start: Seq, delivered: seq<Delivery>): Seq {
    if delivered == [] then start
    else if delivered[|delivered| - 1].Durable? then delivered[|delivered| - 1].at
    else CursorAfter(start, delivered[..|delivered| - 1])
  }

  /** The delivery fits those before it: the next durable, or an update at exactly the position reached. */
  predicate Fits(start: Seq, before: seq<Delivery>, d: Delivery) {
    match d
    case Durable(at) => at == CursorAfter(start, before) + 1
    case Update(event) => event.at == CursorAfter(start, before)
  }

  /**
   * Durables come in order without gaps; every update comes right when its position has been reached
   * and not passed.
   */
  predicate InOrder(start: Seq, delivered: seq<Delivery>) {
    delivered == [] ||
    (InOrder(start, delivered[..|delivered| - 1])
      && Fits(start, delivered[..|delivered| - 1], delivered[|delivered| - 1]))
  }

  lemma {:induction false} InOrderAt(start: Seq, delivered: seq<Delivery>, i: nat)
    requires InOrder(start, delivered) && i < |delivered|
    ensures Fits(start, delivered[..i], delivered[i])
  {
    if i < |delivered| - 1 {
      InOrderAt(start, delivered[..|delivered| - 1], i);
      assert delivered[..|delivered| - 1][..i] == delivered[..i];
    }
  }

  lemma {:induction false} InOrderSnoc(start: Seq, delivered: seq<Delivery>, d: Delivery)
    requires InOrder(start, delivered) && Fits(start, delivered, d)
    ensures InOrder(start, delivered + [d])
    ensures CursorAfter(start, delivered + [d]) == if d.Durable? then d.at else CursorAfter(start, delivered)
    ensures EphemeralsOf(delivered + [d]) == EphemeralsOf(delivered) + (if d.Update? then [d.event] else [])
  {
    assert (delivered + [d])[..|delivered + [d]| - 1] == delivered;
  }

  /** Positions never go back, and lie between the cursor and the head. */
  ghost predicate Queued(pending: seq<Pending>, cursor: Seq, head: Seq) {
    && (forall i :: 0 <= i < |pending| ==> cursor <= pending[i].event.at <= head)
    && (forall i, j :: 0 <= i < j < |pending| ==> pending[i].event.at <= pending[j].event.at)
  }

  /** What a lane is at: a page of durables through a position, or an update taken off the queue. */
  datatype Working = Page(throughSeq: Seq) | Updating(event: Ephemeral)

  datatype Polled = Idle | Started | Unreadable

  function Underway(working: Option<Working>): seq<Ephemeral> {
    if working.Some? && working.value.Updating? then [working.value.event] else []
  }

  /** The work fits the cursor, and everything queued comes after it. */
  ghost predicate WorkFits(working: Option<Working>, pending: seq<Pending>, cursor: Seq, head: Seq) {
    match working
    case None => true
    case Some(Page(throughSeq)) => cursor < throughSeq <= head && forall p :: p in pending ==> throughSeq <= p.event.at
    case Some(Updating(event)) => event.at == cursor
  }

  /**
   * A sink lane: it polls, reads one page or takes one update, processes it, and moves its cursor with
   * the page. Commits and updates may arrive at any moment, also while it is processing.
   */
  class SinkLane {
    const inbox: Inbox
    const start: Seq
    const batchSize: nat
    var cursor: Seq
    var working: Option<Working>
    ghost var delivered: seq<Delivery>
    ghost var accepted: seq<Ephemeral>

    ghost predicate Valid()
      reads this, inbox
    {
      && inbox.Valid()
      && cursor <= inbox.head
      && Queued(inbox.pending, cursor, inbox.head)
      && WorkFits(working, inbox.pending, cursor, inbox.head)
      && InOrder(start, delivered) && CursorAfter(start, delivered) == cursor
      && accepted == EphemeralsOf(delivered) + Underway(working) + EventsOf(inbox.pending)
    }

    /** How far the lane is from rest. */
    ghost function Backlog(): int
      reads this, inbox
    {
      2 * (inbox.head - cursor + |inbox.pending|) + (if working.None? then 0 else if working.value.Updating?
        then 1
        else -1)
    }

    constructor (start: Seq, batchSize: nat)
      ensures Valid() && fresh(inbox) && this.start == start && this.batchSize == batchSize
      ensures cursor == start && working.None? && delivered == [] && accepted == []
    {
      this.start, this.batchSize := start, batchSize;
      inbox := new Inbox(start);
      cursor, working, delivered, accepted := start, None, [], [];
      new;
      assert EventsOf(inbox.pending) == [] && EphemeralsOf(delivered) == [] && InOrder(start, delivered);
    }

    /** The log grew to `throughSeq`. */
    method Committed(throughSeq: Seq)
      requires Valid()
      modifies inbox
      ensures Valid() && inbox.pending == old(inbox.pending)
    {
      inbox.Notify(throughSeq);
    }

    /** An update published at the current durable head. */
    method Publish(data: Json, bytes: nat) returns (ok: bool)
      requires Valid()
      modifies inbox, `accepted
      ensures Valid()
      ensures accepted == old(accepted) + (if ok then [Ephemeral(inbox.head, data)] else [])
      ensures inbox.head == old(inbox.head)
    {
      var event := Ephemeral(inbox.head, data);
      ok := inbox.OfferEphemeral(event, bytes);
      if ok {
        accepted := accepted + [event];
        assert EventsOf(inbox.pending) == EventsOf(old(inbox.pending)) + [event];
      }
    }

    /**
     * Poll for the next work. No accepted update is dropped: what was accepted is what was delivered,
     * what is being processed and what is still queued, in this order.
     */
    method StartNext() returns (polled: Polled)
      requires Valid() && working.None?
      modifies `working, inbox
      ensures Valid() && inbox.head == old(inbox.head)
      ensures polled.Started? <==> working.Some?
      ensures polled.Idle? ==> inbox.pending == [] && cursor == inbox.head
      ensures polled.Unreadable? ==> batchSize == 0 && inbox.pending == old(inbox.pending)
      ensures polled.Started? ==> Backlog() < old(Backlog())
    {
      ghost var queue := inbox.pending;
      assert Live(queue, cursor) == queue;
      assert EphemeralsOf(delivered) + [] == EphemeralsOf(delivered);
      var work := inbox.Poll(cursor);
      match work {
        case None => polled := Idle;
        case Some(DurableThrough(throughSeq)) =>
          if batchSize == 0 {
            return Unreadable;
          }
          polled := Started;
          ReadPage(throughSeq);
        case Some(EphemeralWork(event)) =>
          polled := Started;
          TakeUpdate(event, queue);
      }
    }

    /** Read at most a page of the durables through the position. */
    method ReadPage(throughSeq: Seq)
      requires Valid() && working.None? && batchSize > 0 && cursor < throughSeq <= inbox.head
      requires forall p :: p in inbox.pending ==> throughSeq <= p.event.at
      modifies `working
      ensures Valid() && working.Some? && working.value.Page? && Backlog() < old(Backlog())
    {
      working := Some(Page(if cursor + batchSize < throughSeq then cursor + batchSize else throughSeq));
    }

    method TakeUpdate(event: Ephemeral, ghost queue: seq<Pending>)
      requires inbox.Valid() && cursor <= inbox.head && Queued(queue, cursor, inbox.head) && working.None?
      requires InOrder(start, delivered) && CursorAfter(start, delivered) == cursor
      requires accepted == EphemeralsOf(delivered) + EventsOf(queue)
      requires queue != [] && queue[0].event == event && event.at == cursor && inbox.pending == queue[1..]
      modifies `working
      ensures Valid() && working == Some(Updating(event))
    {
      assert EventsOf(queue) == [event] + EventsOf(queue[1..]);
      assert EphemeralsOf(delivered) + EventsOf(queue) == EphemeralsOf(delivered) + [event] + EventsOf(queue[1..]);
      working := Some(Updating(event));
    }

    /** The sink processed what the lane was at: the page and then the cursor, or the update. */
    method Finish()
      requires Valid() && working.Some?
      modifies `cursor, `working, `delivered
      ensures Valid() && working.None? && old(delivered) <= delivered
      ensures old(working).value.Updating? ==>
              cursor == old(cursor)
              && delivered == old(delivered) + [Update(old(working).value.event)]
      ensures old(working).value.Page? ==>
              cursor == old(working).value.throughSeq
              && EphemeralsOf(delivered) == EphemeralsOf(old(delivered))
      ensures Backlog() < old(Backlog())
    {
      match working.value {
        case Page(throughSeq) => DeliverThrough(throughSeq);
        case Updating(event) =>
          InOrderSnoc(start, delivered, Update(event));
          delivered := delivered + [Update(event)];
      }
      working := None;
      assert EphemeralsOf(delivered) + [] == EphemeralsOf(delivered);
    }

    /** Deliver the durables after the cursor one by one. */
    method DeliverThrough(throughSeq: Seq)
      requires cursor < throughSeq
      requires InOrder(start, delivered) && CursorAfter(start, delivered) == cursor
      modifies `cursor, `delivered
      ensures cursor == throughSeq && old(delivered) <= delivered
              && EphemeralsOf(delivered) == EphemeralsOf(old(delivered))
      ensures InOrder(start, delivered) && CursorAfter(start, delivered) == cursor
    {
      while cursor < throughSeq
        invariant cursor <= throughSeq && old(delivered) <= delivered
        invariant InOrder(start, delivered) && CursorAfter(start, delivered) == cursor
        invariant EphemeralsOf(delivered) == EphemeralsOf(old(delivered))
        decreases throughSeq - cursor
      {
        DeliverNext();
      }
    }

    method DeliverNext()
      requires InOrder(start, delivered) && CursorAfter(start, delivered) == cursor
      modifies `cursor, `delivered
      ensures cursor == old(cursor) + 1 && delivered == old(delivered) + [Durable(cursor)]
      ensures InOrder(start, delivered) && CursorAfter(start, delivered) == cursor
              && EphemeralsOf(delivered) == EphemeralsOf(old(delivered))
    {
      InOrderSnoc(start, delivered, Durable(cursor + 1));
      delivered := delivered + [Durable(cursor + 1)];
      cursor := cursor + 1;
    }

    /** With nothing else arriving the lane comes to rest: everything accepted is delivered and the head reached. */
    method CatchUp()
      requires Valid() && batchSize > 0
      modifies this, inbox
      ensures Valid() && working.None? && cursor == old(inbox.head)
      ensures accepted == old(accepted) && EphemeralsOf(delivered) == accepted
    {
      var polled := Started;
      while polled.Started?
        invariant Valid() && inbox.head == old(inbox.head) && accepted == old(accepted)
        invariant !polled.Started? ==> working.None? && inbox.pending == [] && cursor == inbox.head
        decreases polled.Started?, Backlog()
      {
        if working.Some? {
          Finish();
        } else {
          polled := StartNext();
        }
      }
      assert EventsOf(inbox.pending) == [];
    }
  }
}
