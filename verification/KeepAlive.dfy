/** The in-memory heartbeat: leases, generations, and an alarm only the handler or shutdown may remove. */
module KeepAlive {
  import opened Collections

  /** One holder's lease: the generation it was taken in, and whether it was given back. */
  datatype Lease = Lease(generation: nat, released: bool)

  predicate Open(l: Lease, generation: nat) {
    !l.released && l.generation == generation
  }

  function OpenLeases(leases: seq<Lease>, generation: nat): nat {
    if leases == [] then 0
    else OpenLeases(leases[..|leases| - 1], generation) + (if Open(leases[|leases| - 1], generation) then 1 else 0)
  }

  lemma {:induction false} OpenAfterRelease(leases: seq<Lease>, generation: nat, id: nat)
    requires id < |leases|
    ensures OpenLeases(leases[id := leases[id].(released := true)], generation)
            == OpenLeases(leases, generation) - (if Open(leases[id], generation) then 1 else 0)
    ensures Open(leases[id], generation) ==> OpenLeases(leases, generation) > 0
  {
    var updated := leases[id := leases[id].(released := true)];
    var front := leases[..|leases| - 1];
    if id == |leases| - 1 {
      assert updated[..|updated| - 1] == front;
    } else {
      assert updated[..|updated| - 1] == front[id := front[id].(released := true)];
      OpenAfterRelease(front, generation, id);
    }
  }

  lemma {:induction false} NoneOpenLater(leases: seq<Lease>, generation: nat)
    requires forall l :: l in leases ==> l.generation < generation
    ensures OpenLeases(leases, generation) == 0
  {
    if leases != [] {
      assert leases[|leases| - 1] in leases;
      assert forall l :: l in leases[..|leases| - 1] ==> l in leases;
      NoneOpenLater(leases[..|leases| - 1], generation);
    }
  }

  class DurableObjectKeepAlive {
    const intervalMs: nat
    var activeLeases: nat
    var runSchedulingPending: bool
    var generation: nat
    var shutdownRequested: bool
    /** The leases handed out, as their holders have them. */
    var leases: seq<Lease>
    /** Queued alarm updates: whether each may clear the alarm of an idle object. */
    var tail: seq<bool>
    /** The update that has read the alarm and is about to set it. */
    var setting: Option<int>
    var armed: Option<int>

    /** The count is the unreleased leases of this generation; a pending write never postpones. */
    ghost predicate Valid()
      reads this
    {
      && activeLeases == OpenLeases(leases, generation)
      && (forall l :: l in leases ==> l.generation <= generation)
      && (setting.Some? && armed.Some? ==> setting.value < armed.value)
    }

    constructor (intervalMs: nat, armed: Option<int>)
      ensures Valid() && activeLeases == 0 && leases == [] && this.armed == armed
    {
      this.intervalMs := intervalMs;
      activeLeases, runSchedulingPending, generation, shutdownRequested := 0, false, 0, false;
      leases, tail, setting, this.armed := [], [], None, armed;
    }

    predicate Busy()
      reads this
    {
      activeLeases > 0 || runSchedulingPending
    }

    method Reschedule(clearWhenIdle: bool)
      requires Valid()
      modifies `tail
      ensures Valid() && tail == old(tail) + [clearWhenIdle]
    {
      tail := tail + [clearWhenIdle];
    }

    /** A lease of the current generation, unless the object is shut down. */
    method Acquire() returns (lease: Option<nat>)
      requires Valid()
      modifies `activeLeases, `leases, `tail
      ensures Valid()
      ensures lease.None? <==> shutdownRequested
      ensures lease.None? ==> leases == old(leases) && tail == old(tail) && activeLeases == old(activeLeases)
      ensures lease.Some? ==>
                && lease.value == |old(leases)| && leases == old(leases) + [Lease(generation, false)]
                && activeLeases == old(activeLeases) + 1 && tail == old(tail) + [false]
    {
      if shutdownRequested {
        return None;
      }
      activeLeases := activeLeases + 1;
      leases := leases + [Lease(generation, false)];
      assert leases[..|leases| - 1] == old(leases);
      lease := Some(|leases| - 1);
      Reschedule(false);
    }

    /** Give a lease back, also when arming the alarm for it failed; twice or late is harmless. */
    method Release(id: nat)
      requires Valid() && id < |leases|
      modifies `activeLeases, `leases, `tail
      ensures Valid()
      ensures leases == old(leases)[id := old(leases)[id].(released := true)]
      ensures activeLeases == old(activeLeases) - (if Open(old(leases)[id], generation) then 1 else 0)
      ensures tail == old(tail) + (if Open(old(leases)[id], generation) then [false] else [])
    {
      var lease := leases[id];
      OpenAfterRelease(leases, generation, id);
      if lease.released {
        assert leases[id := lease.(released := true)] == leases;
        return;
      }
      leases := leases[id := lease.(released := true)];
      if lease.generation != generation {
        return;
      }
      // An open lease is counted, so the count never has to be held at zero.
      activeLeases := activeLeases - 1;
      Reschedule(false);
    }

    method SetRunSchedulingPending(pending: bool)
      requires Valid()
      modifies `runSchedulingPending, `tail
      ensures Valid() && runSchedulingPending == pending && tail == old(tail) + [false]
    {
      runSchedulingPending := pending;
      Reschedule(false);
    }

    /** The alarm handler: re-arm while work remains, else clear. */
    method Alarm()
      requires Valid()
      modifies `tail
      ensures Valid() && tail == old(tail) + [true]
    {
      Reschedule(true);
    }

    /** Every lease handed out so far counts for nothing any more. */
    method Shutdown()
      requires Valid()
      modifies `shutdownRequested, `generation, `activeLeases, `runSchedulingPending, `tail
      ensures Valid() && shutdownRequested && !Busy() && tail == old(tail) + [true]
      ensures forall id :: 0 <= id < |leases| ==> !Open(leases[id], generation)
    {
      shutdownRequested := true;
      generation := generation + 1;
      activeLeases := 0;
      runSchedulingPending := false;
      NoneOpenLater(leases, generation);
      Reschedule(true);
    }

    method Restart()
      requires Valid()
      modifies `shutdownRequested
      ensures Valid() && !shutdownRequested
    {
      shutdownRequested := false;
    }

    /**
     * The next queued update reads the alarm, or removes it: only when the object is idle and the update
     * came from the handler, or when it is shut down. A call the platform refuses changes nothing.
     */
    method StartSync(now: int, refused: bool)
      requires Valid() && tail != [] && setting.None?
      modifies `tail, `setting, `armed
      ensures Valid() && tail == old(tail)[1..]
      ensures armed == if !refused && (shutdownRequested || (!Busy() && old(tail)[0])) then None else old(armed)
      ensures setting == if refused || shutdownRequested || !Busy() || (armed.Some? && armed.value <= now + intervalMs)
              then None
                         else Some(now + intervalMs)
    {
      var clearWhenIdle := tail[0];
      tail := tail[1..];
      if shutdownRequested || !Busy() {
        if (clearWhenIdle || shutdownRequested) && !refused {
          armed := None;
        }
        return;
      }
      var desiredAt := now + intervalMs;
      if !refused && (armed.None? || armed.value > desiredAt) {
        setting := Some(desiredAt);
      }
    }

    /** The update sets the alarm it found missing or later, unless the platform refuses. */
    method FinishSync(refused: bool)
      requires Valid() && setting.Some?
      modifies `setting, `armed
      ensures Valid() && setting.None? && armed == if refused then old(armed) else old(setting)
      ensures old(armed).Some? ==> armed.Some? && armed.value <= old(armed).value
    {
      if !refused {
        armed := setting;
      }
      setting := None;
    }

    /** The platform fires the alarm. */
    method Fire()
      requires Valid()
      modifies `armed
      ensures Valid() && armed == None
    {
      armed := None;
    }

    /** Alarm of a busy object: not later than it was. */
    predicate NotPostponed(before: Option<int>)
      reads this
    {
      before.Some? ==> armed.Some? && armed.value <= before.value
    }

    /**
     * Run all queued updates, any of which the platform may refuse. While there is work no refusal
     * postpones or removes the alarm, and one update that went through leaves it within the interval.
     */
    method Drain(now: int, refusals: Refusals)
      requires Valid()
      modifies `tail, `setting, `armed
      ensures Valid() && tail == [] && setting.None?
      ensures !shutdownRequested && (Busy() || !(true in old(tail))) ==> NotPostponed(old(armed))
      ensures !shutdownRequested && Busy() && old(setting).None?
              && (exists n :: 0 <= n < |old(tail)| && GoesThrough(refusals, n)) ==>
                armed.Some? && armed.value <= now + intervalMs
    {
      ghost var queue := tail;
      while tail != [] || setting.Some?
        invariant Valid() && |tail| <= |queue|
        invariant forall clear :: clear in tail ==> clear in queue
        invariant !shutdownRequested && (Busy() || !(true in queue)) ==> NotPostponed(old(armed))
        invariant old(setting).None? && tail == queue ==> setting.None?
        invariant !shutdownRequested && Busy() && old(setting).None? ==>
                    forall n :: |tail| <= n < |queue| && GoesThrough(refusals, n) ==> Within(now + intervalMs, refusals)
        decreases |tail|, setting.Some?
      {
        if setting.Some? {
          FinishSync(refusals(|tail|, true));
        } else {
          StartSync(now, refusals(|tail| - 1, false));
        }
      }
    }

    /** The alarm is armed by the given time, or will be by the update under way. */
    ghost predicate Within(at: int, refusals: Refusals)
      reads this
    {
      || (armed.Some? && armed.value <= at)
      || (setting.Some? && setting.value <= at && !refusals(|tail|, true))
    }
  }

  /** Which calls of the queued updates the platform refuses, counted from the end: the first, or the one that sets. */
  type Refusals = (nat, bool) -> bool

  predicate GoesThrough(refusals: Refusals, n: nat) {
    !refusals(n, false) && !refusals(n, true)
  }
}
