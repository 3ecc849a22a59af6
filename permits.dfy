/**
 * The counting semaphore proxy.py holds for the whole of each forward: a pool of
 * `MaxConcurrentRequests` permits, taken on entry and given back on every way out.
 */
module Permits {
  import opened Wrappers

  /** The pool size the gateway is configured with (config.py). */
  const MaxConcurrentRequests: nat := 5

  /** What a forward does to the pool: take a permit on entry, give it back on exit. */
  datatype PermitEvent = Enter | Exit

  /** How many times `e` happens in `trace`. */
  function Count(trace: seq<PermitEvent>, e: PermitEvent): (n: nat)
    ensures n <= |trace|
  {
    if trace == [] then 0
    else Count(trace[..|trace| - 1], e) + (if trace[|trace| - 1] == e then 1 else 0)
  }

  /**
   * The free permits after the events of several concurrent forwards, interleaved, starting
   * from a full pool of `capacity`. An entry completes only while a permit is free: a trace
   * with an entry at zero is not one the semaphore lets happen, and gives None. An exit adds
   * a permit back, as the semaphore does, whatever the count.
   */
  function PermitsAfter(capacity: nat, trace: seq<PermitEvent>): Option<nat>
  {
    if trace == [] then Some(capacity)
    else
      match PermitsAfter(capacity, trace[..|trace| - 1])
      case None => None
      case Some(p) =>
        if trace[|trace| - 1] == Exit then Some(p + 1)
        else if p > 0 then Some(p - 1)
        else None
  }

  /** An entry while `p` permits are free leaves one fewer: what `Acquire` does to the pool. */
  lemma EnterStep(capacity: nat, trace: seq<PermitEvent>, p: nat)
    requires PermitsAfter(capacity, trace) == Some(p) && p > 0
    ensures PermitsAfter(capacity, trace + [Enter]) == Some(p - 1)
  {
    assert (trace + [Enter])[..|trace|] == trace;
  }

  /** An entry while no permit is free is not one the semaphore lets happen. */
  lemma EnterBlocked(capacity: nat, trace: seq<PermitEvent>)
    requires PermitsAfter(capacity, trace) == Some(0)
    ensures PermitsAfter(capacity, trace + [Enter]).None?
  {
    assert (trace + [Enter])[..|trace|] == trace;
  }

  /** An exit gives one permit back: what `Release` does to the pool. */
  lemma ExitStep(capacity: nat, trace: seq<PermitEvent>, p: nat)
    requires PermitsAfter(capacity, trace) == Some(p)
    ensures PermitsAfter(capacity, trace + [Exit]) == Some(p + 1)
  {
    assert (trace + [Exit])[..|trace|] == trace;
  }

  /**
   * The permit pool. A forward holds one permit while it runs. The ghost `trace` records the
   * entries and exits so far, and the free count is always what `PermitsAfter` gives for it.
   */
  class PermitPool {
    const capacity: nat
    var permits: nat
    ghost var trace: seq<PermitEvent>

    /**
     * No more permits are free than the pool was created with, and the free count is the one
     * the trace of entries and exits leaves.
     */
    ghost predicate Valid()
      reads this
    {
      permits <= capacity && PermitsAfter(capacity, trace) == Some(permits)
    }

    /** Forwards holding a permit right now. */
    function InFlight(): (n: nat)
      reads this
      requires Valid()
      ensures n <= capacity
      ensures n + permits == capacity
      ensures n == Count(trace, Enter) - Count(trace, Exit)
    {
      FreeCount(capacity, trace);
      capacity - permits
    }

    constructor (size: nat)
      ensures Valid() && capacity == size && permits == size && InFlight() == 0 && trace == []
    {
      capacity := size;
      permits := size;
      trace := [];
    }

    /**
     * Take a permit on entry. The source waits while none is free; this sequential model
     * covers the moment the permit is granted.
     */
    method Acquire()
      requires Valid() && permits > 0
      modifies this
      ensures Valid() && permits == old(permits) - 1 && InFlight() == old(InFlight()) + 1
      ensures trace == old(trace) + [Enter]
    {
      EnterStep(capacity, trace, permits);
      permits := permits - 1;
      trace := trace + [Enter];
    }

    /** Give a held permit back on leaving. */
    method Release()
      requires Valid() && permits < capacity
      modifies this
      ensures Valid() && permits == old(permits) + 1 && InFlight() == old(InFlight()) - 1
      ensures trace == old(trace) + [Exit]
    {
      ExitStep(capacity, trace, permits);
      permits := permits + 1;
      trace := trace + [Exit];
    }
  }

  /** Every exit belongs to an earlier entry: what scoped acquisition guarantees. */
  ghost predicate Paired(trace: seq<PermitEvent>) {
    forall k :: 0 <= k <= |trace| ==> Count(trace[..k], Exit) <= Count(trace[..k], Enter)
  }

  /** The free permits a trace leaves are the pool size less the entries not yet exited. */
  lemma {:induction false} FreeCount(capacity: nat, trace: seq<PermitEvent>)
    requires PermitsAfter(capacity, trace).Some?
    ensures PermitsAfter(capacity, trace).value == capacity - (Count(trace, Enter) - Count(trace, Exit))
  {
    if trace != [] {
      FreeCount(capacity, trace[..|trace| - 1]);
    }
  }

  /**
   * Along any trace the semaphore allows, the forwards in flight never exceed the pool size,
   * and the free permits are exactly what they left; with every exit paired to an entry, the
   * free permits never exceed the pool size either (no permit is given back twice).
   */
  lemma {:induction false} InFlightBounded(capacity: nat, trace: seq<PermitEvent>)
    requires Paired(trace) && PermitsAfter(capacity, trace).Some?
    ensures Count(trace, Enter) - Count(trace, Exit) <= capacity
    ensures PermitsAfter(capacity, trace).value == capacity - (Count(trace, Enter) - Count(trace, Exit))
    ensures PermitsAfter(capacity, trace).value <= capacity
  {
    if trace != [] {
      var init := trace[..|trace| - 1];
      assert forall k :: 0 <= k <= |init| ==> init[..k] == trace[..k];
      assert trace[..|trace|] == trace;
      InFlightBounded(capacity, init);
    }
  }

  /** Once every forward that entered has left, the pool is full again. */
  lemma AllExitedRestoresPool(capacity: nat, trace: seq<PermitEvent>)
    requires Paired(trace) && PermitsAfter(capacity, trace).Some?
    requires Count(trace, Enter) == Count(trace, Exit)
    ensures PermitsAfter(capacity, trace) == Some(capacity)
  {
    InFlightBounded(capacity, trace);
  }
}
