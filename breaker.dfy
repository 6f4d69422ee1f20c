/**
 * The circuit breaker of requi.py:40-95: one record per downstream service,
 * the open-check that also closes an expired breaker, and the failure count.
 * The value-level functions Check, Fail and Succeed give the meaning of each
 * transition; class CircuitBreaker is the mutable record the gateways share,
 * and each of its methods is proved to perform exactly that transition.
 */
module Breaker {
  import opened Wrappers
  import Config

  /** The observable fields of a breaker (service_name aside, which only appears in logs). */
  datatype BreakerState = BreakerState(
    failureCount: nat,
    lastFailureTime: Option<int>,
    isOpen: bool,
    threshold: int,
    timeout: int)

  /** A breaker as the dataclass defaults build it. */
  function Fresh(threshold: int, timeout: int): BreakerState
  {
    BreakerState(0, None, false, threshold, timeout)
  }

  /** More than `timeout` seconds have passed since the recorded failure; never true without one. */
  predicate TimedOut(s: BreakerState, now: int)
  {
    s.lastFailureTime.Some? && now - s.lastFailureTime.value > s.timeout * Config.Micros
  }

  /**
   * is_circuit_open: the new state and whether the caller must skip its call.
   * A closed breaker is left alone; an open one whose timeout has elapsed
   * is closed and its count cleared; any other open breaker says "skip".
   */
  function Check(s: BreakerState, now: int): (r: (BreakerState, bool))
    ensures r.1 == r.0.isOpen
    ensures !s.isOpen ==> r == (s, false)
    ensures r.1 ==> r.0 == s
    ensures s.isOpen ==> (r.1 <==> !TimedOut(s, now))
    ensures s.isOpen && !r.1 ==> r.0 == s.(isOpen := false, failureCount := 0)
    ensures s.isOpen && s.lastFailureTime.None? ==> r.1
    ensures r.0.lastFailureTime == s.lastFailureTime
  {
    if s.isOpen && TimedOut(s, now) then
      (s.(isOpen := false, failureCount := 0), false)
    else
      (s, s.isOpen)
  }

  /**
   * record_failure: one more failure at `now`; the breaker opens once the
   * count reaches the threshold and is never closed here.
   */
  function Fail(s: BreakerState, now: int): (r: BreakerState)
    ensures r.failureCount == s.failureCount + 1
    ensures r.lastFailureTime == Some(now)
    ensures r.isOpen <==> s.isOpen || r.failureCount >= s.threshold
    ensures s.isOpen ==> r.isOpen
    ensures r.threshold == s.threshold && r.timeout == s.timeout
  {
    var count := s.failureCount + 1;
    s.(failureCount := count, lastFailureTime := Some(now), isOpen := s.isOpen || count >= s.threshold)
  }

  /** The gateways' inline reset after a successful call: only the count is cleared. */
  function Succeed(s: BreakerState): (r: BreakerState)
    ensures r.failureCount == 0
    ensures r.isOpen == s.isOpen && r.lastFailureTime == s.lastFailureTime
    ensures r.threshold == s.threshold && r.timeout == s.timeout
  {
    s.(failureCount := 0)
  }

  /**
   * What every breaker driven only through the gateways satisfies: it is open
   * only after a recorded failure has brought the count to the threshold.
   */
  predicate Sound(s: BreakerState)
  {
    s.isOpen ==> s.failureCount >= s.threshold && s.lastFailureTime.Some?
  }

  /** The checks and failures keep a breaker sound; a fresh breaker is sound. */
  lemma TransitionsKeepSound(s: BreakerState, now: int)
    requires Sound(s)
    ensures Sound(Check(s, now).0) && Sound(Fail(s, now))
    ensures !Check(s, now).1 ==> Sound(Succeed(Check(s, now).0))
    ensures Sound(Fresh(s.threshold, s.timeout))
  {
  }

  /** The mutable breaker record shared by the calls to one service. */
  class CircuitBreaker {
    const serviceName: string
    var failureCount: nat
    var lastFailureTime: Option<int>
    var isOpen: bool
    var threshold: int
    var timeout: int

    function State(): BreakerState
      reads this
    {
      BreakerState(failureCount, lastFailureTime, isOpen, threshold, timeout)
    }

    /** CircuitBreaker(service_name), with the dataclass defaults unless given. */
    constructor (serviceName: string, threshold: int := Config.Threshold, timeout: int := Config.TimeoutSeconds)
      ensures this.serviceName == serviceName
      ensures State() == Fresh(threshold, timeout)
    {
      this.serviceName := serviceName;
      failureCount := 0;
      lastFailureTime := None;
      isOpen := false;
      this.threshold := threshold;
      this.timeout := timeout;
    }

    /** is_circuit_open: true means the caller skips its request. */
    method IsCircuitOpen(now: int) returns (skip: bool)
      modifies this
      ensures (State(), skip) == Check(old(State()), now)
    {
      if isOpen {
        if lastFailureTime.Some? && now - lastFailureTime.value > timeout * Config.Micros {
          isOpen := false;
          failureCount := 0;
        }
      }
      skip := isOpen;
    }

    /** record_failure, with `now` the clock reading it takes. */
    method RecordFailure(now: int)
      modifies this
      ensures State() == Fail(old(State()), now)
    {
      failureCount := failureCount + 1;
      lastFailureTime := Some(now);
      if failureCount >= threshold {
        isOpen := true;
      }
    }
  }
}
