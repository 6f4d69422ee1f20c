/**
 * The two gateways of requi.py: check_character_status (lines 99-123) and
 * send_notification (lines 126-157). Each consults its own breaker, makes
 * its call, and then either clears the failure count or records a failure.
 * The HTTP exchange itself is an input: what the status provider answered,
 * and whether the notification service accepted the message.
 */
module Gateways {
  import opened Wrappers
  import Config
  import opened Breaker

  /** A decoded JSON document, as far as the monitor looks into it. */
  datatype Json =
    | Null
    | Str(text: string)
    | Object(fields: map<string, Json>)
    | Other   // numbers, booleans and arrays

  /** What one status request ends in, retries included. */
  datatype StatusReply =
    | Transport      // connection error, timeout, or a non-2xx status raised by raise_for_status
    | Malformed      // a 2xx answer whose body is not JSON: response.json() raises
    | Body(json: Json)

  /** data.get('status') == 'Online' for a JSON object. */
  predicate IsOnline(j: Json)
  {
    j.Object? && "status" in j.fields && j.fields["status"] == Str("Online")
  }

  /**
   * check_character_status at the breaker level: the status breaker after
   * the call and the returned data, where None stands for Python's None.
   * `gateAt` is the clock reading of the open-check, `doneAt` that of
   * record_failure after the request.
   */
  function StatusLookup(s: BreakerState, gateAt: int, doneAt: int, reply: StatusReply): (r: (BreakerState, Option<Json>))
    ensures Check(s, gateAt).1 ==> r == (s, None)
    ensures !Check(s, gateAt).1 && reply.Transport? ==> r == (Fail(Check(s, gateAt).0, doneAt), None)
    ensures !Check(s, gateAt).1 && reply.Malformed? ==> r.1 == None && r.0 == Fail(Succeed(Check(s, gateAt).0), doneAt)
    ensures !Check(s, gateAt).1 && reply.Body? ==> r.0 == Succeed(Check(s, gateAt).0)
    ensures r.1.Some? <==> !Check(s, gateAt).1 && reply.Body? && reply.json != Null
    ensures r.1.Some? ==> r.1.value == reply.json
    ensures !r.0.isOpen ==> !s.isOpen || !Check(s, gateAt).1
  {
    var (checked, skip) := Check(s, gateAt);
    if skip then (checked, None)
    else
      match reply
      case Transport => (Fail(checked, doneAt), None)
      case Malformed => (Fail(Succeed(checked), doneAt), None)
      case Body(j) => (Succeed(checked), if j.Null? then None else Some(j))
  }

  /**
   * send_notification at the breaker level: the notification breaker after
   * the call and whether the message went out.
   */
  function Notify(s: BreakerState, gateAt: int, doneAt: int, delivered: bool): (r: (BreakerState, bool))
    ensures r.1 <==> !Check(s, gateAt).1 && delivered
    ensures Check(s, gateAt).1 ==> r.0 == s
    ensures r.1 ==> r.0 == Succeed(Check(s, gateAt).0) && !r.0.isOpen
    ensures !Check(s, gateAt).1 && !delivered ==> r.0 == Fail(Check(s, gateAt).0, doneAt)
  {
    var (checked, skip) := Check(s, gateAt);
    if skip then (checked, false)
    else if delivered then (Succeed(checked), true)
    else (Fail(checked, doneAt), false)
  }

  /** Both gateways keep their breaker sound. */
  lemma GatewaysKeepSound(s: BreakerState, gateAt: int, doneAt: int, reply: StatusReply, delivered: bool)
    requires Sound(s)
    ensures Sound(StatusLookup(s, gateAt, doneAt, reply).0)
    ensures Sound(Notify(s, gateAt, doneAt, delivered).0)
  {
  }

  /**
   * Apart from a malformed body, the status gateway moves its breaker
   * exactly as the notification gateway does, with success meaning a 2xx
   * answer; the lemmas below about repeated calls hold for both services.
   */
  lemma LookupMovesBreakerLikeNotify(s: BreakerState, gateAt: int, doneAt: int, reply: StatusReply)
    requires !reply.Malformed?
    ensures StatusLookup(s, gateAt, doneAt, reply).0 == Notify(s, gateAt, doneAt, reply.Body?).0
  {
  }

  /** One gateway call: the two clock readings and whether the service would succeed. */
  datatype Attempt = Attempt(gateAt: int, doneAt: int, delivered: bool)

  /** A run of notification calls in order: the final breaker and each call's result. */
  function Replay(s: BreakerState, attempts: seq<Attempt>): (r: (BreakerState, seq<bool>))
    ensures |r.1| == |attempts|
    ensures r.0.threshold == s.threshold && r.0.timeout == s.timeout
    decreases |attempts|
  {
    if |attempts| == 0 then (s, [])
    else
      var (s1, sent) := Notify(s, attempts[0].gateAt, attempts[0].doneAt, attempts[0].delivered);
      var (s2, rest) := Replay(s1, attempts[1..]);
      (s2, [sent] + rest)
  }

  /** Replaying two runs back to back is replaying the first, then the second from where it left off. */
  lemma {:induction false} ReplayAppend(s: BreakerState, a: seq<Attempt>, b: seq<Attempt>)
    ensures Replay(s, a + b).0 == Replay(Replay(s, a).0, b).0
    ensures Replay(s, a + b).1 == Replay(s, a).1 + Replay(Replay(s, a).0, b).1
    decreases |a|
  {
    if |a| > 0 {
      assert (a + b)[1..] == a[1..] + b;
      var s1 := Notify(s, a[0].gateAt, a[0].doneAt, a[0].delivered).0;
      ReplayAppend(s1, a[1..], b);
    } else {
      assert a + b == b;
    }
  }

  /**
   * Failed calls on a closed breaker each add one to the count and stamp
   * the failure time; the breaker opens on the call that reaches the
   * threshold, and not before.
   */
  lemma {:induction false} FailuresTrip(s: BreakerState, attempts: seq<Attempt>)
    requires !s.isOpen && s.failureCount + |attempts| <= s.threshold
    requires forall i :: 0 <= i < |attempts| ==> !attempts[i].delivered
    ensures Replay(s, attempts).0.failureCount == s.failureCount + |attempts|
    ensures Replay(s, attempts).0.isOpen <==> |attempts| > 0 && s.failureCount + |attempts| == s.threshold
    ensures |attempts| > 0 ==> Replay(s, attempts).0.lastFailureTime == Some(attempts[|attempts| - 1].doneAt)
    ensures forall i :: 0 <= i < |attempts| ==> !Replay(s, attempts).1[i]
    decreases |attempts|
  {
    if |attempts| > 0 {
      var s1 := Notify(s, attempts[0].gateAt, attempts[0].doneAt, false).0;
      assert s1 == Fail(s, attempts[0].doneAt);
      if |attempts| > 1 {
        FailuresTrip(s1, attempts[1..]);
        assert attempts[1..][|attempts| - 2] == attempts[|attempts| - 1];
      }
    }
  }

  /**
   * While the timeout has not run out since the last failure, an open
   * breaker turns every call away: nothing is sent, nothing is counted and
   * the breaker does not change.
   */
  lemma {:induction false} OpenBreakerSkips(s: BreakerState, attempts: seq<Attempt>)
    requires s.isOpen && s.lastFailureTime.Some?
    requires forall i :: 0 <= i < |attempts| ==> attempts[i].gateAt - s.lastFailureTime.value <= s.timeout * Config.Micros
    ensures Replay(s, attempts).0 == s
    ensures forall i :: 0 <= i < |attempts| ==> !Replay(s, attempts).1[i]
    decreases |attempts|
  {
    if |attempts| > 0 {
      assert Notify(s, attempts[0].gateAt, attempts[0].doneAt, attempts[0].delivered) == (s, false);
      OpenBreakerSkips(s, attempts[1..]);
    }
  }

  /**
   * Threshold consecutive failures on a fresh or just-reset breaker open
   * it, and every later call made within the timeout of the last failure is
   * skipped without reaching the service.
   */
  lemma TrippedBreakerSkipsUntilTimeout(s: BreakerState, failures: seq<Attempt>, later: seq<Attempt>)
    requires !s.isOpen && s.failureCount == 0
    requires s.threshold >= 1 && |failures| == s.threshold
    requires forall i :: 0 <= i < |failures| ==> !failures[i].delivered
    requires forall i :: 0 <= i < |later| ==> later[i].gateAt - failures[|failures| - 1].doneAt <= s.timeout * Config.Micros
    ensures Replay(s, failures).0.isOpen
    ensures Replay(s, failures + later).0 == Replay(s, failures).0
    ensures forall i :: 0 <= i < |failures| + |later| ==> !Replay(s, failures + later).1[i]
  {
    FailuresTrip(s, failures);
    var tripped := Replay(s, failures).0;
    OpenBreakerSkips(tripped, later);
    ReplayAppend(s, failures, later);
  }

  /** One status lookup: the two clock readings and the reply. */
  datatype Lookup = Lookup(gateAt: int, doneAt: int, reply: StatusReply)

  /** The status breaker after a run of lookups in order. */
  function LookupReplay(s: BreakerState, lookups: seq<Lookup>): BreakerState
    decreases |lookups|
  {
    if |lookups| == 0 then s
    else LookupReplay(StatusLookup(s, lookups[0].gateAt, lookups[0].doneAt, lookups[0].reply).0, lookups[1..])
  }

  /**
   * A 2xx answer with an unreadable body clears the count before the
   * failure is recorded, so after any run of them, whatever count the
   * closed breaker started from, the count is one and a breaker with a
   * threshold above one is still closed.
   */
  lemma {:induction false} MalformedBodiesNeverTrip(s: BreakerState, lookups: seq<Lookup>)
    requires !s.isOpen && s.threshold >= 2
    requires forall i :: 0 <= i < |lookups| ==> lookups[i].reply.Malformed?
    ensures !LookupReplay(s, lookups).isOpen
    ensures |lookups| > 0 ==> LookupReplay(s, lookups).failureCount == 1
    decreases |lookups|
  {
    if |lookups| > 0 {
      var s1 := StatusLookup(s, lookups[0].gateAt, lookups[0].doneAt, lookups[0].reply).0;
      assert s1.failureCount == 1 && !s1.isOpen && s1.threshold == s.threshold;
      MalformedBodiesNeverTrip(s1, lookups[1..]);
    }
  }

  /** The notification-shaped call a status lookup without a malformed body amounts to. */
  function AsAttempts(lookups: seq<Lookup>): (r: seq<Attempt>)
    ensures |r| == |lookups|
    ensures forall i :: 0 <= i < |lookups| ==>
              r[i] == Attempt(lookups[i].gateAt, lookups[i].doneAt, lookups[i].reply.Body?)
  {
    seq(|lookups|, i requires 0 <= i < |lookups| => Attempt(lookups[i].gateAt, lookups[i].doneAt, lookups[i].reply.Body?))
  }

  /**
   * A run of status lookups none of which has a malformed body moves the
   * status breaker exactly as the matching run of notification calls moves
   * theirs, so FailuresTrip, OpenBreakerSkips and
   * TrippedBreakerSkipsUntilTimeout hold for the status breaker as well.
   */
  lemma {:induction false} LookupReplayIsReplay(s: BreakerState, lookups: seq<Lookup>)
    requires forall i :: 0 <= i < |lookups| ==> !lookups[i].reply.Malformed?
    ensures LookupReplay(s, lookups) == Replay(s, AsAttempts(lookups)).0
    decreases |lookups|
  {
    if |lookups| > 0 {
      var l := lookups[0];
      LookupMovesBreakerLikeNotify(s, l.gateAt, l.doneAt, l.reply);
      var s1 := StatusLookup(s, l.gateAt, l.doneAt, l.reply).0;
      assert AsAttempts(lookups)[1..] == AsAttempts(lookups[1..]);
      LookupReplayIsReplay(s1, lookups[1..]);
    }
  }
}
