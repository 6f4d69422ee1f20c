# Character monitor: circuit breakers, whitelist and poll loop

This project models the resilience and polling engine of the RadBR character
tracker (`requi.py`). The monitor polls a fixed roster of character names
through a status service and sends a notification when a character is not
online. It protects itself with three mechanisms:

- two circuit breakers, one for the status service ("Flask API") and one for
  the notification service ("Node API");
- a whitelist that maps each name to the instant until which it is skipped;
- an endless loop that sends heartbeats, runs health checks and paces itself.

The model is imperative where the source is:

- `Breaker.CircuitBreaker` is the mutable breaker record. Its methods change
  its fields in place.
- `Monitor.Monitor` holds the whitelist as a `map` field, together with the
  two breakers. In the source these three are module-level variables.
- The roster pass and `main`'s loop are `while` loops with invariants.

Each method is proved against a value-level function. The functions
`Breaker.Check`, `Breaker.Fail`, `Suppression.Suppress`, `Suppression.Screen`,
`Gateways.StatusLookup`, `Gateways.Notify`, `Monitor.VisitName`,
`Monitor.Sweep`, `Monitor.Cycle` and `Monitor.RunCycles` carry the meaning.
The lemmas beside them state what the source promises across several calls.

Inputs the program would obtain from the outside world are parameters:

- Every clock reading is its own integer parameter, in microseconds. Examples
  are `Visit.screenAt` for the whitelist test and `Visit.statusDoneAt` for
  `record_failure` after the status request.
- The status request's outcome is a `Gateways.StatusReply`: a transport or
  HTTP error, a 2xx answer with an unreadable body, or a decoded JSON body.
- The notification's outcome is a boolean.

Points where the code's behaviour is easy to misread:

- A 404 "character not found" answer from the status service goes through
  `raise_for_status`. It is therefore recorded as a breaker failure, and the
  name is whitelisted (requi.py:109, 119-122).
- `is_circuit_open` returns true when the call must be skipped. This is the
  inverse of an `allow` predicate (requi.py:86).
- An open breaker stays open past its timeout until the next check closes it
  lazily (requi.py:77-81). An open breaker without a recorded failure time is
  never closed (requi.py:78).
- A status answer whose JSON is `null` makes `check_character_status`
  return `None`. The name is then whitelisted like an unreachable one
  (requi.py:118, 212-215).
- A JSON answer that is neither `null` nor an object makes `data.get` raise.
  That error leaves the roster pass, and `main` restarts (requi.py:218,
  236-240). The model's verdict for it is `Crashed`.
- A 2xx answer whose body does not parse first clears the failure count
  (requi.py:116). Then `response.json()` raises, and the failure is recorded
  (requi.py:118-122). So, from a closed breaker with a threshold above one
  (such as the default 5), a run of such answers never opens the breaker
  (`Gateways.MalformedBodiesNeverTrip`). With a threshold of 1, a single such
  answer opens it (requi.py:94).

## Model

| member | source | states |
|---|---|---|
| `Breaker.Check` | requi.py:75-86 | A closed breaker is unchanged and not skipped. An open one is skipped, unchanged, exactly when no failure time is recorded or the timeout has not been exceeded. Otherwise it is closed with its count cleared and not skipped. The failure time is never touched, and the result equals the post-check `is_open`. |
| `Breaker.Fail` | requi.py:89-95 | The count rises by exactly one and the failure time becomes `now`. The breaker is open afterwards iff it was open or the new count reaches the threshold, so it is never closed here. |
| `Breaker.Succeed` | requi.py:116 | The inline success reset clears the count and leaves `is_open` and the failure time alone. |
| `Breaker.TransitionsKeepSound` | requi.py:75-95 | Check, Fail, and a success after a passing check keep the invariant "open only with count at or above the threshold and a failure time". A fresh breaker satisfies it. |
| `Breaker.CircuitBreaker.constructor` | requi.py:40-51 | A new breaker has count 0, no failure time, is closed, and has the default threshold 5 and timeout 300 s unless they are given. |
| `Breaker.CircuitBreaker.IsCircuitOpen` | requi.py:75-86 | The in-place open-check leaves the fields as `Check` says and returns its skip flag. |
| `Breaker.CircuitBreaker.RecordFailure` | requi.py:89-95 | The in-place failure count leaves the fields exactly as `Fail` says. |
| `Suppression.Suppress` | requi.py:54-55 | The name maps to exactly `now` plus 30 minutes, overwriting any earlier expiry. Every other entry is unchanged. |
| `Suppression.Screen` | requi.py:200-207 | A name is skipped iff it has an entry with `now` before its expiry, and then the map is unchanged. Otherwise its entry, if any, is deleted. |
| `Suppression.SuppressThenScreen` | requi.py:54-55 | After whitelisting at `t`, the name is skipped exactly while the clock is before `t` plus the window, and its entry is removed once it is seen expired. |
| `Gateways.StatusLookup` | requi.py:99-123 | If the breaker skips, it returns None with the breaker unchanged. A transport or HTTP error records a failure. A malformed body clears the count and then records a failure. A decoded body clears the count. The data is returned iff the call went through with a non-null JSON body. |
| `Gateways.Notify` | requi.py:126-157 | The message counts as sent iff the breaker lets the call through and the service accepts it. A skip leaves the breaker unchanged. A success clears the count on a closed breaker. A refusal records a failure at the reply time. |
| `Gateways.GatewaysKeepSound` | requi.py:99-157 | Both gateways keep their breaker's invariant. |
| `Gateways.LookupMovesBreakerLikeNotify` | requi.py:99-157 | Except for a malformed body, one status call moves its breaker exactly as one notification call does. |
| `Gateways.LookupReplayIsReplay` | requi.py:99-157 | A run of status lookups with no malformed body moves the status breaker exactly as the matching run of notification calls does. The lemmas about repeated calls therefore hold for both services. |
| `Gateways.Replay` | requi.py:126-157 | Replaying a run of gated calls yields one result per call and keeps the threshold and timeout. |
| `Gateways.FailuresTrip` | requi.py:89-95 | On a closed breaker, each failed call adds exactly one to the count and stamps the failure time, and nothing is sent. The breaker opens on the call that reaches the threshold and not before. |
| `Gateways.OpenBreakerSkips` | requi.py:77-86 | While the timeout has not been exceeded since the last failure, an open breaker turns every call away. Nothing is sent and the breaker is unchanged, so the count and failure time are untouched. |
| `Gateways.TrippedBreakerSkipsUntilTimeout` | requi.py:77-102 | After threshold consecutive failures on a fresh or reset breaker, the breaker is open. Every later call within the timeout of the last failure is skipped without changing it. |
| `Gateways.MalformedBodiesNeverTrip` | requi.py:107-122 | From any closed breaker, whatever its count, a non-empty run of 2xx answers with unreadable bodies leaves the count at exactly one. A breaker whose threshold is above one stays closed. |
| `Monitor.VisitName` | requi.py:199-225 | A name is skipped, with no change at all, iff it is whitelisted and not expired. Otherwise it ends whitelisted, at exactly the add time plus the window, iff the lookup gave None or the notification was sent. An Online status leaves its entry absent. A non-object answer crashes the cycle. Only offline names reach the notification breaker. No other name's entry changes. |
| `Monitor.Sweep` | requi.py:198-225 | A roster pass gives at most one verdict per name, in roster order, starting with the first name's. It stops early only at a crash, which is then the last verdict. |
| `Monitor.SweepAppend` | requi.py:198-225 | Names are visited in roster order: a pass over `a + b` is a pass over `a` followed by a pass over `b` from the world the first left, as long as nothing in `a` crashed. |
| `Monitor.SweepLeavesOthers` | requi.py:198-225 | A pass never changes the whitelist entry of a name outside the roster. |
| `Monitor.SweepKeepsSound` | requi.py:198-225 | A pass keeps both breakers' invariant. |
| `Monitor.SweepNotifiesOnlyOffline` | requi.py:217-225 | A pass in which no name reached `send_notification` leaves the notification breaker unchanged. This holds whatever happened to the status breaker. |
| `Monitor.NotifiedThenSkipped` | requi.py:200-223 | A name that was notified is skipped, with no lookup and no notification, by any later visit before its entry expires. |
| `Monitor.SleepTime` | requi.py:228-229 | The sleep is at least 0.1 s. For a non-negative elapsed time it is at most the 10 s interval. It is exactly what fills the interval unless that would fall below 0.1 s. |
| `Monitor.Cycle` | requi.py:184-232 | One trip round `while True`. Its own contract gives the heartbeat rule (more than 60 s), the health check on every sixth cycle, and the restart reset with a 5 s pause. The rest of its contract is stated in `Monitor.CycleRules`. |
| `Monitor.CycleRules` | requi.py:184-240 | A heartbeat is due iff more than 60 s have passed since the last one. The health check runs iff the new cycle number is a multiple of 6. A crash resets only the cycle count and heartbeat time, and sleeps 5 s. The whitelist and breakers carry over. A completed cycle covers the whole roster and sleeps exactly `SleepTime` of its elapsed time, that is max(0.1 s, 10 s minus the elapsed time). |
| `Monitor.RunCycles` | requi.py:175-240 | A run of `main` gives one report per cycle, restarts included. |
| `Monitor.HealthCheckEverySixth` | requi.py:179-195 | Until the first crash, the health check runs exactly on every sixth cycle since `main` started. |
| `Monitor.Monitor.constructor` | requi.py:34-51 | Start-up state: an empty whitelist and two distinct fresh breakers with the default settings. |
| `Monitor.Monitor.AddToWhitelist` | requi.py:54-55 | The whitelist field becomes `Suppress` of its old value. |
| `Monitor.Monitor.CheckWhitelist` | requi.py:200-207 | The in-place whitelist test returns and leaves exactly what `Screen` gives. |
| `Monitor.Monitor.CheckCharacterStatus` | requi.py:99-123 | Only the status breaker changes, exactly as `StatusLookup` says, and the returned data is the one it gives. A sound breaker stays sound. |
| `Monitor.Monitor.SendNotification` | requi.py:126-157 | Only the notification breaker changes, exactly as `Notify` says, and it returns the send result. A sound breaker stays sound. |
| `Monitor.Monitor.ProcessName` | requi.py:199-225 | One loop turn changes the whitelist and breakers exactly as `VisitName` says and keeps the breakers' invariant. |
| `Monitor.Monitor.ProcessRoster` | requi.py:198-225 | The `for` loop over the roster produces exactly `Sweep`'s state and verdicts. |
| `Monitor.Monitor.PollCycle` | requi.py:184-232 | One trip round the `while True` body produces exactly `Cycle`'s state, statistics and report. |
| `Monitor.Monitor.Run` | requi.py:175-240 | `main` over a finite sequence of cycles, restarting after crashes, produces exactly `RunCycles`'s state and reports. |

## Left out

- Gateways.StatusLookup: a malformed 2xx body is treated as a recorded
  failure. This holds with requests 2.27 or later, where the JSON decoding
  error is a `RequestException`. With an older version the `ValueError` from
  requi.py:118 is not caught at requi.py:119. It reaches requi.py:236 and
  restarts `main`, which would be the `Crashed` path instead.
- Breaker soundness ("open only with a count at or above the threshold and a
  failure time") is an invariant of breakers driven through the gateways
  only. `Monitor.Monitor.Valid` carries it. `ProcessName`, `ProcessRoster`,
  `PollCycle` and `Run` require `Valid()` only so that they can ensure it
  again. No other clause of their contracts depends on it.
- HTTP and JSON decoding are left out. Each request's outcome is an input.
  The monitor's data is only ever tested for `null`, for being an object, and
  for `status == "Online"`, so `Gateways.Json` keeps only those
  distinctions.
- `requests_retry_session` (requi.py:59-72) is left out. It only configures
  the retry and backoff of the `requests`/`urllib3` libraries, whose code is
  not part of this model. A gateway's reply is the outcome after all retries.
- `check_flask_api_health` (requi.py:165-172) is network I/O, and its result
  is only logged. The model records only whether the health check runs in a
  cycle.
- Logging and `send_heartbeat` are left out. The model records whether a
  heartbeat is sent, not the log line.
- `time.sleep` is left out. The model reports the sleep duration and does not
  block.
- Clock resolution: both clocks are integer microseconds. Python's
  `time.time()` is a float, and its rounding is not modelled.
- The `while True` loop never ends. `Monitor.Monitor.Run` models any finite
  number of its cycles.
- The restart after a critical error is a recursive call that grows the
  stack. It is modelled as continuing with fresh statistics and the same
  whitelist and breakers. Stack growth is not modelled.
- The `KeyboardInterrupt` exit (requi.py:234-235) is not modelled. It is an
  external signal, and it ends the run without changing any state.
- `service_name` is kept in the breaker but only appears in log messages.
- app.py, the status service itself, is not part of this model. It scrapes a
  third-party web page.
- Concurrency: the source is single-threaded, and so is the model.
