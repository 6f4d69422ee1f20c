/**
 * Process-start constants of the monitor (requi.py:22-34).
 * Every clock reading is an integer number of microseconds, the resolution
 * of Python's datetime; every duration below is in that unit except the
 * breaker timeout, which the breaker record keeps in seconds.
 */
module Config {
  /** Microseconds per second. */
  const Micros: int := 1_000_000

  /** Failures that open a circuit breaker (CIRCUIT_BREAKER_THRESHOLD). */
  const Threshold: int := 5

  /** Seconds an open breaker waits before it may close (CIRCUIT_BREAKER_TIMEOUT). */
  const TimeoutSeconds: int := 300

  /** Target length of one poll cycle (CHECK_INTERVAL = 10 s). */
  const CheckInterval: int := 10 * Micros

  /** Shortest sleep between cycles (the 0.1 s floor of the pacing formula). */
  const MinSleep: int := Micros / 10

  /** How long a whitelisted name is skipped (timedelta(minutes=30)). */
  const Window: int := 30 * 60 * Micros

  /** A heartbeat is due once more than this has passed since the last one. */
  const HeartbeatPeriod: int := 60 * Micros

  /** The health check runs on every cycle whose number is a multiple of this. */
  const HealthEvery: int := 6

  /** Pause before the loop restarts after an unexpected error. */
  const RestartDelay: int := 5 * Micros

  /** The roster polled every cycle (nomes). */
  const Roster: seq<string> := ["Zahir", "Mancolino", "Mais Do Mesmo", "Cleef", "Geoff", "Radik"]
}
