/**
 * Read and write deadlines against an abstract clock. Instants are integers
 * counted in nanoseconds, the unit of Go's time.Duration; the clock itself is
 * a parameter of every operation that reads it.
 */
module Clock {
  import opened ConnOption

  /** Reduces an integer to the signed 64-bit range, as Go's int64 arithmetic wraps. */
  function Wrap64(x: int): (r: int)
    ensures -0x8000_0000_0000_0000 <= r < 0x8000_0000_0000_0000
    ensures -0x8000_0000_0000_0000 <= x < 0x8000_0000_0000_0000 ==> r == x
    ensures (r - x) % 0x1_0000_0000_0000_0000 == 0
  {
    (x + 0x8000_0000_0000_0000) % 0x1_0000_0000_0000_0000 - 0x8000_0000_0000_0000
  }

  /**
   * time.Duration(t) * time.Second: t seconds as nanoseconds, a product that
   * wraps in int64 once |t| passes 9_223_372_036.
   */
  function Duration(t: int64): (d: int)
    ensures -0x8000_0000_0000_0000 <= d < 0x8000_0000_0000_0000
    ensures (d - t * 1_000_000_000) % 0x1_0000_0000_0000_0000 == 0
  {
    Wrap64(t * 1_000_000_000)
  }

  /** Up to 9_223_372_036 seconds either way the duration is exact. */
  lemma DurationExact(t: int64)
    requires -9_223_372_036 <= t <= 9_223_372_036
    ensures Duration(t) == t * 1_000_000_000
  {
  }

  /** One second more and the product wraps: the duration is negative, so the deadline lies in the past. */
  lemma DurationWraps()
    ensures Duration(9_223_372_037) == -9_223_372_036_709_551_616
    ensures Duration(9_223_372_037) < 0
  {
  }

  /** A transport deadline: none (the zero time.Time) or an instant. */
  datatype Deadline = NoDeadline | At(instant: int)

  /**
   * setReadDeadline/setWriteDeadline: when the configured timeout is positive,
   * the deadline becomes now plus `timeout` seconds (as a wrapping Duration);
   * otherwise it stays as it was.
   */
  function Refreshed(configured: int64, timeout: int64, now: int, current: Deadline): (d: Deadline)
    ensures configured <= 0 ==> d == current
    ensures configured > 0 ==> d.At? && d.instant - now == Duration(timeout)
    ensures configured > 0 && 0 <= timeout <= 9_223_372_036 ==> d.instant >= now
  {
    if configured > 0 then At(now + Duration(timeout)) else current
  }

  /** The helpers never clear a deadline: an argument of 0 sets it to the current instant. */
  lemma ZeroTimeoutDoesNotClear(configured: int64, now: int, current: Deadline)
    requires configured > 0
    ensures Refreshed(configured, 0, now, current) == At(now)
    ensures Refreshed(configured, 0, now, current) != NoDeadline
  {
  }
}
