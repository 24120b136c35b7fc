/** Go's time.Time and time.Duration as plain integers.
    A time is the number of nanoseconds since the Unix epoch (unbounded, so Go's zero
    time, January 1 of year 1, is representable); a duration is a number of nanoseconds. */
module Times {

  const Nanosecond: int := 1
  const Microsecond: int := 1000 * Nanosecond
  const Millisecond: int := 1000 * Microsecond
  const Second: int := 1000 * Millisecond
  const Minute: int := 60 * Second
  const Hour: int := 60 * Minute
  const Day: int := 24 * Hour

  /** time.Time{}: January 1, year 1, 00:00:00 UTC, which is what IsZero tests. */
  const ZeroTime: int := -62135596800 * Second

  /** time.UnixMilli(ms). */
  function UnixMilli(ms: int): int {
    ms * Millisecond
  }

  /** time.Unix(s, 0). */
  function UnixSeconds(s: int): int {
    s * Second
  }

  /** t.UnixNano() / int64(time.Millisecond): Go's integer division truncates
      toward zero, also for times before the epoch. */
  function UnixMillisOf(t: int): (ms: int)
    ensures 0 <= t ==> 0 <= ms * Millisecond <= t < (ms + 1) * Millisecond
    ensures t < 0 ==> (ms - 1) * Millisecond < t <= ms * Millisecond <= 0
  {
    if t >= 0 then t / Millisecond else -((-t) / Millisecond)
  }

  /** Milliseconds survive the round trip through a time. */
  lemma UnixMillisRoundTrip(ms: int)
    ensures UnixMillisOf(UnixMilli(ms)) == ms
  {
    if ms < 0 {
      assert -UnixMilli(ms) == (-ms) * Millisecond;
    }
  }

  /** Time.MarshalJSON fails for years outside [0, 9999]: year 0 starts at
      -62167219200 s and year 10000 at 253402300800 s after the Unix epoch. */
  predicate JsonEncodable(t: int) {
    -62167219200 * Second <= t < 253402300800 * Second
  }
}
