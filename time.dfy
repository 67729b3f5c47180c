/**
 * Wall-clock values. A timestamp is a naive datetime counted in seconds,
 * a date is a day number; the clock itself is never read by the model,
 * callers pass `now` and `today` in.
 */
module Time {

  /** A naive `datetime.datetime`, in seconds. */
  type Timestamp = int

  /** A `datetime.date`, as a day number. */
  type Date = int

  const SecondsPerDay: int := 86400

  /** `datetime.timedelta(days=30)`, in seconds. */
  const ThirtyDays: int := 30 * SecondsPerDay

  /** `dt.date()`: the day a timestamp falls on (floor division, as the calendar does). */
  function DateOf(t: Timestamp): (d: Date)
    ensures d * SecondsPerDay <= t < (d + 1) * SecondsPerDay
  {
    t / SecondsPerDay
  }

}
