/** Calendar-day arithmetic on integer seconds since the epoch, in UTC: what
    `moment().startOf("day")` and `moment.duration(now.diff(last)).asDays()` compute. */
module DayClock {

  const SecondsPerDay: int := 86400

  /** JavaScript's Date holds at most 8.64e15 milliseconds either side of the epoch, so
      `moment.unix(t)` is a valid moment only for these many seconds at most. */
  const DateLimitSeconds: int := 8_640_000_000_000

  /** `moment.unix(t)` is a valid moment. */
  predicate IsDateSeconds(t: int) {
    -DateLimitSeconds <= t <= DateLimitSeconds
  }

  predicate IsDayStart(t: int) {
    t % SecondsPerDay == 0
  }

  /** The first second of the day that `t` falls in. */
  function StartOfDay(t: int): (d: int)
    ensures IsDayStart(d) && d <= t < d + SecondsPerDay
  {
    t - t % SecondsPerDay
  }

  /** Truncating twice is truncating once, and a day start is its own truncation. */
  lemma StartOfDayOfDayStart(d: int)
    requires IsDayStart(d)
    ensures StartOfDay(d) == d
  {
  }

  /** Two instants lie on the same day exactly when their truncations agree. */
  lemma StartOfDayUnique(d: int, t: int)
    requires IsDayStart(d) && d <= t < d + SecondsPerDay
    ensures StartOfDay(t) == d
  {
  }

  /** A day start at or before an instant is at or before that instant's day start. */
  lemma {:induction false} DayStartBeforeStartOfDay(d: int, t: int)
    requires IsDayStart(d) && d <= t
    ensures d <= StartOfDay(t)
  {
    if StartOfDay(t) < d {
      StartOfDayUnique(d, t);
    }
  }

  /** Truncating a valid moment to its day gives a valid moment. */
  lemma {:induction false} StartOfDayIsDate(t: int)
    requires IsDateSeconds(t)
    ensures IsDateSeconds(StartOfDay(t))
  {
    DayStartBeforeStartOfDay(-DateLimitSeconds, t);
  }

  /** Whole days from the day start `last` to the start of the day of `now`; rounded down
      when `last` is not a day start. */
  function ElapsedDays(now: int, last: int): (days: int)
    ensures days * SecondsPerDay <= StartOfDay(now) - last < (days + 1) * SecondsPerDay
    ensures IsDayStart(last) ==> days * SecondsPerDay == StartOfDay(now) - last
  {
    (StartOfDay(now) - last) / SecondsPerDay
  }

  /** A time truncated on some day reads as zero days old at any instant of that day. */
  lemma SameDayIsZeroDays(stamped: int, now: int)
    requires StartOfDay(stamped) == StartOfDay(now)
    ensures ElapsedDays(now, StartOfDay(stamped)) == 0
  {
    StartOfDayOfDayStart(StartOfDay(stamped));
  }
}
