/** Wall-clock time as integer milliseconds on the device's local timeline
    (the value `Date.prototype.getTime` would give after the local offset is
    applied). Day 0 began at the epoch, a Thursday. */
module Time {

  const DayMs: int := 24 * 60 * 60 * 1000

  /** The number of the day `t` falls in; Dafny's `/` floors, so this holds before the epoch too. */
  function DayNumber(t: int): int { t / DayMs }

  /** `setHours(0, 0, 0, 0)`: the start of the day `t` falls in. */
  function Midnight(t: int): (m: int)
    ensures m <= t < m + DayMs
    ensures m % DayMs == 0
  {
    DayNumber(t) * DayMs
  }

  /** `getDay()`: 0 for Sunday up to 6 for Saturday. */
  function Weekday(t: int): (d: int)
    ensures 0 <= d < 7
  {
    (DayNumber(t) + 4) % 7
  }

  lemma ShiftDays(t: int, k: int)
    ensures DayNumber(t + k * DayMs) == DayNumber(t) + k
  {
  }

  /** `now.setDate(now.getDate() - now.getDay())` followed by
      `setHours(0, 0, 0, 0)`: the start of the current Sunday-based week. */
  function WeekStart(now: int): (w: int)
    ensures w % DayMs == 0 && Weekday(w) == 0
    ensures w <= now < w + 7 * DayMs
  {
    var back := now - Weekday(now) * DayMs;
    ShiftDays(now, -Weekday(now));
    assert DayNumber(Midnight(back)) == DayNumber(back);
    Midnight(back)
  }

  /** No Sunday midnight lies after the week start and at or before `now`:
      the week starts at the MOST RECENT Sunday midnight. */
  lemma WeekStartIsLatestSunday(now: int, m: int)
    requires m % DayMs == 0 && Weekday(m) == 0 && m <= now
    ensures m <= WeekStart(now)
  {
  }

  /** `d.setDate(d.getDate() - 3)` on the current time: the same time of day three days earlier. */
  function ThreeDaysBefore(now: int): (t: int)
    ensures DayNumber(t) == DayNumber(now) - 3
    ensures t - Midnight(t) == now - Midnight(now)
  {
    ShiftDays(now, -3);
    now - 3 * DayMs
  }
}
