/** Window boundaries (utils.py): `datetime` values as whole microseconds since
    1970-01-01 00:00:00 UTC, a Thursday. Python's `datetime` truncation to a
    date and `weekday()` become integer arithmetic; Dafny's `/` and `%` with a
    positive divisor floor, as Python's do. */
module Clock {

  const Second: int := 1_000_000
  const Day: int := 86_400_000_000

  /** `datetime(t.year, t.month, t.day, 0, 0, 0)`: midnight of the day of `t`. */
  function DayStart(t: int): (s: int)
    ensures s <= t < s + Day
    ensures s % Day == 0
  {
    t - t % Day
  }

  /** `datetime(t.year, t.month, t.day, 23, 59, 59)`: one second before the next
      midnight, so the last second's fractions belong to no such window. */
  function DayEnd(t: int): (e: int)
    ensures DayStart(t) < e < DayStart(t) + Day
    ensures e + Second == DayStart(t) + Day
  {
    DayStart(t) + Day - Second
  }

  /** `t.weekday()`: Monday is 0 and Sunday is 6. */
  function Weekday(t: int): (w: nat)
    ensures w < 7
  {
    (t / Day + 3) % 7
  }

  /** `strftime('%a')` in the C locale: a three-letter name, "Mon" exactly
      on Mondays. */
  function DayName(t: int): (name: string)
    ensures |name| == 3
    ensures name == "Mon" <==> Weekday(t) == 0
  {
    WeekdayNames()[Weekday(t)]
  }

  /** The C-locale abbreviations, Monday first, all distinct. */
  function WeekdayNames(): (names: seq<string>)
    ensures |names| == 7
    ensures forall j, k :: 0 <= j < k < 7 ==> names[j] != names[k]
    ensures forall k :: 0 <= k < 7 ==> |names[k]| == 3
  {
    ["Mon", "Tue", "Wed", "Thu", "Fri", "Sat", "Sun"]
  }

  /** `now - timedelta(days=now.weekday())`, truncated to midnight: the
      midnight of the Monday on or before `now`, no more than six days before
      today's midnight. */
  function WeekStart(now: int): (w: int)
    ensures w == DayStart(now) - Weekday(now) * Day
    ensures w % Day == 0 && Weekday(w) == 0
    ensures w <= DayStart(now) <= now < w + 7 * Day
    ensures DayStart(now) + Day <= w + 7 * Day
  {
    var back: int := -(Weekday(now) as int);
    ShiftDays(now, back);
    ShiftDays(DayStart(now), back);
    DayStart(now - Weekday(now) * Day)
  }

  /** `datetime(now.year, now.month, 1)`, given the day of the month of `now`
      (`now.day`), which the calendar supplies: a midnight on or before
      today's. */
  function MonthStart(now: int, dayOfMonth: int): (m: int)
    requires 1 <= dayOfMonth <= 31
    ensures m % Day == 0
    ensures m <= DayStart(now) <= now
    ensures DayStart(now) - m < 31 * Day
  {
    DayStart(now) - (dayOfMonth - 1) * Day
  }

  /** Moving by whole days moves midnight by the same amount and the weekday
      by the same number of steps. */
  lemma ShiftDays(t: int, k: int)
    ensures DayStart(t + k * Day) == DayStart(t) + k * Day
    ensures Weekday(t + k * Day) == (Weekday(t) + k) % 7
  {
    assert t + k * Day == (t / Day + k) * Day + t % Day;
    assert (t + k * Day) / Day == t / Day + k;
  }

  /** The day `k` days from `t`: its window and its name, by `ShiftDays`. */
  lemma DayOffset(t: int, k: int)
    ensures DayStart(t + k * Day) == DayStart(t) + k * Day
    ensures DayEnd(t + k * Day) == DayStart(t) + (k + 1) * Day - Second
    ensures DayName(t + k * Day) == WeekdayNames()[(Weekday(t) + k) % 7]
  {
    ShiftDays(t, k);
  }

  /** The fractions of a second after 23:59:59 fall in no day window
      `[DayStart(t), DayEnd(t)]`, although they belong to the day that
      `DayStart` gives them. */
  lemma LastSecondInNoDay(u: int)
    requires u % Day > Day - Second
    ensures DayStart(u) <= u
    ensures forall t :: !(DayStart(t) <= u <= DayEnd(t))
  {
  }

  /** Two instants share a day name exactly when they share a weekday. */
  lemma DayNameIff(t: int, u: int)
    ensures DayName(t) == DayName(u) <==> Weekday(t) == Weekday(u)
  {
    var names := WeekdayNames();
    assert names[Weekday(t)] == DayName(t) && names[Weekday(u)] == DayName(u);
  }

  /** The anchor of `Weekday`: the epoch, 1970-01-01, was a Thursday. */
  lemma EpochIsThursday()
    ensures Weekday(0) == 3 && DayName(0) == "Thu"
    ensures Weekday(4 * Day) == 0 && DayName(4 * Day) == "Mon"
  {
  }
}
