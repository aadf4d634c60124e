/** `checkDateStatus`: whether a campaign's date lies before, after or on the
    current local calendar day. Timestamps are milliseconds since the epoch;
    the host clock and time zone are an explicit `Clock`. */
module DateStatus {
  import opened JsValues

  /** The three constants `PAST`, `UPCOMING` and `LIVE`. */
  datatype Status = Past | Upcoming | Live

  const DayMs: int := 86_400_000
  /** The largest magnitude a JavaScript `Date` can hold, in milliseconds. */
  const MaxTimeMs: int := 8_640_000_000_000_000

  /** What `new Date()` reads: the current instant and the local time zone's
      offset from UTC (daylight saving changes are not modelled). */
  datatype Clock = Clock(nowMs: int, offsetMs: int)

  predicate InTimeRange(t: int) { -MaxTimeMs <= t <= MaxTimeMs }

  /** The time value a `Date` keeps: NaN (an invalid date) outside the range. */
  function TimeClip(x: Number): (r: Number)
    ensures r.Finite? <==> x.Finite? && InTimeRange(x.value)
    ensures r.Finite? ==> r == x
  {
    if x.Finite? && InTimeRange(x.value) then x else NaN
  }

  /** The number of the local calendar day an instant falls on. */
  function LocalDay(t: int, offsetMs: int): int {
    (t + offsetMs) / DayMs
  }

  /** `date.setHours(0, 0, 0, 0)`: local midnight of the same calendar day. */
  function StartOfLocalDay(t: Number, offsetMs: int): (r: Number)
    ensures r.Finite? <==> t.Finite? && InTimeRange(t.value - (t.value + offsetMs) % DayMs)
    ensures r.Finite? ==> t.Finite? && r.value <= t.value < r.value + DayMs
    ensures r.Finite? ==> LocalDay(r.value, offsetMs) == LocalDay(t.value, offsetMs)
    ensures r.Finite? ==> (r.value + offsetMs) % DayMs == 0
  {
    match t
    case NaN => NaN
    case Finite(x) => TimeClip(Finite(x - (x + offsetMs) % DayMs))
  }

  /** The local calendar day of `new Date(x)`, or NaN when that date or its
      midnight is not a valid date. */
  function CalendarDay(x: Number, offsetMs: int): (r: Number)
  {
    if x.Finite? && InTimeRange(x.value) && InTimeRange(x.value - (x.value + offsetMs) % DayMs)
    then Finite(LocalDay(x.value, offsetMs))
    else NaN
  }

  /** How many local calendar days the date lies before today (negative: after
      today), or NaN when the date is not a valid date. */
  function DaysAgo(date2: Value, clock: Clock): (r: Number)
  {
    var today := CalendarDay(Finite(clock.nowMs), clock.offsetMs);
    var day := CalendarDay(ToNumber(date2), clock.offsetMs);
    if today.Finite? && day.Finite? then Finite(today.value - day.value) else NaN
  }

  /** Subtraction of two time values; NaN is contagious. */
  function Minus(a: Number, b: Number): (r: Number)
    ensures r.Finite? <==> a.Finite? && b.Finite?
    ensures r.Finite? ==> r.value + b.value == a.value
  {
    if a.Finite? && b.Finite? then Finite(a.value - b.value) else NaN
  }

  /** `result > 0` and `result < 0`: both false for NaN. */
  predicate Positive(x: Number) { x.Finite? && x.value > 0 }
  predicate Negative(x: Number) { x.Finite? && x.value < 0 }

  /** The difference between today's local midnight and the date's local midnight
      is a whole number of days, with the sign of the difference in calendar days. */
  lemma MidnightDifference(now: int, x: Number, offsetMs: int)
    ensures var result := Minus(StartOfLocalDay(TimeClip(Finite(now)), offsetMs),
                                StartOfLocalDay(TimeClip(x), offsetMs));
            var today := CalendarDay(Finite(now), offsetMs);
            var day := CalendarDay(x, offsetMs);
            && (result.Finite? <==> today.Finite? && day.Finite?)
            && (result.Finite? ==> result.value == DayMs * (today.value - day.value))
  {
    var a := now + offsetMs;
    assert a == DayMs * (a / DayMs) + a % DayMs;
    if x.Finite? {
      var b := x.value + offsetMs;
      assert b == DayMs * (b / DayMs) + b % DayMs;
    }
  }

  /** `checkDateStatus(date2)`: PAST when the date's calendar day is before today,
      UPCOMING when after, LIVE on the same day and whenever the date is invalid. */
  function CheckDateStatus(date2: Value, clock: Clock): (s: Status)
    ensures s == Past <==> Positive(DaysAgo(date2, clock))
    ensures s == Upcoming <==> Negative(DaysAgo(date2, clock))
    ensures s == Live <==> DaysAgo(date2, clock).NaN? || DaysAgo(date2, clock).value == 0
  {
    var today := StartOfLocalDay(TimeClip(Finite(clock.nowMs)), clock.offsetMs);
    var day := StartOfLocalDay(TimeClip(ToNumber(date2)), clock.offsetMs);
    var result := Minus(today, day);
    MidnightDifference(clock.nowMs, ToNumber(date2), clock.offsetMs);
    if Positive(result) then Past
    else if Negative(result) then Upcoming
    else Live
  }

  /** Only the local calendar day matters: two dates on the same day get the same status. */
  lemma SameDaySameStatus(a: Value, b: Value, clock: Clock)
    requires CalendarDay(ToNumber(a), clock.offsetMs) == CalendarDay(ToNumber(b), clock.offsetMs)
    ensures CheckDateStatus(a, clock) == CheckDateStatus(b, clock)
  {
  }

  /** Two instants in the same local day, e.g. a date and a later time that day. */
  lemma SameLocalDay(t: int, u: int, clock: Clock)
    requires InTimeRange(t) && InTimeRange(u)
    requires InTimeRange(t - (t + clock.offsetMs) % DayMs)
    requires t - (t + clock.offsetMs) % DayMs <= u < t - (t + clock.offsetMs) % DayMs + DayMs
    ensures CheckDateStatus(Num(t), clock) == CheckDateStatus(Num(u), clock)
  {
    var m := t - (t + clock.offsetMs) % DayMs;
    var a := t + clock.offsetMs;
    assert a == DayMs * (a / DayMs) + a % DayMs;
    var b := u + clock.offsetMs;
    assert b == DayMs * (b / DayMs) + b % DayMs;
    assert u - (u + clock.offsetMs) % DayMs == m;
    assert LocalDay(t, clock.offsetMs) == LocalDay(u, clock.offsetMs);
    assert CalendarDay(ToNumber(Num(t)), clock.offsetMs) == CalendarDay(ToNumber(Num(u)), clock.offsetMs);
    SameDaySameStatus(Num(t), Num(u), clock);
  }

  /** A value that `Number` cannot read (`undefined`, a plain object, a React
      element, a non-numeric string) makes both comparisons false, so the status is LIVE. */
  lemma UnreadableDateIsLive(date2: Value, clock: Clock)
    requires ToNumber(date2).NaN?
    ensures CheckDateStatus(date2, clock) == Live
  {
  }

  /** A number beyond the range of `Date` is an invalid date, hence LIVE. */
  lemma OutOfRangeDateIsLive(ms: int, clock: Clock)
    requires !InTimeRange(ms)
    ensures CheckDateStatus(Num(ms), clock) == Live
  {
  }
}
