/** Wall-clock arithmetic for the scheduler.

    An instant is a whole number of minutes since an epoch that falls on a
    Monday at 00:00; a date is a whole number of days since the same epoch.
    Dafny's `/` and `%` round toward negative infinity for a positive divisor,
    so instants before the epoch get the right day, weekday and hour too. */
module Clock {

  const MinutesPerHour := 60
  const MinutesPerDay := 1440
  const MinutesPerWeek := 7 * 1440

  /** The start of the working day and the hour from which email rolls over. */
  const BusinessStartHour := 9

  /** The date on which an instant falls. */
  function DayOf(t: int): int
  {
    t / MinutesPerDay
  }

  /** Day of the week of a date, Monday = 0 ... Sunday = 6 (Python's `weekday()`). */
  function DayWeekday(d: int): (w: int)
    ensures 0 <= w < 7
  {
    d % 7
  }

  function Weekday(t: int): (w: int)
    ensures 0 <= w < 7
  {
    DayWeekday(DayOf(t))
  }

  predicate IsWeekdayDate(d: int)
  {
    DayWeekday(d) < 5
  }

  function MinuteOfDay(t: int): (m: int)
    ensures 0 <= m < MinutesPerDay
  {
    t % MinutesPerDay
  }

  function Hour(t: int): (h: int)
    ensures 0 <= h < 24
  {
    MinuteOfDay(t) / MinutesPerHour
  }

  /** Minutes past the hour. */
  function Minute(t: int): (m: int)
    ensures 0 <= m < 60
  {
    MinuteOfDay(t) % MinutesPerHour
  }

  /** `datetime.combine(d, time(h, m))`. */
  function At(d: int, h: int, m: int): int
  {
    d * MinutesPerDay + h * MinutesPerHour + m
  }

  /** An instant built from a date and a time of day has that date, hour and minute. */
  lemma AtParts(d: int, h: int, m: int)
    requires 0 <= h < 24 && 0 <= m < 60
    ensures DayOf(At(d, h, m)) == d
    ensures MinuteOfDay(At(d, h, m)) == h * 60 + m
    ensures Hour(At(d, h, m)) == h
    ensures Minute(At(d, h, m)) == m
  {
    var t := At(d, h, m);
    assert 0 <= h * 60 + m < MinutesPerDay;
    assert t == d * MinutesPerDay + (h * 60 + m);
  }

  /** An instant is the start of its day plus its minute of the day. */
  lemma InstantParts(t: int)
    ensures t == DayOf(t) * MinutesPerDay + MinuteOfDay(t)
    ensures MinuteOfDay(t) == Hour(t) * 60 + Minute(t)
    ensures t == At(DayOf(t), Hour(t), Minute(t))
  {
  }

  /** Adding whole days moves the date and keeps the weekday cycle. */
  lemma AddDays(t: int, n: int)
    ensures DayOf(t + n * MinutesPerDay) == DayOf(t) + n
    ensures MinuteOfDay(t + n * MinutesPerDay) == MinuteOfDay(t)
    ensures Hour(t + n * MinutesPerDay) == Hour(t)
  {
    InstantParts(t);
    var u := t + n * MinutesPerDay;
    assert u == (DayOf(t) + n) * MinutesPerDay + MinuteOfDay(t);
  }

  /** Whole days plus `c` minutes later, the time of day is `c` minutes past
      the starting one, wrapped around midnight. */
  lemma ShiftedTimeOfDay(t: int, n: int, c: int)
    ensures MinuteOfDay(t + n * MinutesPerDay + c) == (MinuteOfDay(t) + c) % MinutesPerDay
  {
    InstantParts(t);
    var x := MinuteOfDay(t) + c;
    var q, r := x / MinutesPerDay, x % MinutesPerDay;
    assert x == q * MinutesPerDay + r;
    assert t + n * MinutesPerDay + c == MinutesPerDay * (DayOf(t) + n + q) + r;
  }

  /** Moving forward within a day keeps the date and does not lower the hour. */
  lemma ShiftWithinDay(t: int, s: int)
    requires s >= 0 && MinuteOfDay(t) + s < MinutesPerDay
    ensures DayOf(t + s) == DayOf(t)
    ensures MinuteOfDay(t + s) == MinuteOfDay(t) + s
    ensures Hour(t + s) >= Hour(t)
  {
    InstantParts(t);
    assert t + s == DayOf(t) * MinutesPerDay + (MinuteOfDay(t) + s);
  }

  /** Instants on an earlier date come earlier. */
  lemma EarlierDayEarlierInstant(t: int, u: int)
    requires DayOf(t) < DayOf(u)
    ensures t < u
  {
    InstantParts(t);
    InstantParts(u);
  }

  /** The date of an instant never decreases as the instant grows. */
  lemma DayOfIsMonotone(t: int, u: int)
    requires t <= u
    ensures DayOf(t) <= DayOf(u)
  {
    InstantParts(t);
    InstantParts(u);
  }

  /** `(last - first).days`: whole days from one instant to another, rounded down. */
  function DaysBetween(first: int, last: int): int
  {
    (last - first) / MinutesPerDay
  }

  /** The first weekday after date `d`. */
  function NextWeekday(d: int): (r: int)
    ensures d < r <= d + 3
    ensures IsWeekdayDate(r)
  {
    if IsWeekdayDate(d + 1) then d + 1
    else if IsWeekdayDate(d + 2) then d + 2
    else d + 3
  }

  /** No weekday lies strictly between a date and `NextWeekday` of it. */
  lemma NextWeekdayIsFirst(d: int, e: int)
    requires d < e < NextWeekday(d)
    ensures !IsWeekdayDate(e)
  {
  }

  /** From a weekend date, `d + 7 - weekday` is the following Monday, which is
      the first weekday after it. */
  lemma WeekendJumpIsNextWeekday(d: int)
    requires !IsWeekdayDate(d)
    ensures d + 7 - DayWeekday(d) == NextWeekday(d)
    ensures DayWeekday(d + 7 - DayWeekday(d)) == 0
  {
  }

  /** The number of weekdays among the `len` dates from `d` on. */
  function WeekdaysIn(d: int, len: int): (n: nat)
    ensures n <= Max0(len)
    decreases len
  {
    if len <= 0 then 0
    else (if IsWeekdayDate(d) then 1 else 0) + WeekdaysIn(d + 1, len - 1)
  }

  function Max0(x: int): nat
  {
    if x >= 0 then x else 0
  }

  /** The distance of a date from the next weekday, for termination. */
  function WeekendRank(d: int): nat
  {
    if IsWeekdayDate(d) then 0 else 7 - DayWeekday(d)
  }

  /** The `n`-th weekday (counting from 0) among the dates from `d` on. */
  function NthWeekdayFrom(d: int, n: nat): (e: int)
    ensures e >= d && IsWeekdayDate(e)
    decreases n, WeekendRank(d)
  {
    if !IsWeekdayDate(d) then NthWeekdayFrom(d + 1, n)
    else if n == 0 then d
    else NthWeekdayFrom(d + 1, n - 1)
  }

  /** A weekday `len` dates after `d` is the weekday numbered by the count of
      weekdays before it. */
  lemma {:induction false} NthWeekdayCountsWeekdays(d: int, len: nat)
    requires IsWeekdayDate(d + len)
    ensures NthWeekdayFrom(d, WeekdaysIn(d, len)) == d + len
    decreases len
  {
    if len > 0 {
      NthWeekdayCountsWeekdays(d + 1, len - 1);
    }
  }

  /** The `n`-th weekday falls among the first `len` dates exactly when there
      are more than `n` weekdays among them. */
  lemma {:induction false} NthWeekdayWithin(d: int, n: nat, len: int)
    ensures NthWeekdayFrom(d, n) < d + len <==> n < WeekdaysIn(d, len)
    decreases Max0(len)
  {
    if len > 0 {
      if IsWeekdayDate(d) && n > 0 {
        NthWeekdayWithin(d + 1, n - 1, len - 1);
      } else if !IsWeekdayDate(d) {
        NthWeekdayWithin(d + 1, n, len - 1);
      }
    }
  }

  /** Later weekday numbers name later dates. */
  lemma {:induction false} NthWeekdayIsIncreasing(d: int, n: nat, m: nat)
    requires n < m
    ensures NthWeekdayFrom(d, n) < NthWeekdayFrom(d, m)
    decreases n, WeekendRank(d)
  {
    if !IsWeekdayDate(d) {
      NthWeekdayIsIncreasing(d + 1, n, m);
    } else if n > 0 {
      NthWeekdayIsIncreasing(d + 1, n - 1, m - 1);
    }
  }

  /** Counting weekdays over more dates never gives fewer. */
  lemma {:induction false} WeekdaysInIsMonotone(d: int, len: int, len': int)
    requires len <= len'
    ensures WeekdaysIn(d, len) <= WeekdaysIn(d, len')
    decreases Max0(len')
  {
    if len' > 0 {
      WeekdaysInIsMonotone(d + 1, len - 1, len' - 1);
    }
  }

  /** Counting one more date adds one when that date is a weekday. */
  lemma {:induction false} WeekdaysInSnoc(d: int, len: nat)
    ensures WeekdaysIn(d, len + 1) == WeekdaysIn(d, len) + (if IsWeekdayDate(d + len) then 1 else 0)
    decreases len
  {
    if len > 0 {
      WeekdaysInSnoc(d + 1, len - 1);
    }
  }
}
