/** `schedule_email_campaign`: emails spread over business days, a daily quota
    per day, staggered by a fixed gap plus an injected jitter. */
module EmailSchedule {

  import opened Base
  import opened Clock
  import opened Scheduler

  /** The date in an email placement's batch id. */
  function EmailDay(a: ScheduledAction): int
  {
    if a.batch.Some? && a.batch.value.EmailBatch? then a.batch.value.day else 0
  }

  /** The fixed fields of an email placement for action `id`: an hour-long
      slot on a weekday, in an email batch. */
  predicate IsEmailPlacement(a: ScheduledAction, id: int)
  {
    a.actionId == id && a.actionType == "email" && a.end == a.start + 60
    && Weekday(a.start) < 5 && a.batch.Some? && a.batch.value.EmailBatch?
  }

  /** Email priority: `max(1, 5 - i // emails_per_day)`. */
  function EmailPriority(i: int, emailsPerDay: int): int
    requires emailsPerDay != 0
  {
    Max(1, 5 - FloorDiv(i, emailsPerDay))
  }

  /** With a positive daily cap the priority lies in 1..5, starts at 5 and never
      increases down the list. */
  lemma EmailPriorityBounds(i: nat, j: nat, emailsPerDay: int)
    requires emailsPerDay > 0 && i <= j
    ensures 1 <= EmailPriority(i, emailsPerDay) <= 5
    ensures EmailPriority(0, emailsPerDay) == 5
    ensures EmailPriority(j, emailsPerDay) <= EmailPriority(i, emailsPerDay)
  {
    DivIsMonotone(i, j, emailsPerDay);
  }

  /** Where the weekend skip of `schedule_email_campaign` leaves the cursor: a
      weekday instant stays, a Saturday or Sunday one moves to 09:00 on the
      next weekday. */
  function WeekendSkipped(t: int): (u: int)
    ensures Weekday(u) < 5
    ensures Weekday(t) < 5 ==> u == t
    ensures Weekday(t) >= 5 ==> DayOf(u) == NextWeekday(DayOf(t)) && Hour(u) == 9 && Minute(u) == 0
  {
    AtParts(NextWeekday(DayOf(t)), 9, 0);
    if Weekday(t) < 5 then t else At(NextWeekday(DayOf(t)), 9, 0)
  }

  /** The weekend skip of `schedule_email_campaign`: while the cursor is on a
      Saturday or Sunday, move it to 09:00 the next day. */
  method SkipWeekend(t: int) returns (u: int)
    ensures u == WeekendSkipped(t)
  {
    u := t;
    while Weekday(u) >= 5
      invariant Weekday(t) < 5 ==> u == t
      invariant Weekday(t) >= 5 ==> DayOf(t) <= DayOf(u) <= NextWeekday(DayOf(t))
      invariant u != t ==> u == At(DayOf(u), 9, 0)
      invariant Weekday(t) >= 5 && Weekday(u) < 5 ==> DayOf(u) == NextWeekday(DayOf(t))
      decreases if Weekday(u) >= 5 then 7 - Weekday(u) else 0
    {
      AtParts(DayOf(u) + 1, 9, 0);
      u := At(DayOf(u) + 1, 9, 0);
    }
  }

  /** The cursor of the email loop: the send time of the next email, the date
      in its batch id and the count towards that date's cap. */
  datatype EmailState = EmailState(time: int, date: int, daily: int)

  /** The advance after placing an email, with `daily` the count including
      it: past the daily cap, on to the next date at 09:00 plus `rollover`
      minutes with the count reset; otherwise `stagger + jitter` minutes
      later, rolling to the next date the same way, count kept, once the
      time reaches 18:00. */
  function EmailAdvance(
    cur: int, curDate: int, daily: int, emailsPerDay: int, staggerMinutes: int,
    jitter: int, rollover: int): (s: EmailState)
    requires 1 <= daily <= Max(emailsPerDay, 1)
    requires 0 <= jitter <= 10 && 0 <= rollover <= 30
    ensures 0 <= s.daily < Max(emailsPerDay, 1)
    ensures s.date == curDate || s.date == curDate + 1
    ensures s.date == curDate ==> s.daily == daily && s.time == cur + staggerMinutes + jitter
    ensures s.date == curDate + 1 ==> s.time == At(s.date, 9, rollover) && Hour(s.time) == 9
    ensures daily >= emailsPerDay ==> s.date == curDate + 1 && s.daily == 0
    ensures Hour(s.time) < 18
    ensures 0 <= staggerMinutes <= 350 && Hour(cur) < 18 ==> Min(9, Hour(cur)) <= Hour(s.time)
  {
    AtParts(curDate + 1, 9, rollover);
    var t := cur + staggerMinutes + jitter;
    assert 0 <= staggerMinutes <= 350 && Hour(cur) < 18 ==> Hour(cur) <= Hour(t) by {
      if 0 <= staggerMinutes <= 350 && Hour(cur) < 18 {
        ShiftWithinDay(cur, staggerMinutes + jitter);
      }
    }
    if daily >= emailsPerDay then EmailState(At(curDate + 1, 9, rollover), curDate + 1, 0)
    else if Hour(t) >= 18 then EmailState(At(curDate + 1, 9, rollover), curDate + 1, daily)
    else EmailState(t, curDate, daily)
  }

  /** What the email loop needs at position `i` with cursor `s`: one jitter
      and one roll-over draw per id in their ranges, a non-zero cap whenever
      it places anything, and a count below the cap. */
  predicate EmailInputs(
    ids: seq<int>, w: ScheduleWindow, emailsPerDay: int, jitter: seq<int>, rollover: seq<int>,
    i: nat, s: EmailState)
  {
    i <= |ids| && |jitter| == |ids| && |rollover| == |ids|
    && (forall k :: 0 <= k < |ids| ==> 0 <= jitter[k] <= 10 && 0 <= rollover[k] <= 30)
    && (emailsPerDay != 0 || i == |ids| || s.date > DayOf(w.end))
    && 0 <= s.daily < Max(emailsPerDay, 1)
  }

  /** The placements the email loop makes from position `i` on, with cursor
      `s`: it stops at the end of the ids or once the batch date is past the
      window's last date. */
  function EmailsFrom(
    ids: seq<int>, w: ScheduleWindow, emailsPerDay: int, staggerMinutes: int,
    jitter: seq<int>, rollover: seq<int>, i: nat, s: EmailState): seq<ScheduledAction>
    requires EmailInputs(ids, w, emailsPerDay, jitter, rollover, i, s)
    decreases |ids| - i
  {
    if i == |ids| || s.date > DayOf(w.end) then []
    else
      var t := WeekendSkipped(s.time);
      var next := EmailAdvance(t, s.date, s.daily + 1, emailsPerDay, staggerMinutes, jitter[i], rollover[i]);
      [ScheduledAction(ids[i], "email", t, t + 60, EmailPriority(i, emailsPerDay), Some(EmailBatch(s.date)))]
        + EmailsFrom(ids, w, emailsPerDay, staggerMinutes, jitter, rollover, i + 1, next)
  }

  /** The inputs `schedule_email_campaign` accepts: `_next_business_hour`
      terminates, and `i // emails_per_day` is never a division by zero. */
  predicate EmailCampaignInputs(
    ids: seq<int>, w: ScheduleWindow, emailsPerDay: int, jitter: seq<int>, rollover: seq<int>)
  {
    (9 !in w.blockedHours || IsBusinessInstant(w.start, w.blockedHours))
    && (emailsPerDay != 0 || |ids| == 0 || DayOf(w.start) > DayOf(w.end))
    && |jitter| == |ids| && |rollover| == |ids|
    && (forall k :: 0 <= k < |ids| ==> 0 <= jitter[k] <= 10 && 0 <= rollover[k] <= 30)
  }

  /** The cursor the email loop starts from: the first business instant of
      the window, its first date, a zero count. */
  function EmailStart(w: ScheduleWindow): EmailState
    requires 9 !in w.blockedHours || IsBusinessInstant(w.start, w.blockedHours)
  {
    EmailState(NextBusinessInstant(w.start, w.blockedHours), DayOf(w.start), 0)
  }

  /** The whole email schedule. */
  function EmailPlan(
    ids: seq<int>, w: ScheduleWindow, emailsPerDay: int, staggerMinutes: int,
    jitter: seq<int>, rollover: seq<int>): seq<ScheduledAction>
    requires EmailCampaignInputs(ids, w, emailsPerDay, jitter, rollover)
  {
    EmailsFrom(ids, w, emailsPerDay, staggerMinutes, jitter, rollover, 0, EmailStart(w))
  }

  /** `e` holds the placements for `ids[off..]` in order, each with its
      fixed fields and its priority. */
  ghost predicate FieldsKept(e: seq<ScheduledAction>, ids: seq<int>, off: nat, emailsPerDay: int)
  {
    off + |e| <= |ids|
    && (forall k :: 0 <= k < |e| ==> IsEmailPlacement(e[k], ids[off + k]))
    && (forall k :: 0 <= k < |e| ==> emailsPerDay != 0 && e[k].priority == EmailPriority(off + k, emailsPerDay))
  }

  lemma FieldsCons(e: seq<ScheduledAction>, a: ScheduledAction, rest: seq<ScheduledAction>,
                   ids: seq<int>, i: nat, j: nat, emailsPerDay: int)
    requires e == [a] + rest && j == i + 1 && i < |ids| && emailsPerDay != 0
    requires FieldsKept(rest, ids, j, emailsPerDay)
    requires IsEmailPlacement(a, ids[i]) && a.priority == EmailPriority(i, emailsPerDay)
    ensures FieldsKept(e, ids, i, emailsPerDay)
  {
    forall k | 0 < k < |e|
      ensures IsEmailPlacement(e[k], ids[i + k]) && e[k].priority == EmailPriority(i + k, emailsPerDay)
    {
      assert e[k] == rest[k - 1] && i + k == j + (k - 1);
    }
  }

  /** The placements from position `i` on are for `ids[i..]` in order, each
      with its fixed fields and its priority. */
  lemma {:induction false} EmailsFromFields(
    ids: seq<int>, w: ScheduleWindow, emailsPerDay: int, staggerMinutes: int,
    jitter: seq<int>, rollover: seq<int>, i: nat, s: EmailState)
    requires EmailInputs(ids, w, emailsPerDay, jitter, rollover, i, s)
    ensures FieldsKept(EmailsFrom(ids, w, emailsPerDay, staggerMinutes, jitter, rollover, i, s),
                       ids, i, emailsPerDay)
    decreases |ids| - i
  {
    if !(i == |ids| || s.date > DayOf(w.end)) {
      var e := EmailsFrom(ids, w, emailsPerDay, staggerMinutes, jitter, rollover, i, s);
      var t := WeekendSkipped(s.time);
      var next := EmailAdvance(t, s.date, s.daily + 1, emailsPerDay, staggerMinutes, jitter[i], rollover[i]);
      var rest := EmailsFrom(ids, w, emailsPerDay, staggerMinutes, jitter, rollover, i + 1, next);
      EmailsFromFields(ids, w, emailsPerDay, staggerMinutes, jitter, rollover, i + 1, next);
      assert e == [e[0]] + rest;
      FieldsCons(e, e[0], rest, ids, i, i + 1, emailsPerDay);
    }
  }

  /** The batch dates of `e` start at `date` and stay between it and `last`,
      and `e` stops short of position `n` only once the date passes `last`. */
  ghost predicate WithinKept(e: seq<ScheduledAction>, date: int, last: int, off: nat, n: nat)
  {
    (|e| > 0 ==> EmailDay(e[0]) == date)
    && (forall k :: 0 <= k < |e| ==> date <= EmailDay(e[k]) <= last)
    && (off + |e| < n ==> (|e| == 0 && date > last) || (|e| > 0 && EmailDay(e[|e| - 1]) == last))
  }

  lemma WithinCons(e: seq<ScheduledAction>, a: ScheduledAction, rest: seq<ScheduledAction>,
                   date: int, nextDate: int, last: int, i: nat, j: nat, n: nat)
    requires e == [a] + rest && j == i + 1
    requires WithinKept(rest, nextDate, last, j, n)
    requires EmailDay(a) == date <= last && date <= nextDate <= date + 1
    ensures WithinKept(e, date, last, i, n)
  {
    assert forall k :: 0 < k < |e| ==> e[k] == rest[k - 1];
  }

  /** The batch dates from position `i` on start at the cursor's date, stay
      at or after it and at or before the window's last date, and the
      placements stop short of the ids only once that date is passed. */
  lemma {:induction false} EmailsFromWithin(
    ids: seq<int>, w: ScheduleWindow, emailsPerDay: int, staggerMinutes: int,
    jitter: seq<int>, rollover: seq<int>, i: nat, s: EmailState)
    requires EmailInputs(ids, w, emailsPerDay, jitter, rollover, i, s)
    ensures WithinKept(EmailsFrom(ids, w, emailsPerDay, staggerMinutes, jitter, rollover, i, s),
                       s.date, DayOf(w.end), i, |ids|)
    decreases |ids| - i
  {
    if !(i == |ids| || s.date > DayOf(w.end)) {
      var e := EmailsFrom(ids, w, emailsPerDay, staggerMinutes, jitter, rollover, i, s);
      var t := WeekendSkipped(s.time);
      var next := EmailAdvance(t, s.date, s.daily + 1, emailsPerDay, staggerMinutes, jitter[i], rollover[i]);
      var rest := EmailsFrom(ids, w, emailsPerDay, staggerMinutes, jitter, rollover, i + 1, next);
      EmailsFromWithin(ids, w, emailsPerDay, staggerMinutes, jitter, rollover, i + 1, next);
      assert e == [e[0]] + rest;
      WithinCons(e, e[0], rest, s.date, next.date, DayOf(w.end), i, i + 1, |ids|);
    }
  }

  /** The batch dates of `e` start at `date`, never decrease and grow by at
      most one per placement. */
  ghost predicate DatesKept(e: seq<ScheduledAction>, date: int)
  {
    (|e| > 0 ==> EmailDay(e[0]) == date)
    && forall k1, k2 :: 0 <= k1 <= k2 < |e| ==>
         EmailDay(e[k1]) <= EmailDay(e[k2]) <= EmailDay(e[k1]) + (k2 - k1)
  }

  lemma DatesCons(e: seq<ScheduledAction>, a: ScheduledAction, rest: seq<ScheduledAction>,
                  date: int, nextDate: int)
    requires e == [a] + rest
    requires DatesKept(rest, nextDate)
    requires EmailDay(a) == date <= nextDate <= date + 1
    ensures DatesKept(e, date)
  {
    forall k1, k2 | 0 <= k1 <= k2 < |e|
      ensures EmailDay(e[k1]) <= EmailDay(e[k2]) <= EmailDay(e[k1]) + (k2 - k1)
    {
      if k1 == 0 && 0 < k2 {
        assert e[k2] == rest[k2 - 1];
        assert EmailDay(rest[0]) <= EmailDay(rest[k2 - 1]) <= EmailDay(rest[0]) + (k2 - 1);
      } else if 0 < k1 {
        assert e[k1] == rest[k1 - 1] && e[k2] == rest[k2 - 1];
        assert EmailDay(rest[k1 - 1]) <= EmailDay(rest[k2 - 1]) <= EmailDay(rest[k1 - 1]) + (k2 - k1);
      }
    }
  }

  /** The batch dates from position `i` on never decrease and grow by at most
      one per email. */
  lemma {:induction false} EmailsFromDates(
    ids: seq<int>, w: ScheduleWindow, emailsPerDay: int, staggerMinutes: int,
    jitter: seq<int>, rollover: seq<int>, i: nat, s: EmailState)
    requires EmailInputs(ids, w, emailsPerDay, jitter, rollover, i, s)
    ensures DatesKept(EmailsFrom(ids, w, emailsPerDay, staggerMinutes, jitter, rollover, i, s), s.date)
    decreases |ids| - i
  {
    if !(i == |ids| || s.date > DayOf(w.end)) {
      var e := EmailsFrom(ids, w, emailsPerDay, staggerMinutes, jitter, rollover, i, s);
      var t := WeekendSkipped(s.time);
      var next := EmailAdvance(t, s.date, s.daily + 1, emailsPerDay, staggerMinutes, jitter[i], rollover[i]);
      var rest := EmailsFrom(ids, w, emailsPerDay, staggerMinutes, jitter, rollover, i + 1, next);
      EmailsFromDates(ids, w, emailsPerDay, staggerMinutes, jitter, rollover, i + 1, next);
      assert e == [e[0]] + rest;
      DatesCons(e, e[0], rest, s.date, next.date);
    }
  }

  /** At most `quota - daily` placements of `e` fall on batch date `date`,
      and at most `quota` on any one batch date. */
  ghost predicate QuotaKept(e: seq<ScheduledAction>, date: int, daily: int, quota: int)
  {
    (forall k :: 0 <= k < |e| && EmailDay(e[k]) == date ==> k + daily < quota)
    && (forall k1, k2 :: 0 <= k1 < k2 < |e| && EmailDay(e[k1]) == EmailDay(e[k2]) ==> k2 - k1 < quota)
  }

  lemma QuotaCons(e: seq<ScheduledAction>, a: ScheduledAction, rest: seq<ScheduledAction>,
                  date: int, daily: int, next: EmailState, quota: int)
    requires e == [a] + rest
    requires QuotaKept(rest, next.date, next.daily, quota) && DatesKept(rest, next.date)
    requires EmailDay(a) == date <= next.date && 0 <= daily < quota
    requires next.date == date ==> next.daily == daily + 1
    ensures QuotaKept(e, date, daily, quota)
  {
    assert forall k :: 0 < k < |e| ==> e[k] == rest[k - 1];
    forall k | 0 < k < |e| && EmailDay(e[k]) == date
      ensures k + daily < quota
    {
      assert next.date <= EmailDay(rest[k - 1]) == date;
    }
    forall k1, k2 | 0 <= k1 < k2 < |e| && EmailDay(e[k1]) == EmailDay(e[k2])
      ensures k2 - k1 < quota
    {
      if 0 < k1 {
        assert EmailDay(rest[k1 - 1]) == EmailDay(rest[k2 - 1]);
      }
    }
  }

  /** The daily cap from position `i` on: the placements still on the
      cursor's date fit under the cap with the count already made, so at most
      `max(emails_per_day, 1)` emails share a date. */
  lemma {:induction false} EmailsFromQuota(
    ids: seq<int>, w: ScheduleWindow, emailsPerDay: int, staggerMinutes: int,
    jitter: seq<int>, rollover: seq<int>, i: nat, s: EmailState)
    requires EmailInputs(ids, w, emailsPerDay, jitter, rollover, i, s)
    ensures QuotaKept(EmailsFrom(ids, w, emailsPerDay, staggerMinutes, jitter, rollover, i, s),
                      s.date, s.daily, Max(emailsPerDay, 1))
    decreases |ids| - i
  {
    if !(i == |ids| || s.date > DayOf(w.end)) {
      var e := EmailsFrom(ids, w, emailsPerDay, staggerMinutes, jitter, rollover, i, s);
      var t := WeekendSkipped(s.time);
      var next := EmailAdvance(t, s.date, s.daily + 1, emailsPerDay, staggerMinutes, jitter[i], rollover[i]);
      var rest := EmailsFrom(ids, w, emailsPerDay, staggerMinutes, jitter, rollover, i + 1, next);
      EmailsFromQuota(ids, w, emailsPerDay, staggerMinutes, jitter, rollover, i + 1, next);
      EmailsFromDates(ids, w, emailsPerDay, staggerMinutes, jitter, rollover, i + 1, next);
      assert e == [e[0]] + rest;
      QuotaCons(e, e[0], rest, s.date, s.daily, next, Max(emailsPerDay, 1));
    }
  }

  /** Every start of `e` after the first is before 18:00, and with a stagger
      of at most 350 minutes and a first start before 18:00, none is earlier
      in the day than the first one or 09:00. */
  ghost predicate HoursKept(e: seq<ScheduledAction>, staggerMinutes: int)
  {
    (forall k :: 1 <= k < |e| ==> Hour(e[k].start) < 18)
    && (0 <= staggerMinutes <= 350 && |e| > 0 && Hour(e[0].start) < 18 ==>
          forall k :: 0 <= k < |e| ==> Min(9, Hour(e[0].start)) <= Hour(e[k].start) < 18)
  }

  lemma HoursCons(e: seq<ScheduledAction>, a: ScheduledAction, rest: seq<ScheduledAction>,
                  staggerMinutes: int)
    requires e == [a] + rest
    requires HoursKept(rest, staggerMinutes)
    requires |rest| > 0 ==> Hour(rest[0].start) < 18
    requires |rest| > 0 && 0 <= staggerMinutes <= 350 && Hour(a.start) < 18 ==>
               Min(9, Hour(a.start)) <= Hour(rest[0].start)
    ensures HoursKept(e, staggerMinutes)
  {
    assert forall k :: 0 < k < |e| ==> e[k] == rest[k - 1];
  }

  /** The hours from position `i` on: every start after the first is before
      18:00, and with a stagger of at most 350 minutes and a first start
      before 18:00, none is earlier in the day than the first one or 09:00. */
  lemma {:induction false} EmailsFromHours(
    ids: seq<int>, w: ScheduleWindow, emailsPerDay: int, staggerMinutes: int,
    jitter: seq<int>, rollover: seq<int>, i: nat, s: EmailState)
    requires EmailInputs(ids, w, emailsPerDay, jitter, rollover, i, s)
    ensures HoursKept(EmailsFrom(ids, w, emailsPerDay, staggerMinutes, jitter, rollover, i, s), staggerMinutes)
    decreases |ids| - i
  {
    if !(i == |ids| || s.date > DayOf(w.end)) {
      var e := EmailsFrom(ids, w, emailsPerDay, staggerMinutes, jitter, rollover, i, s);
      var t := WeekendSkipped(s.time);
      var next := EmailAdvance(t, s.date, s.daily + 1, emailsPerDay, staggerMinutes, jitter[i], rollover[i]);
      var rest := EmailsFrom(ids, w, emailsPerDay, staggerMinutes, jitter, rollover, i + 1, next);
      EmailsFromHours(ids, w, emailsPerDay, staggerMinutes, jitter, rollover, i + 1, next);
      assert e == [e[0]] + rest;
      if |rest| > 0 {
        assert rest[0].start == WeekendSkipped(next.time);
      }
      HoursCons(e, e[0], rest, staggerMinutes);
    }
  }

  /** When each email is sent, relative to the one before: on the same batch
      date `stagger + jitter` minutes later, on a new date at 09:00 plus the
      roll-over minute, and in both cases moved past a weekend to 09:00.
      `off` is the position of `r[0]` among the ids, so `jitter[off + k]` and
      `rollover[off + k]` are the draws made after placing `r[k]`. */
  predicate SpacedAt(
    r: seq<ScheduledAction>, k: int, staggerMinutes: int, jitter: seq<int>, rollover: seq<int>, off: int)
    requires 0 <= k && k + 1 < |r| && 0 <= off + k < |jitter| && off + k < |rollover|
  {
    r[k + 1].start == WeekendSkipped(
      if EmailDay(r[k + 1]) == EmailDay(r[k]) then r[k].start + staggerMinutes + jitter[off + k]
      else At(EmailDay(r[k + 1]), 9, rollover[off + k]))
  }

  /** `e` is spaced as `SpacedAt` says, its first placement is sent at
      `time` moved past a weekend on batch date `date`, and `off + |e|` stays
      within the draws. */
  ghost predicate SpacingKept(
    e: seq<ScheduledAction>, time: int, date: int, staggerMinutes: int,
    jitter: seq<int>, rollover: seq<int>, off: nat)
  {
    off + |e| <= |jitter| && |rollover| == |jitter|
    && (|e| > 0 ==> e[0].start == WeekendSkipped(time) && EmailDay(e[0]) == date)
    && forall k :: 0 <= k && k + 1 < |e| ==> SpacedAt(e, k, staggerMinutes, jitter, rollover, off)
  }

  /** Spacing carries over to a placement `a` put in front of `rest`, when
      `next` is the cursor the draws at position `i` give after `a`. */
  lemma SpacedCons(
    e: seq<ScheduledAction>, a: ScheduledAction, rest: seq<ScheduledAction>, time: int, date: int,
    next: EmailState, staggerMinutes: int, jitter: seq<int>, rollover: seq<int>, i: nat, j: nat)
    requires e == [a] + rest && j == i + 1 && i < |jitter|
    requires SpacingKept(rest, next.time, next.date, staggerMinutes, jitter, rollover, j)
    requires a.start == WeekendSkipped(time) && EmailDay(a) == date
    requires next.date == date ==> next.time == a.start + staggerMinutes + jitter[i]
    requires next.date != date ==> next.time == At(next.date, 9, rollover[i])
    ensures SpacingKept(e, time, date, staggerMinutes, jitter, rollover, i)
  {
    forall k | 0 <= k && k + 1 < |e|
      ensures SpacedAt(e, k, staggerMinutes, jitter, rollover, i)
    {
      if k > 0 {
        assert SpacedAt(rest, k - 1, staggerMinutes, jitter, rollover, j);
      }
    }
  }

  /** Every placement from position `i` on after the first is spaced from the
      one before as `SpacedAt` says. */
  lemma {:induction false} EmailsFromSpacing(
    ids: seq<int>, w: ScheduleWindow, emailsPerDay: int, staggerMinutes: int,
    jitter: seq<int>, rollover: seq<int>, i: nat, s: EmailState)
    requires EmailInputs(ids, w, emailsPerDay, jitter, rollover, i, s)
    ensures SpacingKept(EmailsFrom(ids, w, emailsPerDay, staggerMinutes, jitter, rollover, i, s),
                        s.time, s.date, staggerMinutes, jitter, rollover, i)
    decreases |ids| - i
  {
    if !(i == |ids| || s.date > DayOf(w.end)) {
      var e := EmailsFrom(ids, w, emailsPerDay, staggerMinutes, jitter, rollover, i, s);
      var t := WeekendSkipped(s.time);
      var next := EmailAdvance(t, s.date, s.daily + 1, emailsPerDay, staggerMinutes, jitter[i], rollover[i]);
      var rest := EmailsFrom(ids, w, emailsPerDay, staggerMinutes, jitter, rollover, i + 1, next);
      EmailsFromSpacing(ids, w, emailsPerDay, staggerMinutes, jitter, rollover, i + 1, next);
      assert e == [e[0]] + rest;
      SpacedCons(e, e[0], rest, s.time, s.date, next, staggerMinutes, jitter, rollover, i, i + 1);
    }
  }

  /** The first email is sent at the window's first business instant, and
      every later one `stagger + jitter` minutes after the one before when
      they share a batch date, and at 09:00 plus the roll-over minute of the
      new date otherwise, moved past a weekend. */
  lemma EmailPlanSpacing(
    ids: seq<int>, w: ScheduleWindow, emailsPerDay: int, staggerMinutes: int,
    jitter: seq<int>, rollover: seq<int>)
    requires EmailCampaignInputs(ids, w, emailsPerDay, jitter, rollover)
    ensures var e := EmailPlan(ids, w, emailsPerDay, staggerMinutes, jitter, rollover);
      |e| <= |ids|
      && (|e| > 0 ==> e[0].start == NextBusinessInstant(w.start, w.blockedHours))
      && forall k :: 0 <= k && k + 1 < |e| ==> SpacedAt(e, k, staggerMinutes, jitter, rollover, 0)
  {
    EmailsFromSpacing(ids, w, emailsPerDay, staggerMinutes, jitter, rollover, 0, EmailStart(w));
  }

  /** `schedule_email_campaign`. `jitter[i]` is the `randint(0, 10)` drawn
      after placing email `i`, `rollover[i]` the `randint(0, 30)` minute used
      when that advance rolls to the next day. */
  method ScheduleEmailCampaign(
    ids: seq<int>, w: ScheduleWindow, emailsPerDay: int, staggerMinutes: int,
    jitter: seq<int>, rollover: seq<int>)
    returns (r: seq<ScheduledAction>)
    requires EmailCampaignInputs(ids, w, emailsPerDay, jitter, rollover)
    ensures r == EmailPlan(ids, w, emailsPerDay, staggerMinutes, jitter, rollover)
  {
    var first := NextBusinessHour(w.start, w.blockedHours);
    r := PlaceEmails(ids, w, emailsPerDay, staggerMinutes, jitter, rollover, first);
  }

  /** The emails are for an in-order prefix of the ids, each starting on a
      weekday, an hour long, in an email batch, with priority
      `max(1, 5 - i // emails_per_day)`. */
  lemma EmailPlanFields(
    ids: seq<int>, w: ScheduleWindow, emailsPerDay: int, staggerMinutes: int,
    jitter: seq<int>, rollover: seq<int>)
    requires EmailCampaignInputs(ids, w, emailsPerDay, jitter, rollover)
    ensures var e := EmailPlan(ids, w, emailsPerDay, staggerMinutes, jitter, rollover);
      |e| <= |ids|
      && (forall k :: 0 <= k < |e| ==> IsEmailPlacement(e[k], ids[k]))
      && (forall k :: 0 <= k < |e| ==> emailsPerDay != 0 && e[k].priority == EmailPriority(k, emailsPerDay))
  {
    EmailsFromFields(ids, w, emailsPerDay, staggerMinutes, jitter, rollover, 0, EmailStart(w));
  }

  /** The batch dates start at the window's first date and stay within its
      dates, never decrease and grow by at most one per email, and the list
      is cut short of the ids only once the batch date passes the window's
      last date. */
  lemma EmailPlanDates(
    ids: seq<int>, w: ScheduleWindow, emailsPerDay: int, staggerMinutes: int,
    jitter: seq<int>, rollover: seq<int>)
    requires EmailCampaignInputs(ids, w, emailsPerDay, jitter, rollover)
    ensures var e := EmailPlan(ids, w, emailsPerDay, staggerMinutes, jitter, rollover);
      (|e| > 0 ==> EmailDay(e[0]) == DayOf(w.start))
      && (forall k :: 0 <= k < |e| ==> DayOf(w.start) <= EmailDay(e[k]) <= DayOf(w.end))
      && (forall k1, k2 :: 0 <= k1 <= k2 < |e| ==>
            EmailDay(e[k1]) <= EmailDay(e[k2]) <= EmailDay(e[k1]) + (k2 - k1))
      && (|e| < |ids| ==>
            (|e| == 0 && DayOf(w.start) > DayOf(w.end)) || (|e| > 0 && EmailDay(e[|e| - 1]) == DayOf(w.end)))
  {
    EmailsFromWithin(ids, w, emailsPerDay, staggerMinutes, jitter, rollover, 0, EmailStart(w));
    EmailsFromDates(ids, w, emailsPerDay, staggerMinutes, jitter, rollover, 0, EmailStart(w));
  }

  /** At most `max(emails_per_day, 1)` emails share a batch date. */
  lemma EmailPlanQuota(
    ids: seq<int>, w: ScheduleWindow, emailsPerDay: int, staggerMinutes: int,
    jitter: seq<int>, rollover: seq<int>)
    requires EmailCampaignInputs(ids, w, emailsPerDay, jitter, rollover)
    ensures var e := EmailPlan(ids, w, emailsPerDay, staggerMinutes, jitter, rollover);
      forall k1, k2 :: 0 <= k1 < k2 < |e| && EmailDay(e[k1]) == EmailDay(e[k2]) ==>
        k2 - k1 < Max(emailsPerDay, 1)
  {
    EmailsFromQuota(ids, w, emailsPerDay, staggerMinutes, jitter, rollover, 0, EmailStart(w));
  }

  /** Every start after the first is before 18:00; with a stagger of at most
      350 minutes and a first start before 18:00, no start is earlier in the
      day than the first one or 09:00. */
  lemma EmailPlanHours(
    ids: seq<int>, w: ScheduleWindow, emailsPerDay: int, staggerMinutes: int,
    jitter: seq<int>, rollover: seq<int>)
    requires EmailCampaignInputs(ids, w, emailsPerDay, jitter, rollover)
    ensures var e := EmailPlan(ids, w, emailsPerDay, staggerMinutes, jitter, rollover);
      (forall k :: 1 <= k < |e| ==> Hour(e[k].start) < 18)
      && (0 <= staggerMinutes <= 350 && |e| > 0 && Hour(e[0].start) < 18 ==>
            forall k :: 0 <= k < |e| ==> Min(9, Hour(e[0].start)) <= Hour(e[k].start) < 18)
  {
    EmailsFromHours(ids, w, emailsPerDay, staggerMinutes, jitter, rollover, 0, EmailStart(w));
  }

  /** The invariant of the email loop: the placements made so far followed
      by the ones still to come from cursor `s` at position `i` are `plan`. */
  ghost predicate EmailsPlanned(
    ids: seq<int>, w: ScheduleWindow, emailsPerDay: int, staggerMinutes: int,
    jitter: seq<int>, rollover: seq<int>, i: nat, s: EmailState,
    r: seq<ScheduledAction>, plan: seq<ScheduledAction>)
  {
    EmailInputs(ids, w, emailsPerDay, jitter, rollover, i, s)
    && plan == r + EmailsFrom(ids, w, emailsPerDay, staggerMinutes, jitter, rollover, i, s)
  }

  /** One turn of the email loop: the placement at position `i` and the
      cursor after it, in the loop's own variables. */
  lemma EmailsFromStep(
    ids: seq<int>, w: ScheduleWindow, emailsPerDay: int, staggerMinutes: int,
    jitter: seq<int>, rollover: seq<int>, i: nat, s: EmailState,
    t: int, a: ScheduledAction, next: EmailState, r: seq<ScheduledAction>, plan: seq<ScheduledAction>)
    requires EmailsPlanned(ids, w, emailsPerDay, staggerMinutes, jitter, rollover, i, s, r, plan)
    requires i < |ids| && s.date <= DayOf(w.end)
    requires t == WeekendSkipped(s.time)
    requires a == ScheduledAction(ids[i], "email", t, t + 60, EmailPriority(i, emailsPerDay), Some(EmailBatch(s.date)))
    requires next == EmailAdvance(t, s.date, s.daily + 1, emailsPerDay, staggerMinutes, jitter[i], rollover[i])
    ensures EmailsPlanned(ids, w, emailsPerDay, staggerMinutes, jitter, rollover, i + 1, next, r + [a], plan)
  {
  }

  /** The loop of `schedule_email_campaign`, from the first business instant
      `first`. The cursor holds the loop's `current_time`, `current_date` and
      `daily_count`. */
  method PlaceEmails(
    ids: seq<int>, w: ScheduleWindow, emailsPerDay: int, staggerMinutes: int,
    jitter: seq<int>, rollover: seq<int>, first: int)
    returns (r: seq<ScheduledAction>)
    requires EmailInputs(ids, w, emailsPerDay, jitter, rollover, 0, EmailState(first, DayOf(w.start), 0))
    ensures r == EmailsFrom(ids, w, emailsPerDay, staggerMinutes, jitter, rollover, 0, EmailState(first, DayOf(w.start), 0))
  {
    var cursor := EmailState(first, DayOf(w.start), 0);
    r := [];
    var i := 0;
    ghost var plan := EmailsFrom(ids, w, emailsPerDay, staggerMinutes, jitter, rollover, 0, cursor);
    while i < |ids| && cursor.date <= DayOf(w.end)
      invariant i == |r|
      invariant EmailsPlanned(ids, w, emailsPerDay, staggerMinutes, jitter, rollover, i, cursor, r, plan)
    {
      // skip weekends
      var t := SkipWeekend(cursor.time);
      var a := ScheduledAction(ids[i], "email", t, t + 60,
        EmailPriority(i, emailsPerDay), Some(EmailBatch(cursor.date)));
      // advance time
      var next := EmailAdvance(t, cursor.date, cursor.daily + 1, emailsPerDay, staggerMinutes, jitter[i], rollover[i]);
      EmailsFromStep(ids, w, emailsPerDay, staggerMinutes, jitter, rollover, i, cursor, t, a, next, r, plan);
      r := r + [a];
      cursor := next;
      i := i + 1;
    }
  }
}
