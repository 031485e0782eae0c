/** `schedule_escalation_sequence`: each phase's actions spread over the
    weekdays of the phase, a daily quota per day. */
module EscalationSchedule {

  import opened Base
  import opened Clock
  import opened Scheduler
  import Models

  /** `max(1, (phase_end - phase_start).days)`: the days a phase's actions are
      spread over. */
  function PhaseDays(durationWeeks: int): (days: int)
    ensures days >= 1 && (durationWeeks >= 1 ==> days == 7 * durationWeeks)
  {
    Max(1, 7 * durationWeeks)
  }

  /** `max(1, len(phase_actions) // days_in_phase)`. */
  function ActionsPerDay(count: nat, days: int): (apd: int)
    requires days >= 1
    ensures apd >= 1
  {
    Max(1, count / days)
  }

  /** The `j`-th placement of a day's quota: at hour `9 + j % 8` of `date`
      and minute `minute`, two hours long, with the phase number as its
      priority. */
  function DayPlacement(id: int, date: int, j: int, minute: int, number: int): ScheduledAction
  {
    var start := At(date, 9 + j % 8, minute);
    ScheduledAction(id, "mixed", start, start + 120, number, Some(PhaseBatch(number, date)))
  }

  /** One weekday's quota of a phase, placed in order. */
  function DayBatch(daily: seq<int>, date: int, number: int, minutes: seq<int>): (r: seq<ScheduledAction>)
    requires |minutes| >= |daily|
    ensures |r| == |daily|
  {
    if |daily| == 0 then []
    else
      var j := |daily| - 1;
      DayBatch(daily[..j], date, number, minutes) + [DayPlacement(daily[j], date, j, minutes[j], number)]
  }

  /** The placements of a phase's remaining actions `acts` over the `days`
      dates from `date` on: on each weekday the next `apd` of them, until the
      actions or the dates run out. */
  function PhaseFrom(acts: seq<int>, date: int, days: int, apd: int, number: int, minutes: seq<int>)
    : (r: seq<ScheduledAction>)
    requires apd >= 1 && |minutes| >= |acts|
    ensures |r| <= |acts|
    decreases Max0(days)
  {
    if days <= 0 || |acts| == 0 then []
    else if !IsWeekdayDate(date) then PhaseFrom(acts, date + 1, days - 1, apd, number, minutes)
    else
      var n := Min(apd, |acts|);
      DayBatch(acts[..n], date, number, minutes[..n])
      + PhaseFrom(acts[n..], date + 1, days - 1, apd, number, minutes[n..])
  }

  /** The placements of one phase's actions; `minutes[k]` is the minute of
      the `k`-th. */
  function PhasePlan(
    acts: seq<int>, phaseStart: int, durationWeeks: int, number: int, minutes: seq<int>): seq<ScheduledAction>
    requires |minutes| >= |acts|
  {
    var days := PhaseDays(durationWeeks);
    PhaseFrom(acts, phaseStart, days, ActionsPerDay(|acts|, days), number, minutes)
  }

  /** One pass of the day loop over the remaining actions `acts[idx..]`,
      with `r` placed so far out of `goal` and `left` dates to go: a weekend
      date places nothing, a weekday places the next `min(apd, left)` actions
      and moves past them. */
  lemma PhaseFromStep(
    acts: seq<int>, idx: nat, date: int, left: int, apd: int, number: int, minutes: seq<int>,
    r: seq<ScheduledAction>, goal: seq<ScheduledAction>)
    requires apd >= 1 && |minutes| >= |acts| && idx < |acts| && left > 0
    requires r + PhaseFrom(acts[idx..], date, left, apd, number, minutes[idx..]) == goal
    ensures !IsWeekdayDate(date) ==>
      r + PhaseFrom(acts[idx..], date + 1, left - 1, apd, number, minutes[idx..]) == goal
    ensures IsWeekdayDate(date) ==> var n := Min(apd, |acts| - idx);
      (r + DayBatch(acts[idx..idx + n], date, number, minutes[idx..idx + n]))
        + PhaseFrom(acts[idx + n..], date + 1, left - 1, apd, number, minutes[idx + n..]) == goal
  {
    var n := Min(apd, |acts| - idx);
    assert acts[idx..][..n] == acts[idx..idx + n] && minutes[idx..][..n] == minutes[idx..idx + n];
    assert acts[idx..][n..] == acts[idx + n..] && minutes[idx..][n..] == minutes[idx + n..];
    if IsWeekdayDate(date) {
      var b := DayBatch(acts[idx..idx + n], date, number, minutes[idx..idx + n]);
      var rest := PhaseFrom(acts[idx + n..], date + 1, left - 1, apd, number, minutes[idx + n..]);
      assert (r + b) + rest == r + (b + rest);
    }
  }

  /** The inner loop of a phase's weekday: the day's quota in order. */
  method PlaceDay(daily: seq<int>, date: int, number: int, minutes: seq<int>) returns (r: seq<ScheduledAction>)
    requires |minutes| >= |daily|
    ensures r == DayBatch(daily, date, number, minutes)
  {
    r := [];
    var j := 0;
    while j < |daily|
      invariant 0 <= j <= |daily| && r == DayBatch(daily[..j], date, number, minutes)
    {
      assert daily[..j + 1][..j] == daily[..j];
      var t := At(date, 9 + j % 8, minutes[j]);
      r := r + [ScheduledAction(daily[j], "mixed", t, t + 120, number, Some(PhaseBatch(number, date)))];
      j := j + 1;
    }
    assert daily[..j] == daily;
  }

  /** The loop over the days of one phase in `schedule_escalation_sequence`:
      on each weekday, the next `actions_per_day` actions, until the actions
      or the days run out. */
  method DistributePhase(acts: seq<int>, phaseStart: int, durationWeeks: int, number: int, minutes: seq<int>)
    returns (r: seq<ScheduledAction>)
    requires |minutes| >= |acts|
    ensures r == PhasePlan(acts, phaseStart, durationWeeks, number, minutes)
  {
    var days := PhaseDays(durationWeeks);
    var apd := ActionsPerDay(|acts|, days);
    ghost var goal := PhasePlan(acts, phaseStart, durationWeeks, number, minutes);
    r := [];
    var idx := 0;
    var off, date := 0, phaseStart;
    ghost var left := days;
    while off < days && idx < |acts|
      invariant 0 <= off <= days && 0 <= idx <= |acts| && date == phaseStart + off && left == days - off
      invariant r + PhaseFrom(acts[idx..], date, left, apd, number, minutes[idx..]) == goal
    {
      r, idx := PlaceDate(acts, idx, date, left, apd, number, minutes, r, goal);
      off, date, left := off + 1, date + 1, left - 1;
    }
  }

  /** One pass of the day loop: on a weekday, the next `apd` of the
      remaining actions (or all of them, when fewer are left) are placed and
      the index moves past them; a weekend date places nothing. */
  method PlaceDate(
    acts: seq<int>, idx: nat, date: int, ghost left: int, apd: int, number: int, minutes: seq<int>,
    r: seq<ScheduledAction>, ghost goal: seq<ScheduledAction>)
    returns (r': seq<ScheduledAction>, idx': nat)
    requires apd >= 1 && |minutes| >= |acts| && idx < |acts| && left > 0
    requires r + PhaseFrom(acts[idx..], date, left, apd, number, minutes[idx..]) == goal
    ensures idx <= idx' <= |acts| && (IsWeekdayDate(date) <==> idx < idx')
    ensures r' + PhaseFrom(acts[idx'..], date + 1, left - 1, apd, number, minutes[idx'..]) == goal
  {
    PhaseFromStep(acts, idx, date, left, apd, number, minutes, r, goal);
    r', idx' := r, idx;
    if DayWeekday(date) < 5 {
      var n := Min(apd, |acts| - idx);
      var placed := PlaceDay(acts[idx..idx + n], date, number, minutes[idx..idx + n]);
      r', idx' := r + placed, idx + n;
    }
  }

  /** The fixed fields of a phase placement for action `id`. */
  predicate IsPhasePlacement(a: ScheduledAction, id: int, number: int, minute: int)
  {
    a.actionId == id && a.actionType == "mixed" && a.priority == number
    && a.end == a.start + 120 && a.batch == Some(PhaseBatch(number, DayOf(a.start)))
    && 9 <= Hour(a.start) < 17 && Minute(a.start) == minute
  }

  lemma DayPlacementFacts(id: int, date: int, j: int, minute: int, number: int)
    requires 0 <= minute < 60 && j >= 0
    ensures var a := DayPlacement(id, date, j, minute, number);
      IsPhasePlacement(a, id, number, minute) && DayOf(a.start) == date && Hour(a.start) == 9 + j % 8
  {
    AtParts(date, 9 + j % 8, minute);
  }

  /** A day's quota: each action at its own position, on `date`, with its own minute. */
  lemma {:induction false} DayBatchFacts(daily: seq<int>, date: int, number: int, minutes: seq<int>)
    requires |minutes| >= |daily| && forall i :: 0 <= i < |minutes| ==> 0 <= minutes[i] < 60
    ensures var b := DayBatch(daily, date, number, minutes);
      forall k :: 0 <= k < |b| ==> IsPhasePlacement(b[k], daily[k], number, minutes[k]) && DayOf(b[k].start) == date
  {
    if |daily| > 0 {
      var j := |daily| - 1;
      DayBatchFacts(daily[..j], date, number, minutes);
      DayPlacementFacts(daily[j], date, j, minutes[j], number);
      var b := DayBatch(daily, date, number, minutes);
      forall k | 0 <= k < j
        ensures IsPhasePlacement(b[k], daily[k], number, minutes[k])
      {
        assert daily[..j][k] == daily[k];
      }
    }
  }

  /** Each placement is for the action at its own position, with the minute
      drawn for it, on a weekday from date `lo` up to (not including) `hi`. */
  ghost predicate PlacedFrom(r: seq<ScheduledAction>, acts: seq<int>, number: int, minutes: seq<int>, lo: int, hi: int)
    requires |r| <= |acts| <= |minutes|
  {
    forall k :: 0 <= k < |r| ==>
      IsPhasePlacement(r[k], acts[k], number, minutes[k])
      && lo <= DayOf(r[k].start) < hi && IsWeekdayDate(DayOf(r[k].start))
  }

  /** A day's quota for the first `n` actions on weekday `date`, followed by
      placements of the rest on later dates. */
  lemma PlacedFromPrepend(
    b: seq<ScheduledAction>, rest: seq<ScheduledAction>, acts: seq<int>, n: nat, number: int, minutes: seq<int>,
    date: int, hi: int)
    requires |b| == n <= |acts| <= |minutes| && |rest| <= |acts| - n && IsWeekdayDate(date) && date < hi
    requires forall k :: 0 <= k < n ==> IsPhasePlacement(b[k], acts[..n][k], number, minutes[..n][k]) && DayOf(b[k].start) == date
    requires PlacedFrom(rest, acts[n..], number, minutes[n..], date + 1, hi)
    ensures PlacedFrom(b + rest, acts, number, minutes, date, hi)
  {
    forall k | 0 <= k < |b + rest|
      ensures IsPhasePlacement((b + rest)[k], acts[k], number, minutes[k])
      ensures date <= DayOf((b + rest)[k].start) < hi && IsWeekdayDate(DayOf((b + rest)[k].start))
    {
      if k < n {
        assert (b + rest)[k] == b[k] && acts[..n][k] == acts[k] && minutes[..n][k] == minutes[k];
      } else {
        assert (b + rest)[k] == rest[k - n] && acts[n..][k - n] == acts[k] && minutes[n..][k - n] == minutes[k];
      }
    }
  }

  /** Every placement of a phase's remaining actions is for the action at its
      own position, with the minute drawn for it, on a weekday among the
      `days` dates from `date` on. */
  lemma {:induction false} PhaseFromPlacements(
    acts: seq<int>, date: int, days: int, apd: int, number: int, minutes: seq<int>)
    requires apd >= 1 && |minutes| >= |acts| && forall i :: 0 <= i < |minutes| ==> 0 <= minutes[i] < 60
    ensures PlacedFrom(PhaseFrom(acts, date, days, apd, number, minutes), acts, number, minutes, date, date + days)
    decreases Max0(days)
  {
    if days > 0 && |acts| > 0 {
      if !IsWeekdayDate(date) {
        PhaseFromPlacements(acts, date + 1, days - 1, apd, number, minutes);
      } else {
        var n := Min(apd, |acts|);
        var b := DayBatch(acts[..n], date, number, minutes[..n]);
        var rest := PhaseFrom(acts[n..], date + 1, days - 1, apd, number, minutes[n..]);
        DayBatchFacts(acts[..n], date, number, minutes[..n]);
        PhaseFromPlacements(acts[n..], date + 1, days - 1, apd, number, minutes[n..]);
        PlacedFromPrepend(b, rest, acts, n, number, minutes, date, date + days);
      }
    }
  }

  /** The pairwise date facts of a phase's placements. */
  ghost predicate DatesInOrder(r: seq<ScheduledAction>, apd: int)
  {
    forall k1, k2 :: 0 <= k1 <= k2 < |r| ==>
      DayOf(r[k1].start) <= DayOf(r[k2].start)
      && (DayOf(r[k1].start) == DayOf(r[k2].start) ==> k2 - k1 < apd)
  }

  /** A day's quota, all on `date`, followed by placements in order on later
      dates, is in order. */
  lemma DatesInOrderPrepend(b: seq<ScheduledAction>, rest: seq<ScheduledAction>, date: int, apd: int)
    requires |b| <= apd && forall k :: 0 <= k < |b| ==> DayOf(b[k].start) == date
    requires forall k :: 0 <= k < |rest| ==> date + 1 <= DayOf(rest[k].start)
    requires DatesInOrder(rest, apd)
    ensures DatesInOrder(b + rest, apd)
  {
    var r := b + rest;
    forall k1, k2 | 0 <= k1 <= k2 < |r|
      ensures DayOf(r[k1].start) <= DayOf(r[k2].start)
      ensures DayOf(r[k1].start) == DayOf(r[k2].start) ==> k2 - k1 < apd
    {
      if k1 >= |b| {
        assert r[k1] == rest[k1 - |b|] && r[k2] == rest[k2 - |b|];
        assert DayOf(rest[k1 - |b|].start) <= DayOf(rest[k2 - |b|].start);
      } else if k2 >= |b| {
        assert r[k2] == rest[k2 - |b|];
      }
    }
  }

  /** Within a phase, placement dates never go back, and two placements share
      a date only when they come from the same day's quota, so no date gets
      more than `apd` of them. */
  lemma {:induction false} PhaseFromOrder(
    acts: seq<int>, date: int, days: int, apd: int, number: int, minutes: seq<int>)
    requires apd >= 1 && |minutes| >= |acts| && forall i :: 0 <= i < |minutes| ==> 0 <= minutes[i] < 60
    ensures DatesInOrder(PhaseFrom(acts, date, days, apd, number, minutes), apd)
    decreases Max0(days)
  {
    if days > 0 && |acts| > 0 {
      if !IsWeekdayDate(date) {
        PhaseFromOrder(acts, date + 1, days - 1, apd, number, minutes);
        assert PhaseFrom(acts, date, days, apd, number, minutes)
          == PhaseFrom(acts, date + 1, days - 1, apd, number, minutes);
      } else {
        var n := Min(apd, |acts|);
        PhaseFromOrder(acts[n..], date + 1, days - 1, apd, number, minutes[n..]);
        WeekdayInOrder(acts, date, days, apd, number, minutes);
      }
    }
  }

  /** The placements from a weekday are in order when those from the next
      date on are. */
  lemma WeekdayInOrder(acts: seq<int>, date: int, days: int, apd: int, number: int, minutes: seq<int>)
    requires apd >= 1 && |minutes| >= |acts| && forall i :: 0 <= i < |minutes| ==> 0 <= minutes[i] < 60
    requires days > 0 && |acts| > 0 && IsWeekdayDate(date)
    requires var n := Min(apd, |acts|);
      DatesInOrder(PhaseFrom(acts[n..], date + 1, days - 1, apd, number, minutes[n..]), apd)
    ensures DatesInOrder(PhaseFrom(acts, date, days, apd, number, minutes), apd)
  {
    var n := Min(apd, |acts|);
    var b := DayBatch(acts[..n], date, number, minutes[..n]);
    var rest := PhaseFrom(acts[n..], date + 1, days - 1, apd, number, minutes[n..]);
    PhaseFromPlacements(acts[n..], date + 1, days - 1, apd, number, minutes[n..]);
    DayBatchFacts(acts[..n], date, number, minutes[..n]);
    DatesInOrderPrepend(b, rest, date, apd);
  }

  /** One weekday's batch of `min(apd, len)` followed by the rest's count
      gives the count for one more weekday. */
  lemma CountStep(len: int, apd: int, m: int, n: int, rest: int)
    requires len >= 0 && apd >= 1 && m >= 0 && n == Min(apd, len) && rest == Min(len - n, m)
    ensures n + rest == Min(len, m + apd)
  {
  }

  /** Exactly `min(len(acts), apd * weekdays)` actions are placed: the rest
      are dropped. */
  lemma {:induction false} PhaseFromCount(
    acts: seq<int>, date: int, days: int, apd: int, number: int, minutes: seq<int>)
    requires apd >= 1 && |minutes| >= |acts|
    ensures |PhaseFrom(acts, date, days, apd, number, minutes)| == Min(|acts|, apd * WeekdaysIn(date, days))
    decreases Max0(days)
  {
    if days > 0 && |acts| > 0 {
      var n := Min(apd, |acts|);
      if !IsWeekdayDate(date) {
        PhaseFromCount(acts, date + 1, days - 1, apd, number, minutes);
        assert WeekdaysIn(date, days) == WeekdaysIn(date + 1, days - 1);
      } else {
        PhaseFromCount(acts[n..], date + 1, days - 1, apd, number, minutes[n..]);
        var w := WeekdaysIn(date + 1, days - 1);
        assert WeekdaysIn(date, days) == w + 1;
        MulSucc(apd, w);
        MulIsMonotone(0, w, apd);
        var rest := PhaseFrom(acts[n..], date + 1, days - 1, apd, number, minutes[n..]);
        assert PhaseFrom(acts, date, days, apd, number, minutes)
          == DayBatch(acts[..n], date, number, minutes[..n]) + rest;
        CountStep(|acts|, apd, apd * w, n, |rest|);
      }
    } else if days > 0 {
      MulIsMonotone(0, WeekdaysIn(date, days), apd);
    }
  }

  /** A phase places each of its first `min(len, apd * weekdays)` actions,
      in order, on a weekday among its first `max(1, 7 * duration_weeks)`
      days, between 09:00 and 16:59, with the phase number as priority and the
      date in the batch; dates never go back and no date holds more than
      `actions_per_day` placements. */
  lemma PhasePlanProperties(
    acts: seq<int>, phaseStart: int, durationWeeks: int, number: int, minutes: seq<int>)
    requires |minutes| >= |acts| && forall i :: 0 <= i < |minutes| ==> 0 <= minutes[i] < 60
    ensures var r := PhasePlan(acts, phaseStart, durationWeeks, number, minutes);
      var days := PhaseDays(durationWeeks);
      var apd := ActionsPerDay(|acts|, days);
      && |r| == Min(|acts|, apd * WeekdaysIn(phaseStart, days))
      && (forall k :: 0 <= k < |r| ==>
            IsPhasePlacement(r[k], acts[k], number, minutes[k])
            && phaseStart <= DayOf(r[k].start) < phaseStart + days && IsWeekdayDate(DayOf(r[k].start)))
      && (forall k1, k2 :: 0 <= k1 <= k2 < |r| ==>
            DayOf(r[k1].start) <= DayOf(r[k2].start)
            && (DayOf(r[k1].start) == DayOf(r[k2].start) ==> k2 - k1 < apd))
  {
    var days := PhaseDays(durationWeeks);
    var apd := ActionsPerDay(|acts|, days);
    PhaseFromCount(acts, phaseStart, days, apd, number, minutes);
    PhaseFromPlacements(acts, phaseStart, days, apd, number, minutes);
    PhaseFromOrder(acts, phaseStart, days, apd, number, minutes);
  }

  /** Actions beyond one day's quota per weekday are dropped: fourteen actions
      in a one-week phase starting on a Monday get ten placements. */
  lemma PhaseDropsBeyondQuota(acts: seq<int>, minutes: seq<int>, number: int)
    requires |acts| == 14 && |minutes| >= 14
    ensures |PhasePlan(acts, 0, 1, number, minutes)| == 10
  {
    var apd := ActionsPerDay(14, PhaseDays(1));
    assert apd == 2;
    assert WeekdaysIn(0, 7) == 5;
    PhaseFromCount(acts, 0, 7, apd, number, minutes);
  }

  /** `actions_per_phase.get(n, [])`. */
  function PhaseActions(actionsPerPhase: map<int, seq<int>>, number: int): seq<int>
  {
    if number in actionsPerPhase then actionsPerPhase[number] else []
  }

  /** The number of ids the phases draw from `actions_per_phase`, in ladder
      order (a phase number listed twice draws its ids twice). */
  function ListedTotal(phases: seq<Models.Phase>, actionsPerPhase: map<int, seq<int>>): nat
  {
    if |phases| == 0 then 0
    else
      ListedTotal(phases[..|phases| - 1], actionsPerPhase)
      + |PhaseActions(actionsPerPhase, phases[|phases| - 1].number)|
  }

  /** The start date of phase `i`: the campaign start plus the weeks of every
      phase before it, empty phases included. */
  function PhaseStartDay(campaignStart: int, phases: seq<Models.Phase>, i: nat): int
    requires i <= |phases|
  {
    campaignStart + 7 * Models.SumWeeks(phases[..i])
  }

  /** The placements of the whole ladder: each phase's placements after those
      of the phases before it; `minutes` supplies one minute per placement. */
  function EscalationPlan(
    phases: seq<Models.Phase>, campaignStart: int, actionsPerPhase: map<int, seq<int>>, minutes: seq<int>)
    : (r: seq<ScheduledAction>)
    requires |minutes| >= ListedTotal(phases, actionsPerPhase)
    ensures |r| <= ListedTotal(phases, actionsPerPhase)
  {
    if |phases| == 0 then []
    else
      var n := |phases| - 1;
      var prior := EscalationPlan(phases[..n], campaignStart, actionsPerPhase, minutes);
      prior + PhasePlan(PhaseActions(actionsPerPhase, phases[n].number), PhaseStartDay(campaignStart, phases, n),
        phases[n].durationWeeks, phases[n].number, minutes[|prior|..])
  }

  /** Placement dates that never go back along the list. */
  ghost predicate DaysNonDecreasing(r: seq<ScheduledAction>)
  {
    forall k1, k2 :: 0 <= k1 <= k2 < |r| ==> DayOf(r[k1].start) <= DayOf(r[k2].start)
  }

  lemma DaysNonDecreasingConcat(a: seq<ScheduledAction>, b: seq<ScheduledAction>, bound: int)
    requires DaysNonDecreasing(a) && DaysNonDecreasing(b)
    requires forall k :: 0 <= k < |a| ==> DayOf(a[k].start) < bound
    requires forall k :: 0 <= k < |b| ==> bound <= DayOf(b[k].start)
    ensures DaysNonDecreasing(a + b)
  {
    var r := a + b;
    forall k1, k2 | 0 <= k1 <= k2 < |r|
      ensures DayOf(r[k1].start) <= DayOf(r[k2].start)
    {
      if k1 >= |a| {
        assert r[k1] == b[k1 - |a|] && r[k2] == b[k2 - |a|];
        assert DayOf(b[k1 - |a|].start) <= DayOf(b[k2 - |a|].start);
      } else if k2 >= |a| {
        assert r[k2] == b[k2 - |a|];
      }
    }
  }

  /** Placements on weekdays between dates `lo` (inclusive) and `hi`
      (exclusive), between 09:00 and 16:59. */
  ghost predicate WithinWorkdays(r: seq<ScheduledAction>, lo: int, hi: int)
  {
    forall k :: 0 <= k < |r| ==>
      lo <= DayOf(r[k].start) < hi && IsWeekdayDate(DayOf(r[k].start)) && 9 <= Hour(r[k].start) < 17
  }

  lemma WithinWorkdaysConcat(a: seq<ScheduledAction>, b: seq<ScheduledAction>, lo: int, mid: int, hi: int)
    requires WithinWorkdays(a, lo, mid) && WithinWorkdays(b, mid, hi) && lo <= mid <= hi
    ensures WithinWorkdays(a + b, lo, hi)
  {
    forall k | 0 <= k < |a + b|
      ensures lo <= DayOf((a + b)[k].start) < hi
      ensures IsWeekdayDate(DayOf((a + b)[k].start)) && 9 <= Hour((a + b)[k].start) < 17
    {
      if k >= |a| {
        assert (a + b)[k] == b[k - |a|];
      }
    }
  }

  /** A phase's placements as the ladder needs them: within its own days on
      weekday working hours, and in date order. */
  lemma PhasePlanWithin(acts: seq<int>, phaseStart: int, durationWeeks: int, number: int, minutes: seq<int>)
    requires |minutes| >= |acts| && forall i :: 0 <= i < |minutes| ==> 0 <= minutes[i] < 60
    ensures var r := PhasePlan(acts, phaseStart, durationWeeks, number, minutes);
      WithinWorkdays(r, phaseStart, phaseStart + PhaseDays(durationWeeks)) && DaysNonDecreasing(r)
  {
    PhasePlanProperties(acts, phaseStart, durationWeeks, number, minutes);
  }

  /** With every phase at least a week long, each phase's placements fall in
      its own weeks, so the whole ladder's placements lie between the campaign
      start and the end of the last phase, on weekdays between 09:00 and
      16:59, with dates that never go back: every placement of an earlier
      phase comes before every placement of a later one. */
  lemma {:induction false} EscalationPlanInOrder(
    phases: seq<Models.Phase>, campaignStart: int, actionsPerPhase: map<int, seq<int>>, minutes: seq<int>)
    requires |minutes| >= ListedTotal(phases, actionsPerPhase)
    requires forall i :: 0 <= i < |minutes| ==> 0 <= minutes[i] < 60
    requires forall i :: 0 <= i < |phases| ==> phases[i].durationWeeks >= 1
    ensures var r := EscalationPlan(phases, campaignStart, actionsPerPhase, minutes);
      WithinWorkdays(r, campaignStart, PhaseStartDay(campaignStart, phases, |phases|)) && DaysNonDecreasing(r)
  {
    if |phases| > 0 {
      var n := |phases| - 1;
      var init := phases[..n];
      EscalationPlanInOrder(init, campaignStart, actionsPerPhase, minutes);
      EscalationPlanInOrderStep(phases, campaignStart, actionsPerPhase, minutes);
    }
  }

  /** The last phase's placements follow the earlier phases' in order and
      within the ladder's weeks. */
  lemma EscalationPlanInOrderStep(
    phases: seq<Models.Phase>, campaignStart: int, actionsPerPhase: map<int, seq<int>>, minutes: seq<int>)
    requires |phases| > 0 && |minutes| >= ListedTotal(phases, actionsPerPhase)
    requires forall i :: 0 <= i < |minutes| ==> 0 <= minutes[i] < 60
    requires forall i :: 0 <= i < |phases| ==> phases[i].durationWeeks >= 1
    requires var init := phases[..|phases| - 1];
      ListedTotal(init, actionsPerPhase) <= |minutes| &&
      var prior := EscalationPlan(init, campaignStart, actionsPerPhase, minutes);
      WithinWorkdays(prior, campaignStart, PhaseStartDay(campaignStart, init, |init|)) && DaysNonDecreasing(prior)
    ensures var r := EscalationPlan(phases, campaignStart, actionsPerPhase, minutes);
      WithinWorkdays(r, campaignStart, PhaseStartDay(campaignStart, phases, |phases|)) && DaysNonDecreasing(r)
  {
    var n := |phases| - 1;
    var init := phases[..n];
    assert init[..n] == init && phases[..|phases|] == phases;
    var prior := EscalationPlan(init, campaignStart, actionsPerPhase, minutes);
    var acts := PhaseActions(actionsPerPhase, phases[n].number);
    var ps := PhaseStartDay(campaignStart, phases, n);
    var mins := minutes[|prior|..];
    var last := PhasePlan(acts, ps, phases[n].durationWeeks, phases[n].number, mins);
    Models.SumWeeksOfPositive(init);
    PhasePlanWithin(acts, ps, phases[n].durationWeeks, phases[n].number, mins);
    assert PhaseStartDay(campaignStart, phases, |phases|) == ps + PhaseDays(phases[n].durationWeeks);
    DaysNonDecreasingConcat(prior, last, ps);
    WithinWorkdaysConcat(prior, last, campaignStart, ps, ps + PhaseDays(phases[n].durationWeeks));
  }

  /** Phase `i + 1` starts `duration_weeks` weeks after phase `i`. */
  lemma PhaseStartNext(campaignStart: int, phases: seq<Models.Phase>, i: nat)
    requires i < |phases|
    ensures PhaseStartDay(campaignStart, phases, i + 1)
         == PhaseStartDay(campaignStart, phases, i) + 7 * phases[i].durationWeeks
  {
    assert phases[..i + 1][..i] == phases[..i];
  }

  /** With every phase at least a week long, a later phase starts at least a
      week per phase in between after an earlier one. */
  lemma {:induction false} PhaseStartsGrow(campaignStart: int, phases: seq<Models.Phase>, i: nat, j: nat)
    requires i <= j <= |phases|
    requires forall p :: 0 <= p < |phases| ==> phases[p].durationWeeks >= 1
    ensures PhaseStartDay(campaignStart, phases, i) + 7 * (j - i) <= PhaseStartDay(campaignStart, phases, j)
    decreases j - i
  {
    if i < j {
      PhaseStartNext(campaignStart, phases, j - 1);
      PhaseStartsGrow(campaignStart, phases, i, j - 1);
    }
  }

  /** With every phase at least a week long, every placement of an earlier
      phase falls on a strictly earlier date than every placement of a later
      one, whatever minutes the two phases draw. */
  lemma PhasesInStrictOrder(
    phases: seq<Models.Phase>, campaignStart: int, actionsPerPhase: map<int, seq<int>>,
    i: nat, j: nat, minutesI: seq<int>, minutesJ: seq<int>)
    requires i < j < |phases|
    requires forall p :: 0 <= p < |phases| ==> phases[p].durationWeeks >= 1
    requires |minutesI| >= |PhaseActions(actionsPerPhase, phases[i].number)|
    requires |minutesJ| >= |PhaseActions(actionsPerPhase, phases[j].number)|
    requires forall m :: 0 <= m < |minutesI| ==> 0 <= minutesI[m] < 60
    requires forall m :: 0 <= m < |minutesJ| ==> 0 <= minutesJ[m] < 60
    ensures var a := PhasePlan(PhaseActions(actionsPerPhase, phases[i].number),
                               PhaseStartDay(campaignStart, phases, i), phases[i].durationWeeks,
                               phases[i].number, minutesI);
      var b := PhasePlan(PhaseActions(actionsPerPhase, phases[j].number),
                         PhaseStartDay(campaignStart, phases, j), phases[j].durationWeeks,
                         phases[j].number, minutesJ);
      forall k1, k2 :: 0 <= k1 < |a| && 0 <= k2 < |b| ==> DayOf(a[k1].start) < DayOf(b[k2].start)
  {
    var si := PhaseStartDay(campaignStart, phases, i);
    var sj := PhaseStartDay(campaignStart, phases, j);
    PhasePlanWithin(PhaseActions(actionsPerPhase, phases[i].number), si, phases[i].durationWeeks,
                    phases[i].number, minutesI);
    PhasePlanWithin(PhaseActions(actionsPerPhase, phases[j].number), sj, phases[j].durationWeeks,
                    phases[j].number, minutesJ);
    PhaseStartNext(campaignStart, phases, i);
    PhaseStartsGrow(campaignStart, phases, i + 1, j);
    assert si + PhaseDays(phases[i].durationWeeks) <= sj;
  }

  /** `schedule_escalation_sequence`: the phases in list order, each starting
      when the previous one's weeks are over. `minutes` holds the
      `randint(0, 59)` drawn for each placement in turn. */
  method ScheduleEscalationSequence(
    phases: seq<Models.Phase>, campaignStart: int, actionsPerPhase: map<int, seq<int>>, minutes: seq<int>)
    returns (r: seq<ScheduledAction>)
    requires |minutes| >= ListedTotal(phases, actionsPerPhase)
    ensures r == EscalationPlan(phases, campaignStart, actionsPerPhase, minutes)
  {
    r := [];
    var phaseStart := campaignStart;
    var i := 0;
    while i < |phases|
      invariant 0 <= i <= |phases|
      invariant ListedTotal(phases[..i], actionsPerPhase) <= ListedTotal(phases, actionsPerPhase)
      invariant phaseStart == PhaseStartDay(campaignStart, phases, i)
      invariant r == EscalationPlan(phases[..i], campaignStart, actionsPerPhase, minutes)
    {
      r, phaseStart := PlacePhase(phases, campaignStart, actionsPerPhase, minutes, i, r, phaseStart);
      i := i + 1;
    }
    assert phases[..i] == phases;
  }

  /** The loop body of `schedule_escalation_sequence`: phase `i`'s actions,
      when it has any, placed from its start day with the next minutes. */
  method PlacePhase(
    phases: seq<Models.Phase>, campaignStart: int, actionsPerPhase: map<int, seq<int>>, minutes: seq<int>,
    i: nat, r: seq<ScheduledAction>, phaseStart: int)
    returns (r': seq<ScheduledAction>, phaseStart': int)
    requires i < |phases| && |minutes| >= ListedTotal(phases, actionsPerPhase)
    requires ListedTotal(phases[..i], actionsPerPhase) <= ListedTotal(phases, actionsPerPhase)
    requires phaseStart == PhaseStartDay(campaignStart, phases, i)
    requires r == EscalationPlan(phases[..i], campaignStart, actionsPerPhase, minutes)
    ensures ListedTotal(phases[..i + 1], actionsPerPhase) <= ListedTotal(phases, actionsPerPhase)
    ensures phaseStart' == PhaseStartDay(campaignStart, phases, i + 1)
    ensures r' == EscalationPlan(phases[..i + 1], campaignStart, actionsPerPhase, minutes)
  {
    var phase := phases[i];
    var acts := PhaseActions(actionsPerPhase, phase.number);
    ListedTotalOfPrefix(phases, actionsPerPhase, i + 1);
    EscalationPlanSnoc(phases, campaignStart, actionsPerPhase, minutes, i);
    r' := r;
    if |acts| > 0 {
      var placed := DistributePhase(acts, phaseStart, phase.durationWeeks, phase.number, minutes[|r|..]);
      r' := r + placed;
    }
    phaseStart' := phaseStart + 7 * phase.durationWeeks;
  }

  /** The ladder's placements up to phase `i` are those up to the phase
      before it followed by phase `i`'s own, which are none when it has no
      actions. */
  lemma EscalationPlanSnoc(
    phases: seq<Models.Phase>, campaignStart: int, actionsPerPhase: map<int, seq<int>>, minutes: seq<int>, i: nat)
    requires i < |phases| && |minutes| >= ListedTotal(phases[..i + 1], actionsPerPhase)
    ensures ListedTotal(phases[..i + 1], actionsPerPhase)
      == ListedTotal(phases[..i], actionsPerPhase) + |PhaseActions(actionsPerPhase, phases[i].number)|
    ensures var prior := EscalationPlan(phases[..i], campaignStart, actionsPerPhase, minutes);
      var acts := PhaseActions(actionsPerPhase, phases[i].number);
      && |minutes| - |prior| >= |acts|
      && EscalationPlan(phases[..i + 1], campaignStart, actionsPerPhase, minutes)
         == prior + PhasePlan(acts, PhaseStartDay(campaignStart, phases, i), phases[i].durationWeeks,
              phases[i].number, minutes[|prior|..])
      && (|acts| == 0 ==> EscalationPlan(phases[..i + 1], campaignStart, actionsPerPhase, minutes) == prior)
      && PhaseStartDay(campaignStart, phases, i + 1)
         == PhaseStartDay(campaignStart, phases, i) + 7 * phases[i].durationWeeks
  {
    var prefix := phases[..i + 1];
    assert prefix[..i] == phases[..i];
    assert PhaseStartDay(campaignStart, prefix, i) == PhaseStartDay(campaignStart, phases, i);
  }

  /** The ids drawn by a prefix of the ladder are no more than those of the whole ladder. */
  lemma {:induction false} ListedTotalOfPrefix(phases: seq<Models.Phase>, actionsPerPhase: map<int, seq<int>>, i: nat)
    requires i <= |phases|
    ensures ListedTotal(phases[..i], actionsPerPhase) <= ListedTotal(phases, actionsPerPhase)
    decreases |phases|
  {
    if i < |phases| {
      var n := |phases| - 1;
      assert phases[..n][..i] == phases[..i];
      ListedTotalOfPrefix(phases[..n], actionsPerPhase, i);
    } else {
      assert phases[..i] == phases;
    }
  }
}
