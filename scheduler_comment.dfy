/** `schedule_comment_period`: comments in three tiers before a regulatory
    deadline, the last tier ramping up quadratically towards it. */
module CommentSchedule {

  import opened Base
  import opened Clock
  import opened Scheduler

  /** `max(1, int(total * 0.2))`: the size of the early and of the middle tier. */
  function TierSize(total: nat): (e: nat)
    ensures e >= 1 && (total >= 1 ==> e <= total)
  {
    Max(1, total / 5)
  }

  /** `int((i / max(R - 1, 1)) ** 2 * (ramp_up_days - 1))`: the day offset of
      ramp-up comment `i` of `R`, computed on integers from the exact
      fraction, where the float product can fall just short of a whole day. */
  function RampDay(i: nat, rampCount: int, rampUpDays: int): int
  {
    var d := Max(rampCount - 1, 1);
    TruncDiv(i * i * (rampUpDays - 1), d * d)
  }

  /** With `ramp_up_days >= 1` the ramp-up offsets start at day 0, never
      decrease, stay at most `ramp_up_days - 1`, and the last one reaches it. */
  lemma RampDayBounds(i: nat, j: nat, rampCount: int, rampUpDays: int)
    requires i <= j < rampCount && rampUpDays >= 1
    ensures RampDay(0, rampCount, rampUpDays) == 0
    ensures 0 <= RampDay(i, rampCount, rampUpDays) <= RampDay(j, rampCount, rampUpDays) <= rampUpDays - 1
    ensures rampCount >= 2 ==> RampDay(rampCount - 1, rampCount, rampUpDays) == rampUpDays - 1
  {
    var d := Max(rampCount - 1, 1);
    var c := rampUpDays - 1;
    MulIsMonotone(1, d, d);
    var dd := d * d;
    assert 0 * 0 * c == 0;
    MulIsMonotone(i, j, i);
    MulIsMonotone(i, j, j);
    MulIsMonotone(j, d, j);
    MulIsMonotone(j, d, d);
    MulIsMonotone(0, i * i, c);
    MulIsMonotone(i * i, j * j, c);
    MulIsMonotone(j * j, dd, c);
    DivIsMonotone(0, i * i * c, dd);
    DivIsMonotone(i * i * c, j * j * c, dd);
    DivIsMonotone(j * j * c, dd * c, dd);
    DivOfMultiplePlus(dd, c, 0);
    assert dd * c == d * d * c;
  }

  /** Comment `k` of a period with at least two ids: the first `e` early at
      10 hours past the campaign start plus their spread day, the next `e` in
      the middle two weeks at 14 hours, the rest in the ramp-up at the drawn
      hour `hours[i]`. The campaign starts six weeks before the deadline. */
  function CommentAt(ids: seq<int>, deadline: int, rampUpDays: int, hours: seq<int>, k: nat): ScheduledAction
    requires k < |ids| <= |hours|
  {
    var e := TierSize(|ids|);
    var campaignStart := deadline - 6 * MinutesPerWeek;
    if k < e then
      var t := campaignStart + SpreadOffset(14, k, e) * MinutesPerDay + 10 * 60;
      ScheduledAction(ids[k], "public_comment", t, t + 120, 2, Some(CommentEarly))
    else if k < 2 * e then
      var t := campaignStart + 2 * MinutesPerWeek + SpreadOffset(14, k - e, e) * MinutesPerDay + 14 * 60;
      ScheduledAction(ids[k], "public_comment", t, t + 120, 5, Some(CommentMiddle))
    else
      var i := k - 2 * e;
      var t := deadline - rampUpDays * MinutesPerDay + RampDay(i, |ids| - 2 * e, rampUpDays) * MinutesPerDay + hours[i] * 60;
      ScheduledAction(ids[k], "public_comment", t, t + 120, 3, Some(CommentRampup))
  }

  /** What `schedule_comment_period` returns: nothing for no ids; one id makes
      the middle tier index past the list; otherwise one comment per id. */
  function CommentPlan(ids: seq<int>, deadline: int, rampUpDays: int, hours: seq<int>)
    : Result<seq<ScheduledAction>, string>
    requires |hours| >= |ids|
  {
    if |ids| == 0 then Ok([])
    else if |ids| == 1 then Err("list index out of range")
    else Ok(seq(|ids|, k requires 0 <= k < |ids| => CommentAt(ids, deadline, rampUpDays, hours, k)))
  }

  /** `schedule_comment_period`. `hours[i]` is the `randint(9, 16)` drawn for
      ramp-up comment `i`. */
  method ScheduleCommentPeriod(ids: seq<int>, deadline: int, rampUpDays: int, hours: seq<int>)
    returns (res: Result<seq<ScheduledAction>, string>)
    requires |hours| >= |ids|
    ensures res == CommentPlan(ids, deadline, rampUpDays, hours)
    // no ids give no comments, and a single id is the only error
    ensures |ids| == 0 ==> res == Ok([])
    ensures res.Err? <==> |ids| == 1
  {
    var total := |ids|;
    if total == 0 {
      assert CommentPlan(ids, deadline, rampUpDays, hours) == Ok([]);
      return Ok([]);
    }
    var earlyCount := Max(1, total / 5);
    var middleCount := Max(1, total / 5);
    var rampCount := total - earlyCount - middleCount;
    assert total >= 2 ==> 2 * earlyCount <= total;
    var campaignStart := deadline - 6 * MinutesPerWeek;
    var rampStart := deadline - rampUpDays * MinutesPerDay;
    var r: seq<ScheduledAction> := [];
    var idx := 0;
    // early comments
    var i := 0;
    while i < earlyCount
      invariant 0 <= i <= earlyCount && idx == i == |r|
      invariant forall k :: 0 <= k < |r| ==> r[k] == CommentAt(ids, deadline, rampUpDays, hours, k)
    {
      var t := campaignStart + SpreadOffset(14, i, earlyCount) * MinutesPerDay + 10 * 60;
      r := r + [ScheduledAction(ids[idx], "public_comment", t, t + 120, 2, Some(CommentEarly))];
      idx := idx + 1;
      i := i + 1;
    }
    // middle comments
    var middleStart := campaignStart + 2 * MinutesPerWeek;
    i := 0;
    while i < middleCount
      invariant 0 <= i <= middleCount && idx == earlyCount + i == |r| <= total
      invariant forall k :: 0 <= k < |r| ==> r[k] == CommentAt(ids, deadline, rampUpDays, hours, k)
    {
      if idx >= total {
        assert total == 1;
        assert CommentPlan(ids, deadline, rampUpDays, hours) == Err("list index out of range");
        return Err("list index out of range");
      }
      var t := middleStart + SpreadOffset(14, i, middleCount) * MinutesPerDay + 14 * 60;
      r := r + [ScheduledAction(ids[idx], "public_comment", t, t + 120, 5, Some(CommentMiddle))];
      idx := idx + 1;
      i := i + 1;
    }
    // ramp-up comments
    i := 0;
    while i < rampCount
      invariant 0 <= i && idx == earlyCount + middleCount + i == |r| <= total
      invariant forall k :: 0 <= k < |r| ==> r[k] == CommentAt(ids, deadline, rampUpDays, hours, k)
    {
      var t := rampStart + RampDay(i, rampCount, rampUpDays) * MinutesPerDay + hours[i] * 60;
      r := r + [ScheduledAction(ids[idx], "public_comment", t, t + 120, 3, Some(CommentRampup))];
      idx := idx + 1;
      i := i + 1;
    }
    assert total >= 2;
    ghost var plan := CommentPlan(ids, deadline, rampUpDays, hours).value;
    assert |r| == |plan| && forall k :: 0 <= k < |r| ==> r[k] == plan[k];
    assert r == plan;
    res := Ok(r);
  }

  /** With at least two ids there is one comment per id, in order: the first
      `max(1, total // 5)` early, the next as many in the middle, the rest in
      the ramp-up, each tier with its own priority and batch; early comments
      fall within the campaign's first two weeks and middle ones within the
      next two. */
  lemma CommentPlanTiers(ids: seq<int>, deadline: int, rampUpDays: int, hours: seq<int>)
    requires 2 <= |ids| <= |hours|
    ensures CommentPlan(ids, deadline, rampUpDays, hours).Ok?
    ensures var r := CommentPlan(ids, deadline, rampUpDays, hours).value;
      var e := TierSize(|ids|);
      var campaignStart := deadline - 6 * MinutesPerWeek;
      && |r| == |ids| && 2 * e <= |ids|
      && (forall k :: 0 <= k < |r| ==>
            r[k].actionId == ids[k] && r[k].actionType == "public_comment" && r[k].end == r[k].start + 120)
      && (forall k :: 0 <= k < e ==>
            r[k].priority == 2 && r[k].batch == Some(CommentEarly)
            && campaignStart <= r[k].start < campaignStart + 2 * MinutesPerWeek)
      && (forall k :: e <= k < 2 * e ==>
            r[k].priority == 5 && r[k].batch == Some(CommentMiddle)
            && campaignStart + 2 * MinutesPerWeek <= r[k].start < campaignStart + 4 * MinutesPerWeek)
      && (forall k :: 2 * e <= k < |r| ==> r[k].priority == 3 && r[k].batch == Some(CommentRampup))
  {
    var e := TierSize(|ids|);
    var r := CommentPlan(ids, deadline, rampUpDays, hours).value;
    forall k | 0 <= k < 2 * e
      ensures var cs := deadline - 6 * MinutesPerWeek;
        (k < e ==> cs <= r[k].start < cs + 2 * MinutesPerWeek)
        && (e <= k ==> cs + 2 * MinutesPerWeek <= r[k].start < cs + 4 * MinutesPerWeek)
    {
      var i := if k < e then k else k - e;
      SpreadOffsetBounds(14, i, i, e);
    }
  }

  /** The time of day of comment `k`: its tier's hour offset past the
      deadline's time of day; with a deadline at midnight, that hour itself. */
  lemma CommentAtHour(ids: seq<int>, deadline: int, rampUpDays: int, hours: seq<int>, k: nat)
    requires k < |ids| <= |hours|
    ensures var e := TierSize(|ids|);
      var c := if k < e then 10 else if k < 2 * e then 14 else hours[k - 2 * e];
      var t := CommentAt(ids, deadline, rampUpDays, hours, k).start;
      MinuteOfDay(t) == (MinuteOfDay(deadline) + c * 60) % MinutesPerDay
      && (MinuteOfDay(deadline) == 0 && 0 <= c < 24 ==> Hour(t) == c)
  {
    var e := TierSize(|ids|);
    var c := if k < e then 10 else if k < 2 * e then 14 else hours[k - 2 * e];
    var n := if k < e then SpreadOffset(14, k, e) - 42
             else if k < 2 * e then SpreadOffset(14, k - e, e) - 28
             else RampDay(k - 2 * e, |ids| - 2 * e, rampUpDays) - rampUpDays;
    var t := CommentAt(ids, deadline, rampUpDays, hours, k).start;
    assert t == deadline + n * MinutesPerDay + c * 60;
    ShiftedTimeOfDay(deadline, n, c * 60);
    if MinuteOfDay(deadline) == 0 && 0 <= c < 24 {
      assert MinuteOfDay(t) == c * 60;
    }
  }

  /** The time of day of each comment: early ones 10 hours and middle ones
      14 hours past the deadline's time of day, ramp-up ones their drawn hour
      past it. So with a deadline at midnight, early comments go out at
      10:00, middle ones at 14:00 and ramp-up ones at their drawn hour. */
  lemma CommentPlanHours(ids: seq<int>, deadline: int, rampUpDays: int, hours: seq<int>)
    requires 2 <= |ids| <= |hours|
    ensures var r := CommentPlan(ids, deadline, rampUpDays, hours).value;
      var e := TierSize(|ids|);
      && (forall k :: 0 <= k < e && k < |r| ==>
            MinuteOfDay(r[k].start) == (MinuteOfDay(deadline) + 10 * 60) % MinutesPerDay
            && (MinuteOfDay(deadline) == 0 ==> Hour(r[k].start) == 10))
      && (forall k :: e <= k < 2 * e && k < |r| ==>
            MinuteOfDay(r[k].start) == (MinuteOfDay(deadline) + 14 * 60) % MinutesPerDay
            && (MinuteOfDay(deadline) == 0 ==> Hour(r[k].start) == 14))
      && (forall k :: 2 * e <= k < |r| ==>
            MinuteOfDay(r[k].start) == (MinuteOfDay(deadline) + hours[k - 2 * e] * 60) % MinutesPerDay
            && (MinuteOfDay(deadline) == 0 && 0 <= hours[k - 2 * e] < 24 ==> Hour(r[k].start) == hours[k - 2 * e]))
  {
    var r := CommentPlan(ids, deadline, rampUpDays, hours).value;
    forall k | 0 <= k < |r| {
      CommentAtHour(ids, deadline, rampUpDays, hours, k);
    }
  }

  /** With `ramp_up_days >= 1` and drawn hours in 9..16, every comment ends
      before the deadline. */
  lemma CommentPlanBeforeDeadline(ids: seq<int>, deadline: int, rampUpDays: int, hours: seq<int>)
    requires 2 <= |ids| <= |hours| && rampUpDays >= 1
    requires forall i :: 0 <= i < |hours| ==> 9 <= hours[i] <= 16
    ensures var r := CommentPlan(ids, deadline, rampUpDays, hours).value;
      forall k :: 0 <= k < |r| ==> r[k].start + 120 < deadline
  {
    var e := TierSize(|ids|);
    var rc := |ids| - 2 * e;
    var r := CommentPlan(ids, deadline, rampUpDays, hours).value;
    forall k | 0 <= k < |r|
      ensures r[k].start + 120 < deadline
    {
      if k < 2 * e {
        var i := if k < e then k else k - e;
        SpreadOffsetBounds(14, i, i, e);
      } else {
        RampDayBounds(k - 2 * e, k - 2 * e, rc, rampUpDays);
      }
    }
  }
}
