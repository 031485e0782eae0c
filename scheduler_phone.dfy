/** `schedule_phone_bank`: calls at a fixed interval, moved into the target's
    calling hours. */
module PhoneSchedule {

  import opened Base
  import opened Clock
  import opened Scheduler

  /** Calling hours: 09:00 to 17:00 on a weekday. */
  predicate IsCallingInstant(t: int)
  {
    Weekday(t) < 5 && 9 <= Hour(t) < 17
  }

  /** One pass of the phone bank's skip loop: after 17:00 or on a weekend on
      to 09:00 the next day, otherwise (before 09:00) to 09:00 the same day. */
  function CallStep(t: int): int
  {
    if Hour(t) >= 17 || Weekday(t) >= 5 then At(DayOf(t) + 1, 9, 0) else At(DayOf(t), 9, 0)
  }

  /** The distance of an instant from the end of the skip loop, for termination. */
  function CallRank(t: int): nat
  {
    if IsCallingInstant(t) then 0
    else if Weekday(t) == 5 then 2
    else if Weekday(t) == 4 && Hour(t) >= 17 then 3
    else 1
  }

  /** Each pass of the skip loop moves an instant closer to calling hours:
      to 09:00 the same day, the next day, or from Friday evening to Saturday. */
  lemma CallStepProgresses(t: int)
    requires !IsCallingInstant(t)
    ensures CallRank(CallStep(t)) < CallRank(t)
    ensures CallStep(t) > t
  {
    InstantParts(t);
    if Hour(t) >= 17 || Weekday(t) >= 5 {
      AtParts(DayOf(t) + 1, 9, 0);
      EarlierDayEarlierInstant(t, At(DayOf(t) + 1, 9, 0));
    } else {
      AtParts(DayOf(t), 9, 0);
    }
  }

  /** Where the phone bank's skip loop leaves an instant: the loop run as a
      recursive function. */
  function CallSlot(t: int): (r: int)
    ensures IsCallingInstant(r) && r >= t
    decreases CallRank(t)
  {
    if IsCallingInstant(t) then t
    else
      CallStepProgresses(t);
      CallSlot(CallStep(t))
  }

  /** In closed form: the instant itself within calling hours, 09:00 the same
      day before them on a weekday, otherwise 09:00 on the next weekday. */
  lemma {:induction false} CallSlotClosedForm(t: int)
    ensures CallSlot(t) ==
      if IsCallingInstant(t) then t
      else if Weekday(t) < 5 && Hour(t) < 9 then At(DayOf(t), 9, 0)
      else At(NextWeekday(DayOf(t)), 9, 0)
    decreases CallRank(t)
  {
    if !IsCallingInstant(t) {
      var u := CallStep(t);
      if Hour(t) >= 17 || Weekday(t) >= 5 {
        AtParts(DayOf(t) + 1, 9, 0);
        CallSlotClosedForm(u);
        if !IsCallingInstant(u) {
          assert DayOf(u) == DayOf(t) + 1 && Hour(u) == 9;
          AtParts(NextWeekday(DayOf(u)), 9, 0);
        }
      } else {
        AtParts(DayOf(t), 9, 0);
        CallSlotClosedForm(u);
      }
    }
  }

  /** `CallSlot` is the earliest calling instant at or after `t`. */
  lemma CallSlotIsEarliest(t: int, u: int)
    requires t <= u < CallSlot(t)
    ensures !IsCallingInstant(u)
  {
    CallSlotClosedForm(t);
    var d := DayOf(t);
    InstantParts(t);
    InstantParts(u);
    DayOfIsMonotone(t, u);
    if Weekday(t) < 5 && Hour(t) < 9 {
      AtParts(d, 9, 0);
      assert DayOf(u) == d;
    } else {
      var nd := NextWeekday(d);
      AtParts(nd, 9, 0);
      assert DayOf(u) <= nd;
      if DayOf(u) == d {
        assert Weekday(t) >= 5 || Hour(t) >= 17;
      } else if DayOf(u) < nd {
        NextWeekdayIsFirst(d, DayOf(u));
      }
    }
  }

  /** The move of a start before 09:00 to 09:00 the same day does not change
      where the skip loop ends. */
  lemma EarlyMoveKeepsSlot(t: int)
    requires Hour(t) < 9
    ensures CallSlot(At(DayOf(t), 9, 0)) == CallSlot(t)
  {
    AtParts(DayOf(t), 9, 0);
    CallSlotClosedForm(t);
    CallSlotClosedForm(At(DayOf(t), 9, 0));
  }

  /** The skip loop of `schedule_phone_bank`. */
  method SkipToCallingHours(t: int) returns (u: int)
    ensures u == CallSlot(t)
  {
    u := t;
    while !(9 <= Hour(u) < 17 && Weekday(u) < 5)
      invariant CallSlot(u) == CallSlot(t)
      decreases CallRank(u)
    {
      CallStepProgresses(u);
      u := CallStep(u);
    }
  }

  /** `60 // max(calls_per_hour, 1)`. */
  function CallInterval(callsPerHour: int): (m: int)
    ensures 0 <= m <= 60
  {
    60 / Max(callsPerHour, 1)
  }

  /** The start of call `k` when nothing stops the bank: the first at the
      window start's calling slot, each later one at the calling slot of the
      previous start plus the interval. */
  function NthCallSlot(start: int, interval: int, k: nat): int
  {
    if k == 0 then CallSlot(start) else CallSlot(NthCallSlot(start, interval, k - 1) + interval)
  }

  /** Call slots are calling instants, and with a non-negative interval they
      never go backwards. */
  lemma {:induction false} NthCallSlotIsMonotone(start: int, interval: int, i: nat, j: nat)
    requires interval >= 0 && i <= j
    ensures IsCallingInstant(NthCallSlot(start, interval, j))
    ensures NthCallSlot(start, interval, i) <= NthCallSlot(start, interval, j)
    decreases j
  {
    if i < j {
      NthCallSlotIsMonotone(start, interval, i, j - 1);
    }
  }

  /** The fixed fields of the phone-bank call for action `id`. */
  predicate IsCall(a: ScheduledAction, id: int)
  {
    a.actionId == id && a.actionType == "phone_call" && a.priority == 2
    && a.end == a.start + 10 && a.batch == Some(Calls(DayOf(a.start)))
  }

  /** The calls placed so far: the `k`-th for the `k`-th id at the `k`-th
      call slot, none past the window's end. */
  ghost predicate CallsPlaced(r: seq<ScheduledAction>, ids: seq<int>, w: ScheduleWindow, interval: int)
  {
    |r| <= |ids|
    && forall k :: 0 <= k < |r| ==>
      IsCall(r[k], ids[k]) && r[k].start == NthCallSlot(w.start, interval, k) && r[k].start <= w.end
  }

  lemma CallsPlacedAppend(r: seq<ScheduledAction>, a: ScheduledAction, ids: seq<int>, w: ScheduleWindow, interval: int)
    requires |r| < |ids| && CallsPlaced(r, ids, w, interval)
    requires IsCall(a, ids[|r|]) && a.start == NthCallSlot(w.start, interval, |r|) && a.start <= w.end
    ensures CallsPlaced(r + [a], ids, w, interval)
  {
    assert forall k :: 0 <= k < |r| ==> (r + [a])[k] == r[k];
  }

  /** `schedule_phone_bank`: calls within weekday calling hours, one interval
      apart, until the next slot passes the window's end. */
  method SchedulePhoneBank(ids: seq<int>, w: ScheduleWindow, callsPerHour: int)
    returns (r: seq<ScheduledAction>)
    ensures |r| <= |ids|
    ensures forall k :: 0 <= k < |r| ==> IsCall(r[k], ids[k])
    ensures forall k :: 0 <= k < |r| ==> r[k].start == NthCallSlot(w.start, CallInterval(callsPerHour), k)
    ensures forall k :: 0 <= k < |r| ==> IsCallingInstant(r[k].start) && r[k].start <= w.end
    ensures forall k1, k2 :: 0 <= k1 <= k2 < |r| ==> r[k1].start <= r[k2].start
    // the bank stops only when the next slot is past the window's end
    ensures |r| < |ids| ==> NthCallSlot(w.start, CallInterval(callsPerHour), |r|) > w.end
  {
    var interval := CallInterval(callsPerHour);
    var cur := w.start;
    if Hour(cur) < 9 {
      EarlyMoveKeepsSlot(cur);
      cur := At(DayOf(cur), 9, 0);
    }
    r := [];
    var i := 0;
    while i < |ids|
      invariant i == |r| && CallsPlaced(r, ids, w, interval)
      invariant CallSlot(cur) == NthCallSlot(w.start, interval, i)
    {
      cur := SkipToCallingHours(cur);
      if cur > w.end {
        break;
      }
      var a := ScheduledAction(ids[i], "phone_call", cur, cur + 10, 2, Some(Calls(DayOf(cur))));
      CallsPlacedAppend(r, a, ids, w, interval);
      r := r + [a];
      cur := cur + interval;
      i := i + 1;
    }
    forall k1, k2 | 0 <= k1 <= k2 < |r|
      ensures IsCall(r[k2], ids[k2]) && r[k2].start == NthCallSlot(w.start, interval, k2)
      ensures IsCallingInstant(r[k2].start) && r[k2].start <= w.end
      ensures r[k1].start <= r[k2].start
    {
      NthCallSlotIsMonotone(w.start, interval, k1, k2);
    }
  }
}
