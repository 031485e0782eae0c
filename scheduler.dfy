/** The action scheduler: turns lists of action ids into dated placements.

    Instants and dates follow the `Clock` module. Every `random.randint` of
    the scheduler is an injected sequence of integers within the bounds the
    scheduler draws from; the batch identifiers, which the scheduler formats as
    strings with ISO dates, are a tag plus a day number or an instant. */
module Scheduler {

  import opened Base
  import opened Clock
  import opened Tally
  import Models

  /** `batch_id`: `email-batch-<date>`, `social-burst-<instant>`, `calls-<date>`,
      `phase-<n>-<date>`, `comment-early`, `comment-middle`, `comment-rampup`. */
  datatype Batch =
    | EmailBatch(day: int)
    | SocialBurst(anchor: int)
    | Calls(day: int)
    | PhaseBatch(phase: int, day: int)
    | CommentEarly
    | CommentMiddle
    | CommentRampup

  /** An action with its scheduled execution window (the free-text notes are
      not modelled). */
  datatype ScheduledAction = ScheduledAction(
    actionId: int,
    actionType: string,
    start: int,
    end: int,
    priority: int,
    batch: Option<Batch>)

  /** A time window for scheduling actions; only the blocked hours of the
      window's hour lists are ever read. */
  datatype ScheduleWindow = ScheduleWindow(start: int, end: int, blockedHours: set<int>)

  /** No scheduling between 22:00 and 07:00. */
  const DefaultBlockedHours: set<int> := {0, 1, 2, 3, 4, 5, 6, 22, 23}

  // ---------------------------------------------------------------------
  // Business-hour clock
  // ---------------------------------------------------------------------

  /** A weekday instant whose hour is not blocked. */
  predicate IsBusinessInstant(t: int, blocked: set<int>)
  {
    Hour(t) !in blocked && Weekday(t) < 5
  }

  /** One pass of the body of `_next_business_hour`'s loop: from a weekend day
      jump `7 - weekday` days to Monday 09:00, otherwise to 09:00 the next day. */
  function BusinessStep(t: int): int
  {
    if Weekday(t) >= 5 then At(DayOf(t) + 7 - Weekday(t), 9, 0)
    else At(DayOf(t) + 1, 9, 0)
  }

  /** `n` passes of that loop body. */
  function BusinessSteps(t: int, n: nat): int
  {
    if n == 0 then t else BusinessStep(BusinessSteps(t, n - 1))
  }

  /** Where `_next_business_hour` ends: the instant itself when it is a
      business instant, otherwise 09:00 on the first weekday after its date. */
  function NextBusinessInstant(t: int, blocked: set<int>): (r: int)
    requires 9 !in blocked || IsBusinessInstant(t, blocked)
    ensures IsBusinessInstant(r, blocked)
    ensures r >= t
    ensures IsBusinessInstant(t, blocked) <==> r == t
    ensures !IsBusinessInstant(t, blocked) ==>
      DayOf(r) == NextWeekday(DayOf(t)) && Hour(r) == 9 && Minute(r) == 0
  {
    if IsBusinessInstant(t, blocked) then t
    else
      AtParts(NextWeekday(DayOf(t)), 9, 0);
      EarlierDayEarlierInstant(t, At(NextWeekday(DayOf(t)), 9, 0));
      At(NextWeekday(DayOf(t)), 9, 0)
  }

  /** The distance of an instant from the loop's exit, for termination. */
  function BusinessRank(t: int, blocked: set<int>): nat
  {
    if IsBusinessInstant(t, blocked) then 0 else if Weekday(t) >= 5 then 1 else 2
  }

  /** The states `_next_business_hour`'s loop passes through from `t`: `t`
      itself, its final instant, or (from a Friday outside business hours)
      09:00 on Saturday. */
  ghost predicate BusinessLoopState(r: int, t: int, blocked: set<int>)
    requires 9 !in blocked || IsBusinessInstant(t, blocked)
  {
    r == t || (9 !in blocked && !IsBusinessInstant(t, blocked) &&
      (r == NextBusinessInstant(t, blocked) || (Weekday(t) == 4 && r == At(DayOf(t) + 1, 9, 0))))
  }

  /** One pass of the loop body keeps the loop in those states and brings it
      closer to its exit. */
  lemma BusinessStepKeepsState(r: int, t: int, blocked: set<int>)
    requires 9 !in blocked || IsBusinessInstant(t, blocked)
    requires BusinessLoopState(r, t, blocked) && !IsBusinessInstant(r, blocked)
    ensures BusinessLoopState(BusinessStep(r), t, blocked)
    ensures BusinessRank(BusinessStep(r), blocked) < BusinessRank(r, blocked)
  {
    var d := DayOf(r);
    if Weekday(r) >= 5 {
      WeekendJumpIsNextWeekday(d);
      AtParts(NextWeekday(d), 9, 0);
      assert BusinessStep(r) == At(NextWeekday(d), 9, 0);
      if r != t {
        // the Saturday 09:00 stop after a Friday
        assert d == DayOf(t) + 1 by { AtParts(DayOf(t) + 1, 9, 0); }
      }
    } else {
      AtParts(d + 1, 9, 0);
      assert r == t;
    }
  }

  /** `_next_business_hour`: advance past blocked hours and weekends. The
      loop only ends when 09:00 is an allowed hour or the instant is already a
      business instant (see `NineBlockedNeverSettles`). */
  method NextBusinessHour(t: int, blocked: set<int>) returns (r: int)
    requires 9 !in blocked || IsBusinessInstant(t, blocked)
    ensures r == NextBusinessInstant(t, blocked)
  {
    r := t;
    while Hour(r) in blocked || Weekday(r) >= 5
      invariant BusinessLoopState(r, t, blocked)
      decreases BusinessRank(r, blocked)
    {
      BusinessStepKeepsState(r, t, blocked);
      r := BusinessStep(r);
    }
  }

  /** With 09:00 blocked, no number of passes of the loop body ever reaches a
      business instant from one that is not: every pass lands on a 09:00. */
  lemma NineBlockedNeverSettles(t: int, blocked: set<int>, n: nat)
    requires 9 in blocked && !IsBusinessInstant(t, blocked)
    ensures !IsBusinessInstant(BusinessSteps(t, n), blocked)
  {
    if n > 0 {
      var p := BusinessSteps(t, n - 1);
      if Weekday(p) >= 5 {
        AtParts(DayOf(p) + 7 - Weekday(p), 9, 0);
      } else {
        AtParts(DayOf(p) + 1, 9, 0);
      }
    }
  }

  // ---------------------------------------------------------------------
  // Even spreading
  // ---------------------------------------------------------------------

  /** Item `i` of `n` spread evenly over a span: `span * i / n` units into
      it, rounded down. The burst spreads posts over minutes of the platform
      window, the comment period early and middle comments over 14 days. */
  function SpreadOffset(window: int, i: int, n: int): int
    requires n > 0
  {
    (window * i) / n
  }

  /** The offsets start at zero, stay inside the window and never decrease. */
  lemma SpreadOffsetBounds(window: nat, i: nat, j: nat, n: nat)
    requires i <= j < n
    ensures SpreadOffset(window, 0, n) == 0
    ensures 0 <= SpreadOffset(window, i, n) <= SpreadOffset(window, j, n)
    ensures window > 0 ==> SpreadOffset(window, j, n) < window
  {
    var pi, pj := window * i, window * j;
    assert 0 <= pi <= pj by {
      MulIsMonotone(0, i, window);
      MulIsMonotone(i, j, window);
    }
    DivIsMonotone(0, pi, n);
    DivIsMonotone(pi, pj, n);
    assert SpreadOffset(window, i, n) == pi / n && SpreadOffset(window, j, n) == pj / n;
    if window > 0 {
      SpreadOffsetBelowSpan(window, j, n);
    }
  }

  lemma SpreadOffsetBelowSpan(window: nat, j: nat, n: nat)
    requires j < n && window > 0
    ensures SpreadOffset(window, j, n) < window
  {
    var q := SpreadOffset(window, j, n);
    assert q * n <= window * j;
    MulIsMonotone(j, n - 1, window);
    assert window * j < window * n;
    MulCancelsStrictly(q, window, n);
  }
}
