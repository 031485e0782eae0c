/** `get_schedule_summary`: counts per date, type and batch, the extremes and
    the busiest date of a list of placements. */
module Summaries {

  import opened Base
  import opened Clock
  import opened Tally
  import opened Scheduler
  import opened SummaryValue

  /** `get_schedule_summary`: one pass over the placements bumping the three
      dictionaries, then the extremes and the peak. */
  method GetScheduleSummary(sas: seq<ScheduledAction>) returns (s: Summary)
    ensures s == ScheduleSummary(sas)
    // an empty schedule reports only its total of zero
    ensures s.EmptySummary? <==> |sas| == 0
  {
    if |sas| == 0 {
      return EmptySummary;
    }
    var byDate, dateOrder, byType, typeOrder, byBatch, batchOrder := TallyPlacements(sas);
    OrderIsCounted(DateKeys(sas));
    var dates := Starts(sas);
    var first := SeqMin(dates);
    var last := SeqMax(dates);
    var peakDate := dateOrder[PeakIndex(dateOrder, byDate)];
    var peak := MaxOver(dateOrder, byDate);
    s := Summary(|sas|, first, last, DaysBetween(first, last),
      byDate, dateOrder, byType, typeOrder, byBatch, batchOrder, peakDate, peak);
    SummaryOfTallies(sas, s);
  }

  /** A summary whose dictionaries are the tallies of the placements, whose
      extremes are those of their starts and whose peak is the tallied peak
      is the schedule's summary. */
  lemma SummaryOfTallies(sas: seq<ScheduledAction>, s: Summary)
    requires |sas| > 0 && s.Summary?
    requires Tallied(s.byDate, s.dateOrder, DateKeys(sas))
    requires Tallied(s.byType, s.typeOrder, TypeKeys(sas))
    requires Tallied(s.byBatch, s.batchOrder, BatchKeys(sas))
    requires s.total == |sas| && s.start == SeqMin(Starts(sas)) && s.end == SeqMax(Starts(sas))
    requires s.durationDays == DaysBetween(s.start, s.end)
    requires forall k :: k in s.dateOrder ==> k in s.byDate
    requires s.peakDate == s.dateOrder[PeakIndex(s.dateOrder, s.byDate)]
    requires s.peakCount == MaxOver(s.dateOrder, s.byDate)
    ensures s == ScheduleSummary(sas)
  {
    // field by field: the datatype equality alone is too much for the solver at once
    var e, keys := ScheduleSummary(sas), DateKeys(sas);
    assert e.total == s.total && e.start == s.start && e.end == s.end;
    assert e.durationDays == s.durationDays;
    assert e.byDate == s.byDate && e.dateOrder == s.dateOrder;
    assert e.byType == s.byType && e.typeOrder == s.typeOrder;
    assert e.byBatch == s.byBatch && e.batchOrder == s.batchOrder;
    assert e.peakDate == PeakKey(keys) == s.peakDate && e.peakCount == PeakCount(keys) == s.peakCount;
  }

  /** The counting loop of `get_schedule_summary`: each placement bumps its
      date, its type and its batch (when it has one); the orders are the
      dictionaries' insertion orders. */
  method TallyPlacements(sas: seq<ScheduledAction>)
    returns (byDate: map<int, int>, dateOrder: seq<int>, byType: map<string, int>, typeOrder: seq<string>,
             byBatch: map<Batch, int>, batchOrder: seq<Batch>)
    ensures Tallied(byDate, dateOrder, DateKeys(sas))
    ensures Tallied(byType, typeOrder, TypeKeys(sas))
    ensures Tallied(byBatch, batchOrder, BatchKeys(sas))
  {
    byDate, dateOrder, byType, typeOrder, byBatch, batchOrder := map[], [], map[], [], map[], [];
    var i := 0;
    while i < |sas|
      invariant 0 <= i <= |sas|
      invariant Tallied(byDate, dateOrder, DateKeys(sas[..i]))
      invariant Tallied(byType, typeOrder, TypeKeys(sas[..i]))
      invariant Tallied(byBatch, batchOrder, BatchKeys(sas[..i]))
    {
      byDate, dateOrder := CountDate(sas, i, byDate, dateOrder);
      byType, typeOrder := CountType(sas, i, byType, typeOrder);
      byBatch, batchOrder := CountBatch(sas, i, byBatch, batchOrder);
      i := i + 1;
    }
    assert sas[..i] == sas;
  }

  /** The date count of one more placement. */
  method CountDate(sas: seq<ScheduledAction>, i: nat, m: map<int, int>, order: seq<int>)
    returns (m': map<int, int>, order': seq<int>)
    requires i < |sas| && Tallied(m, order, DateKeys(sas[..i]))
    ensures Tallied(m', order', DateKeys(sas[..i + 1]))
  {
    DateTallyStep(sas, i, m, order);
    m', order' := BumpOrdered(m, order, DayOf(sas[i].start));
  }

  /** The type count of one more placement. */
  method CountType(sas: seq<ScheduledAction>, i: nat, m: map<string, int>, order: seq<string>)
    returns (m': map<string, int>, order': seq<string>)
    requires i < |sas| && Tallied(m, order, TypeKeys(sas[..i]))
    ensures Tallied(m', order', TypeKeys(sas[..i + 1]))
  {
    TypeTallyStep(sas, i, m, order);
    m', order' := BumpOrdered(m, order, sas[i].actionType);
  }

  /** The batch count of one more placement: bumped only when it has a batch. */
  method CountBatch(sas: seq<ScheduledAction>, i: nat, m: map<Batch, int>, order: seq<Batch>)
    returns (m': map<Batch, int>, order': seq<Batch>)
    requires i < |sas| && Tallied(m, order, BatchKeys(sas[..i]))
    ensures Tallied(m', order', BatchKeys(sas[..i + 1]))
  {
    BatchTallyStep(sas, i, m, order);
    m', order' := m, order;
    if sas[i].batch.Some? {
      m', order' := BumpOrdered(m, order, sas[i].batch.value);
    }
  }

  /** The totals of a non-empty schedule's summary: `total` is the number of
      placements, the date and type counts add up to it and the batch counts
      to at most it. */
  lemma SummarySums(sas: seq<ScheduledAction>)
    requires |sas| > 0
    ensures var s := ScheduleSummary(sas);
      && s.Summary? && s.total == |sas|
      && SumOver(s.dateOrder, s.byDate) == |sas|
      && SumOver(s.typeOrder, s.byType) == |sas|
      && SumOver(s.batchOrder, s.byBatch) <= |sas|
  {
    CountsSum(DateKeys(sas));
    CountsSum(TypeKeys(sas));
    CountsSum(BatchKeys(sas));
  }

  /** The date dictionary of a non-empty schedule's summary holds the start
      dates of its placements, each with the number of placements starting
      on it, and lists each date once; the same holds for the types. */
  lemma SummaryDates(sas: seq<ScheduledAction>)
    requires |sas| > 0
    ensures var s := ScheduleSummary(sas);
      && s.Summary?
      && (forall d :: d in s.byDate <==> d in DateKeys(sas))
      && (forall d :: d in s.byDate ==> s.byDate[d] == multiset(DateKeys(sas))[d])
      && Distinct(s.dateOrder) && (forall d :: d in s.dateOrder <==> d in s.byDate)
      && (forall t :: t in s.byType <==> t in TypeKeys(sas))
      && (forall t :: t in s.byType ==> s.byType[t] == multiset(TypeKeys(sas))[t])
  {
    CountsFacts(DateKeys(sas));
    CountsFacts(TypeKeys(sas));
  }

  /** The start and end of a non-empty schedule's summary are its earliest
      and latest starts, so the duration is not negative. */
  lemma SummaryExtremes(sas: seq<ScheduledAction>)
    requires |sas| > 0
    ensures var s := ScheduleSummary(sas);
      && s.Summary?
      && (forall k :: 0 <= k < |sas| ==> s.start <= sas[k].start <= s.end)
      && (exists k :: 0 <= k < |sas| && sas[k].start == s.start)
      && (exists k :: 0 <= k < |sas| && sas[k].start == s.end)
      && s.durationDays >= 0
  {
  }

  /** The peak of a non-empty schedule's summary: a date with the highest
      count, `peak_count` being that count, and the first such date in
      dictionary order. */
  lemma SummaryPeak(sas: seq<ScheduledAction>)
    requires |sas| > 0
    ensures var s := ScheduleSummary(sas);
      && s.Summary? && s.peakDate in s.byDate && s.byDate[s.peakDate] == s.peakCount
      && (forall d :: d in s.byDate ==> s.byDate[d] <= s.peakCount)
      && IsFirstPeak(s.dateOrder, s.byDate, s.peakDate, s.peakCount)
  {
    PeakFacts(DateKeys(sas));
  }
}
