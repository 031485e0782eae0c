/** The summary of a schedule as a value: the keys it counts, the
    dictionaries counted from them and the busiest date. */
module SummaryValue {

  import opened Base
  import opened Clock
  import opened Tally
  import opened Scheduler

  /** The summary dictionary of a schedule. The three count dictionaries come
      with their keys in insertion order. */
  datatype Summary =
    | EmptySummary
    | Summary(
        total: nat, start: int, end: int, durationDays: int,
        byDate: map<int, int>, dateOrder: seq<int>,
        byType: map<string, int>, typeOrder: seq<string>,
        byBatch: map<Batch, int>, batchOrder: seq<Batch>,
        peakDate: int, peakCount: int)

  /** The start date of each placement, in order. */
  function DateKeys(sas: seq<ScheduledAction>): (keys: seq<int>)
    ensures |keys| == |sas| && forall k :: 0 <= k < |sas| ==> keys[k] == DayOf(sas[k].start)
  {
    if |sas| == 0 then []
    else
      var init := sas[..|sas| - 1];
      assert forall k :: 0 <= k < |init| ==> init[k] == sas[k];
      DateKeys(init) + [DayOf(sas[|sas| - 1].start)]
  }

  /** The action type of each placement, in order. */
  function TypeKeys(sas: seq<ScheduledAction>): (keys: seq<string>)
    ensures |keys| == |sas| && forall k :: 0 <= k < |sas| ==> keys[k] == sas[k].actionType
  {
    if |sas| == 0 then []
    else
      var init := sas[..|sas| - 1];
      assert forall k :: 0 <= k < |init| ==> init[k] == sas[k];
      TypeKeys(init) + [sas[|sas| - 1].actionType]
  }

  /** The batch ids of the placements that have one, in order. */
  function BatchKeys(sas: seq<ScheduledAction>): (keys: seq<Batch>)
    ensures |keys| <= |sas|
  {
    if |sas| == 0 then []
    else
      var init := sas[..|sas| - 1];
      var last := sas[|sas| - 1];
      assert forall k :: 0 <= k < |init| ==> init[k] == sas[k];
      BatchKeys(init) + (if last.batch.Some? then [last.batch.value] else [])
  }

  /** The start instant of each placement, in order. */
  function Starts(sas: seq<ScheduledAction>): (ts: seq<int>)
    ensures |ts| == |sas| && forall k :: 0 <= k < |sas| ==> ts[k] == sas[k].start
  {
    if |sas| == 0 then [] else [sas[0].start] + Starts(sas[1..])
  }

  /** `get_schedule_summary` as a value: the counts of the dictionaries built
      key by key, the earliest and latest start, and the first date (in
      dictionary order) with the highest count. */
  function ScheduleSummary(sas: seq<ScheduledAction>): Summary
  {
    if |sas| == 0 then EmptySummary
    else
      Summary(|sas|, SeqMin(Starts(sas)), SeqMax(Starts(sas)),
        DaysBetween(SeqMin(Starts(sas)), SeqMax(Starts(sas))),
        Counts(DateKeys(sas)), FirstSeen(DateKeys(sas)),
        Counts(TypeKeys(sas)), FirstSeen(TypeKeys(sas)),
        Counts(BatchKeys(sas)), FirstSeen(BatchKeys(sas)),
        PeakKey(DateKeys(sas)), PeakCount(DateKeys(sas)))
  }

  /** One more placement bumps its start date in the date dictionary. */
  lemma DateTallyStep(sas: seq<ScheduledAction>, i: nat, m: map<int, int>, order: seq<int>)
    requires i < |sas| && Tallied(m, order, DateKeys(sas[..i]))
    ensures var k := DayOf(sas[i].start);
      Tallied(Bump(m, k), if k in m then order else order + [k], DateKeys(sas[..i + 1]))
  {
    assert sas[..i + 1][..i] == sas[..i];
    TalliedSnoc(m, order, DateKeys(sas[..i]), DayOf(sas[i].start));
  }

  /** One more placement bumps its action type in the type dictionary. */
  lemma TypeTallyStep(sas: seq<ScheduledAction>, i: nat, m: map<string, int>, order: seq<string>)
    requires i < |sas| && Tallied(m, order, TypeKeys(sas[..i]))
    ensures var k := sas[i].actionType;
      Tallied(Bump(m, k), if k in m then order else order + [k], TypeKeys(sas[..i + 1]))
  {
    assert sas[..i + 1][..i] == sas[..i];
    TalliedSnoc(m, order, TypeKeys(sas[..i]), sas[i].actionType);
  }

  /** One more placement bumps its batch, when it has one, in the batch dictionary. */
  lemma BatchTallyStep(sas: seq<ScheduledAction>, i: nat, m: map<Batch, int>, order: seq<Batch>)
    requires i < |sas| && Tallied(m, order, BatchKeys(sas[..i]))
    ensures sas[i].batch.None? ==> Tallied(m, order, BatchKeys(sas[..i + 1]))
    ensures sas[i].batch.Some? ==> var k := sas[i].batch.value;
      Tallied(Bump(m, k), if k in m then order else order + [k], BatchKeys(sas[..i + 1]))
  {
    assert sas[..i + 1][..i] == sas[..i];
    if sas[i].batch.Some? {
      TalliedSnoc(m, order, BatchKeys(sas[..i]), sas[i].batch.value);
    } else {
      assert BatchKeys(sas[..i + 1]) == BatchKeys(sas[..i]);
    }
  }
}
