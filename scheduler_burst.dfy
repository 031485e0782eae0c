/** `schedule_social_burst`: posts spread evenly over a platform's window
    around a burst time. */
module BurstSchedule {

  import opened Base
  import opened Clock
  import opened Scheduler

  /** The posting window, in minutes, of each platform. */
  function PlatformWindow(platform: string): (m: int)
    ensures 10 <= m <= 30
  {
    if platform == "twitter" then 10
    else if platform == "instagram" then 15
    else if platform == "tiktok" then 20
    else if platform == "linkedin" then 30
    else 15
  }

  /** The fixed fields of the burst post for action `id`. */
  predicate IsBurstPost(a: ScheduledAction, id: int, burstTime: int)
  {
    a.actionId == id && a.actionType == "social_post" && a.priority == 1
    && a.batch == Some(SocialBurst(burstTime)) && a.end == a.start + 5
  }

  /** `schedule_social_burst`: one post per id, spread evenly across the
      platform's window starting `pre` minutes before the burst time. */
  method ScheduleSocialBurst(ids: seq<int>, burstTime: int, preBurstMinutes: int, platform: string)
    returns (r: seq<ScheduledAction>)
    ensures |r| == |ids|
    ensures forall k :: 0 <= k < |r| ==> IsBurstPost(r[k], ids[k], burstTime)
    ensures forall k :: 0 <= k < |r| ==>
      r[k].start == burstTime - preBurstMinutes + SpreadOffset(PlatformWindow(platform), k, Max(|ids|, 1))
    ensures forall k :: 0 <= k < |r| ==>
      burstTime - preBurstMinutes <= r[k].start < burstTime - preBurstMinutes + PlatformWindow(platform)
    ensures forall k1, k2 :: 0 <= k1 <= k2 < |r| ==> r[k1].start <= r[k2].start
    ensures |r| > 0 ==> r[0].start == burstTime - preBurstMinutes
  {
    var window := PlatformWindow(platform);
    var burstStart := burstTime - preBurstMinutes;
    var n := if |ids| > 1 then |ids| else 1;
    r := [];
    var i := 0;
    while i < |ids|
      invariant 0 <= i <= |ids| && |r| == i
      invariant forall k :: 0 <= k < i ==>
        IsBurstPost(r[k], ids[k], burstTime) && r[k].start == burstStart + SpreadOffset(window, k, n)
    {
      var post := burstStart + SpreadOffset(window, i, n);
      r := r + [ScheduledAction(ids[i], "social_post", post, post + 5, 1, Some(SocialBurst(burstTime)))];
      i := i + 1;
    }
    forall k1, k2 | 0 <= k1 <= k2 < |r|
      ensures burstStart <= r[k1].start <= r[k2].start < burstStart + window
    {
      SpreadOffsetBounds(window, k1, k2, n);
    }
    if |r| > 0 {
      SpreadOffsetBounds(window, 0, 0, n);
    }
  }
}
