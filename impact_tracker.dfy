/** The counting side of campaign impact tracking: what a campaign's actions
    add up to, the weekly completion timeline, press mentions by tier, and
    the trajectory of a target's responses to the campaign.

    Rates, weighted impact scores, velocity and averages are floating point
    and are not modelled; the whole numbers they are computed from are. */
module ImpactTracker {

  import opened Base
  import opened Models
  import opened Tally
  import opened Clock
  import opened Sorting

  // ---------------------------------------------------------------------
  // Filters over the action list

  /** `[a for a in actions if p(a)]`. */
  function Keep(actions: seq<Action>, p: Action -> bool): (r: seq<Action>)
    ensures |r| <= |actions|
  {
    if |actions| == 0 then []
    else Keep(actions[..|actions| - 1], p) + (if p(actions[|actions| - 1]) then [actions[|actions| - 1]] else [])
  }

  /** The kept actions are exactly those that pass the test. */
  lemma {:induction false} KeepMembers(actions: seq<Action>, p: Action -> bool)
    ensures forall a :: a in Keep(actions, p) <==> a in actions && p(a)
  {
    if |actions| > 0 {
      var init, last := actions[..|actions| - 1], actions[|actions| - 1];
      KeepMembers(init, p);
      assert forall a :: a in actions <==> a in init || a == last;
    }
  }

  /** Keeping by a weaker test keeps at least as many actions. */
  lemma {:induction false} KeepImplied(actions: seq<Action>, p: Action -> bool, q: Action -> bool)
    requires forall a :: p(a) ==> q(a)
    ensures |Keep(actions, p)| <= |Keep(actions, q)|
  {
    if |actions| > 0 {
      KeepImplied(actions[..|actions| - 1], p, q);
    }
  }

  /** Two tests that never both hold keep no more actions between them than
      there are. */
  lemma {:induction false} KeepDisjoint(actions: seq<Action>, p: Action -> bool, q: Action -> bool)
    requires forall a :: !(p(a) && q(a))
    ensures |Keep(actions, p)| + |Keep(actions, q)| <= |actions|
  {
    if |actions| > 0 {
      KeepDisjoint(actions[..|actions| - 1], p, q);
    }
  }

  /** Completed or verified. */
  predicate IsCompleted(a: Action)
  {
    a.status == Completed || a.status == Verified
  }

  predicate IsVerified(a: Action)
  {
    a.status == Verified
  }

  /** `Action.is_overdue` at the instant `now`: a deadline is set, the action
      is not done, and `now` is past the deadline. */
  predicate IsOverdue(a: Action, now: int)
  {
    a.deadline.Some? && !IsCompleted(a) && now > a.deadline.value
  }

  function OverdueAt(now: int): Action -> bool
  {
    a => IsOverdue(a, now)
  }

  function CompletedOf(actions: seq<Action>): seq<Action>
  {
    Keep(actions, IsCompleted)
  }

  function VerifiedOf(actions: seq<Action>): seq<Action>
  {
    Keep(actions, IsVerified)
  }

  function OverdueOf(actions: seq<Action>, now: int): seq<Action>
  {
    Keep(actions, OverdueAt(now))
  }

  /** Verified actions are among the completed ones, and an overdue action is
      never a completed one. */
  lemma StatusCounts(actions: seq<Action>, now: int)
    ensures |VerifiedOf(actions)| <= |CompletedOf(actions)| <= |actions|
    ensures |CompletedOf(actions)| + |OverdueOf(actions, now)| <= |actions|
    ensures forall a :: a in CompletedOf(actions) <==> a in actions && (a.status == Completed || a.status == Verified)
  {
    KeepImplied(actions, IsVerified, IsCompleted);
    KeepDisjoint(actions, IsCompleted, OverdueAt(now));
    KeepMembers(actions, IsCompleted);
  }

  // ---------------------------------------------------------------------
  // Counts by action type

  /** The action type of each action, in order. */
  function TypesOf(actions: seq<Action>): (r: seq<ActionType>)
    ensures |r| == |actions| && forall i :: 0 <= i < |actions| ==> r[i] == actions[i].actionType
  {
    if |actions| == 0 then [] else TypesOf(actions[..|actions| - 1]) + [actions[|actions| - 1].actionType]
  }

  /** `type_counts[a.action_type] += 1` for every action, into an empty
      `Counter`. */
  method CountTypes(actions: seq<Action>) returns (counts: map<ActionType, int>, order: seq<ActionType>)
    ensures Tallied(counts, order, TypesOf(actions))
  {
    counts, order := map[], [];
    assert TypesOf(actions[..0]) == [];
    for i := 0 to |actions|
      invariant Tallied(counts, order, TypesOf(actions[..i]))
    {
      counts, order := CountType(actions, i, counts, order);
    }
    assert actions[..|actions|] == actions;
  }

  /** `type_counts[a.action_type] += 1` for the `i`-th action. */
  method CountType(actions: seq<Action>, i: int, counts: map<ActionType, int>, order: seq<ActionType>)
    returns (counts': map<ActionType, int>, order': seq<ActionType>)
    requires 0 <= i < |actions| && Tallied(counts, order, TypesOf(actions[..i]))
    ensures Tallied(counts', order', TypesOf(actions[..i + 1]))
  {
    TypesPrefixStep(actions, i);
    TalliedSnoc(counts, order, TypesOf(actions[..i]), actions[i].actionType);
    counts', order' := BumpOrdered(counts, order, actions[i].actionType);
  }

  lemma TypesPrefixStep(actions: seq<Action>, i: int)
    requires 0 <= i < |actions|
    ensures TypesOf(actions[..i + 1]) == TypesOf(actions[..i]) + [actions[i].actionType]
  {
    assert actions[..i + 1][..i] == actions[..i];
  }

  lemma TypesSnoc(actions: seq<Action>, a: Action)
    ensures TypesOf(actions + [a]) == TypesOf(actions) + [a.actionType]
  {
    assert (actions + [a])[..|actions|] == actions;
  }

  /** The types of the kept actions are a sub-multiset of the types of all. */
  lemma {:induction false} KeepTypes(actions: seq<Action>, p: Action -> bool)
    ensures multiset(TypesOf(Keep(actions, p))) <= multiset(TypesOf(actions))
  {
    if |actions| > 0 {
      var init, last := actions[..|actions| - 1], actions[|actions| - 1];
      KeepTypes(init, p);
      var kept := Keep(init, p);
      var all := multiset(TypesOf(actions));
      assert all == multiset(TypesOf(init)) + multiset{last.actionType};
      if p(last) {
        assert Keep(actions, p) == kept + [last];
        TypesSnoc(kept, last);
        assert multiset(TypesOf(Keep(actions, p))) == multiset(TypesOf(kept)) + multiset{last.actionType};
      } else {
        assert Keep(actions, p) == kept;
      }
    }
  }

  /** No type has more completed actions than actions. */
  lemma CompletedWithinType(actions: seq<Action>, t: ActionType)
    ensures CountOf(Counts(TypesOf(CompletedOf(actions))), t) <= CountOf(Counts(TypesOf(actions)), t)
  {
    KeepTypes(actions, IsCompleted);
    CountOfCounts(TypesOf(CompletedOf(actions)), t);
    CountOfCounts(TypesOf(actions), t);
  }

  /** The completed actions of seven kinds the campaign reports on. */
  datatype ActivityCounts = ActivityCounts(
    emailsSent: int,
    callsMade: int,
    commentsFiled: int,
    reviewsPosted: int,
    foiaFiled: int,
    testimoniesGiven: int,
    socialPosts: int)

  /** `completed_type_counts.get(type, 0)` for each reported type. */
  function ActivityOf(done: map<ActionType, int>): ActivityCounts
  {
    ActivityCounts(
      CountOf(done, Email), CountOf(done, PhoneCall), CountOf(done, PublicComment), CountOf(done, Review),
      CountOf(done, FoiaRequest), CountOf(done, Testimony), CountOf(done, SocialPost))
  }

  function ActivityTotal(a: ActivityCounts): int
  {
    a.emailsSent + a.callsMade + a.commentsFiled + a.reviewsPosted + a.foiaFiled + a.testimoniesGiven + a.socialPosts
  }

  /** One more counted action adds at most one to the activity total. */
  lemma ActivityBump(done: map<ActionType, int>, t: ActionType)
    ensures ActivityTotal(ActivityOf(done)) <= ActivityTotal(ActivityOf(Bump(done, t))) <= ActivityTotal(ActivityOf(done)) + 1
  {
  }

  lemma {:induction false} ActivityBound(keys: seq<ActionType>)
    ensures 0 <= ActivityTotal(ActivityOf(Counts(keys))) <= |keys|
  {
    if |keys| > 0 {
      ActivityBound(keys[..|keys| - 1]);
      ActivityBump(Counts(keys[..|keys| - 1]), keys[|keys| - 1]);
    }
  }

  /** Each activity count is the number of completed actions of its type, and
      together they are at most the number of completed actions. */
  lemma ActivityWithinCompleted(actions: seq<Action>)
    ensures var keys := TypesOf(CompletedOf(actions));
      var a := ActivityOf(Counts(keys));
      a.emailsSent == multiset(keys)[Email] && a.callsMade == multiset(keys)[PhoneCall] &&
      a.commentsFiled == multiset(keys)[PublicComment] && a.reviewsPosted == multiset(keys)[Review] &&
      a.foiaFiled == multiset(keys)[FoiaRequest] && a.testimoniesGiven == multiset(keys)[Testimony] &&
      a.socialPosts == multiset(keys)[SocialPost] &&
      ActivityTotal(a) <= |CompletedOf(actions)|
  {
    var keys := TypesOf(CompletedOf(actions));
    CountsFacts(keys);
    ActivityBound(keys);
  }

  /** One entry of the per-type breakdown: how many actions of the type there
      are and how many of them are completed. */
  datatype TypeEntry = TypeEntry(actionType: ActionType, total: int, completed: int)

  /** `{t: {"total": totals[t], "completed": done.get(t, 0)} for t in order}`. */
  function Breakdown(order: seq<ActionType>, totals: map<ActionType, int>, done: map<ActionType, int>): seq<TypeEntry>
    requires forall t :: t in order ==> t in totals
  {
    seq(|order|, i requires 0 <= i < |order| => TypeEntry(order[i], totals[order[i]], CountOf(done, order[i])))
  }

  /** The breakdown over the type counts of all actions, in the order in which
      the types first occur. */
  function BreakdownOf(actions: seq<Action>): seq<TypeEntry>
  {
    var keys := TypesOf(actions);
    OrderIsCounted(keys);
    Breakdown(FirstSeen(keys), Counts(keys), Counts(TypesOf(CompletedOf(actions))))
  }

  /** The breakdown lists the types in the order in which they first occur. */
  lemma BreakdownOrder(actions: seq<Action>)
    ensures var b := BreakdownOf(actions); var order := FirstSeen(TypesOf(actions));
      |b| == |order| && forall i :: 0 <= i < |b| ==> b[i].actionType == order[i]
  {
  }

  /** The breakdown has one entry for each type present and no other, and no
      two entries share a type. */
  lemma BreakdownTypes(actions: seq<Action>)
    ensures var b := BreakdownOf(actions);
      (forall t :: t in TypesOf(actions) <==> exists i :: 0 <= i < |b| && b[i].actionType == t) &&
      (forall i, j :: 0 <= i < j < |b| ==> b[i].actionType != b[j].actionType)
  {
    var keys := TypesOf(actions);
    BreakdownOrder(actions);
    CountsFacts(keys);
    EntriesFollow(BreakdownOf(actions), FirstSeen(keys), keys);
  }

  /** Entries that follow a duplicate-free order of the keys list each key
      once. */
  lemma EntriesFollow(b: seq<TypeEntry>, order: seq<ActionType>, keys: seq<ActionType>)
    requires |b| == |order| && forall i :: 0 <= i < |b| ==> b[i].actionType == order[i]
    requires Distinct(order) && forall t :: t in order <==> t in keys
    ensures forall t :: t in keys <==> exists i :: 0 <= i < |b| && b[i].actionType == t
    ensures forall i, j :: 0 <= i < j < |b| ==> b[i].actionType != b[j].actionType
  {
    forall t ensures t in keys <==> exists i :: 0 <= i < |b| && b[i].actionType == t {
      if t in keys {
        var i :| 0 <= i < |order| && order[i] == t;
        assert b[i].actionType == t;
      }
    }
  }

  /** Each entry counts the actions and the completed actions of its type. */
  lemma BreakdownEntry(actions: seq<Action>, i: int)
    requires 0 <= i < |BreakdownOf(actions)|
    ensures var e := BreakdownOf(actions)[i];
      e.total == multiset(TypesOf(actions))[e.actionType] &&
      e.completed == multiset(TypesOf(CompletedOf(actions)))[e.actionType] &&
      0 <= e.completed <= e.total && 1 <= e.total
  {
    var keys := TypesOf(actions);
    var t := FirstSeen(keys)[i];
    CountsFacts(keys);
    assert t in keys;
    CompletedWithinType(actions, t);
    CountOfCounts(TypesOf(CompletedOf(actions)), t);
    CountOfCounts(keys, t);
  }

  /** The breakdown has one entry for each type present and no other; each
      entry counts the actions and the completed actions of its type. */
  lemma BreakdownFacts(actions: seq<Action>)
    ensures var b := BreakdownOf(actions);
      (forall t :: t in TypesOf(actions) <==> exists i :: 0 <= i < |b| && b[i].actionType == t) &&
      (forall i, j :: 0 <= i < j < |b| ==> b[i].actionType != b[j].actionType) &&
      (forall i :: 0 <= i < |b| ==>
         b[i].total == multiset(TypesOf(actions))[b[i].actionType] &&
         b[i].completed == multiset(TypesOf(CompletedOf(actions)))[b[i].actionType] &&
         0 <= b[i].completed <= b[i].total && 1 <= b[i].total)
  {
    BreakdownTypes(actions);
    forall i | 0 <= i < |BreakdownOf(actions)| {
      BreakdownEntry(actions, i);
    }
  }

  // ---------------------------------------------------------------------
  // Channel coverage

  /** `channel_map.get(t)`: the outreach channel an action type counts for. */
  function ChannelOf(t: ActionType): (r: Option<string>)
    ensures r.Some? ==> |r.value| > 0
  {
    match t
    case Email => Some("email")
    case PhoneCall => Some("phone")
    case SocialPost => Some("social_media")
    case PublicComment => Some("regulatory")
    case FoiaRequest => Some("legal")
    case Review => Some("consumer")
    case Testimony => Some("grassroots")
    case ShareholderAction => Some("shareholder")
    case ContentCreation => Some("media")
    case SeoArticle => Some("media")
    case CitizenSuit => Some("legal")
    case _ => None
  }

  /** `set(channel_map.values())`. */
  function ChannelMapValues(): set<string>
  {
    set t | t in AllActionTypes && ChannelOf(t).Some? :: ChannelOf(t).value
  }

  /** Eleven action types share nine channels. */
  lemma ChannelMapValuesCount()
    ensures ChannelMapValues() == {"email", "phone", "social_media", "regulatory", "legal", "consumer", "grassroots", "shareholder", "media"}
    ensures |ChannelMapValues()| == 9
  {
    var nine := {"email", "phone", "social_media", "regulatory", "legal", "consumer", "grassroots", "shareholder", "media"};
    assert |nine| == 9;
    ChannelMapValuesListed();
    NineChannelsUsed();
    assert ChannelMapValues() == nine;
  }

  lemma ChannelMapValuesListed()
    ensures ChannelMapValues() <= {"email", "phone", "social_media", "regulatory", "legal", "consumer", "grassroots", "shareholder", "media"}
  {
    forall t | ChannelOf(t).Some?
      ensures ChannelOf(t).value in {"email", "phone", "social_media", "regulatory", "legal", "consumer", "grassroots", "shareholder", "media"}
    {
    }
  }

  lemma NineChannelsUsed()
    ensures {"email", "phone", "social_media", "regulatory", "legal", "consumer", "grassroots", "shareholder", "media"} <= ChannelMapValues()
  {
    AllActionTypesComplete(Email);
    AllActionTypesComplete(PhoneCall);
    AllActionTypesComplete(SocialPost);
    AllActionTypesComplete(PublicComment);
    AllActionTypesComplete(FoiaRequest);
    AllActionTypesComplete(Review);
    AllActionTypesComplete(Testimony);
    AllActionTypesComplete(ShareholderAction);
    AllActionTypesComplete(ContentCreation);
    assert ChannelOf(Email).value in ChannelMapValues();
    assert ChannelOf(PhoneCall).value in ChannelMapValues();
    assert ChannelOf(SocialPost).value in ChannelMapValues();
    assert ChannelOf(PublicComment).value in ChannelMapValues();
    assert ChannelOf(FoiaRequest).value in ChannelMapValues();
    assert ChannelOf(Review).value in ChannelMapValues();
    assert ChannelOf(Testimony).value in ChannelMapValues();
    assert ChannelOf(ShareholderAction).value in ChannelMapValues();
    assert ChannelOf(ContentCreation).value in ChannelMapValues();
  }

  /** The channels of the actions: `channel_map.get(t)` of each action's
      type, when that is a non-empty string. */
  function ChannelsUsed(actions: seq<Action>): set<string>
  {
    if |actions| == 0 then {}
    else
      var channel := ChannelOf(actions[|actions| - 1].actionType);
      ChannelsUsed(actions[..|actions| - 1]) + (if channel.Some? && |channel.value| > 0 then {channel.value} else {})
  }

  /** `active_channels.add(channel)` for every completed action that has one. */
  method ActiveChannels(completed: seq<Action>) returns (active: set<string>)
    ensures active == ChannelsUsed(completed)
  {
    active := {};
    for i := 0 to |completed|
      invariant active == ChannelsUsed(completed[..i])
    {
      assert completed[..i + 1][..i] == completed[..i];
      var channel := ChannelOf(completed[i].actionType);
      if channel.Some? && |channel.value| > 0 {
        active := active + {channel.value};
      }
    }
    assert completed[..|completed|] == completed;
  }

  /** A channel is active exactly when some action maps to it. */
  lemma {:induction false} ChannelsFacts(actions: seq<Action>)
    ensures forall c :: c in ChannelsUsed(actions) <==> exists i :: 0 <= i < |actions| && ChannelOf(actions[i].actionType) == Some(c)
  {
    if |actions| > 0 {
      ChannelsFacts(actions[..|actions| - 1]);
      ChannelsStep(actions);
    }
  }

  lemma ChannelsStep(actions: seq<Action>)
    requires |actions| > 0
    requires var init := actions[..|actions| - 1];
      forall c :: c in ChannelsUsed(init) <==> exists i :: 0 <= i < |init| && ChannelOf(init[i].actionType) == Some(c)
    ensures forall c :: c in ChannelsUsed(actions) <==> exists i :: 0 <= i < |actions| && ChannelOf(actions[i].actionType) == Some(c)
  {
    var init := actions[..|actions| - 1];
    forall c ensures c in ChannelsUsed(actions) <==> exists i :: 0 <= i < |actions| && ChannelOf(actions[i].actionType) == Some(c) {
      if exists i :: 0 <= i < |actions| && ChannelOf(actions[i].actionType) == Some(c) {
        var i :| 0 <= i < |actions| && ChannelOf(actions[i].actionType) == Some(c);
        if i < |init| {
          assert init[i] == actions[i];
        }
      }
      if c in ChannelsUsed(init) {
        var i :| 0 <= i < |init| && ChannelOf(init[i].actionType) == Some(c);
        assert actions[i] == init[i];
      }
    }
  }

  /** Every active channel is one of the map's values. */
  lemma ChannelsWithinValues(actions: seq<Action>)
    ensures ChannelsUsed(actions) <= ChannelMapValues()
  {
    ChannelsFacts(actions);
    forall c | c in ChannelsUsed(actions) ensures c in ChannelMapValues() {
      var i :| 0 <= i < |actions| && ChannelOf(actions[i].actionType) == Some(c);
      AllActionTypesComplete(actions[i].actionType);
    }
  }

  // ---------------------------------------------------------------------
  // Weekly timeline

  /** The Monday of the week in which instant `t` falls:
      `t.date() - timedelta(days=t.weekday())`. */
  function WeekStart(t: int): int
  {
    DayOf(t) - DayWeekday(DayOf(t))
  }

  /** The week starts on a Monday, on or at most six days before the day. */
  lemma WeekStartIsMonday(t: int)
    ensures DayWeekday(WeekStart(t)) == 0 && WeekStart(t) <= DayOf(t) < WeekStart(t) + 7
  {
    var d := DayOf(t);
    assert d == 7 * (d / 7) + d % 7;
  }

  predicate HasCompletion(a: Action)
  {
    a.completedAt.Some?
  }

  /** The week of every action that has a completion time, in order. */
  function WeekKeys(actions: seq<Action>): seq<int>
  {
    if |actions| == 0 then []
    else
      var a := actions[|actions| - 1];
      WeekKeys(actions[..|actions| - 1]) + (if a.completedAt.Some? then [WeekStart(a.completedAt.value)] else [])
  }

  /** One week key per action with a completion time, each that action's
      Monday. */
  lemma {:induction false} WeekKeysFacts(actions: seq<Action>)
    ensures |WeekKeys(actions)| == |Keep(actions, HasCompletion)|
    ensures forall k :: k in WeekKeys(actions) <==>
      exists i :: 0 <= i < |actions| && actions[i].completedAt.Some? && WeekStart(actions[i].completedAt.value) == k
  {
    if |actions| > 0 {
      var init, a := actions[..|actions| - 1], actions[|actions| - 1];
      WeekKeysFacts(init);
      forall k ensures k in WeekKeys(actions) <==>
        exists i :: 0 <= i < |actions| && actions[i].completedAt.Some? && WeekStart(actions[i].completedAt.value) == k
      {
        if exists i :: 0 <= i < |actions| && actions[i].completedAt.Some? && WeekStart(actions[i].completedAt.value) == k {
          var i :| 0 <= i < |actions| && actions[i].completedAt.Some? && WeekStart(actions[i].completedAt.value) == k;
          if i < |init| {
            assert init[i] == actions[i];
          }
        }
        if k in WeekKeys(init) {
          var i :| 0 <= i < |init| && init[i].completedAt.Some? && WeekStart(init[i].completedAt.value) == k;
          assert actions[i] == init[i];
        }
      }
    }
  }

  /** One row of the timeline: a week (its Monday) and how many actions were
      completed in it. */
  datatype WeekCount = WeekCount(week: int, actionsCompleted: int)

  function WeekOf(e: WeekCount): int
  {
    e.week
  }

  function Completions(e: WeekCount): int
  {
    e.actionsCompleted
  }

  /** `weekly.items()`: a row per key, in the dictionary's order. */
  function Entries(order: seq<int>, m: map<int, int>): seq<WeekCount>
    requires forall k :: k in order ==> k in m
  {
    if |order| == 0 then []
    else
      var k := order[|order| - 1];
      assert k in order && forall j :: j in order[..|order| - 1] ==> j in order;
      Entries(order[..|order| - 1], m) + [WeekCount(k, m[k])]
  }

  /** `_build_weekly_timeline`: no rows for no actions; otherwise the weekly
      counts sorted by week. */
  function WeeklyTimeline(actions: seq<Action>): seq<WeekCount>
  {
    if |actions| == 0 then []
    else
      var keys := WeekKeys(actions);
      OrderIsCounted(keys);
      SortBy(Entries(FirstSeen(keys), Counts(keys)), WeekOf)
  }

  /** The timeline built with a `defaultdict(int)` bumped once per action
      with a completion time, then sorted. */
  method BuildWeeklyTimeline(completed: seq<Action>) returns (timeline: seq<WeekCount>)
    ensures timeline == WeeklyTimeline(completed)
  {
    if |completed| == 0 {
      return [];
    }
    var weekly: map<int, int> := map[];
    var order: seq<int> := [];
    for i := 0 to |completed|
      invariant Tallied(weekly, order, WeekKeys(completed[..i]))
    {
      weekly, order := CountWeek(completed, i, weekly, order);
    }
    assert completed[..|completed|] == completed;
    OrderIsCounted(WeekKeys(completed));
    timeline := SortBy(Entries(order, weekly), WeekOf);
  }

  /** `weekly[week_start] += 1` for the `i`-th action, when it has a
      completion time. */
  method CountWeek(completed: seq<Action>, i: int, weekly: map<int, int>, order: seq<int>)
    returns (weekly': map<int, int>, order': seq<int>)
    requires 0 <= i < |completed| && Tallied(weekly, order, WeekKeys(completed[..i]))
    ensures Tallied(weekly', order', WeekKeys(completed[..i + 1]))
  {
    var a := completed[i];
    if a.completedAt.Some? {
      var week := WeekStart(a.completedAt.value);
      WeekTallyStep(completed, i, weekly, order, week);
      weekly', order' := BumpOrdered(weekly, order, week);
    } else {
      WeekKeysSkip(completed, i);
      weekly', order' := weekly, order;
    }
  }

  lemma WeekTallyStep(completed: seq<Action>, i: int, weekly: map<int, int>, order: seq<int>, week: int)
    requires 0 <= i < |completed| && Tallied(weekly, order, WeekKeys(completed[..i]))
    requires completed[i].completedAt.Some? && week == WeekStart(completed[i].completedAt.value)
    ensures Tallied(Bump(weekly, week), if week in weekly then order else order + [week], WeekKeys(completed[..i + 1]))
  {
    assert completed[..i + 1][..i] == completed[..i];
    TalliedSnoc(weekly, order, WeekKeys(completed[..i]), week);
  }

  lemma WeekKeysSkip(completed: seq<Action>, i: int)
    requires 0 <= i < |completed| && completed[i].completedAt.None?
    ensures WeekKeys(completed[..i + 1]) == WeekKeys(completed[..i])
  {
    assert completed[..i + 1][..i] == completed[..i];
  }

  /** The rows of a count list each of its keys once, with its count. */
  lemma EntriesFacts(keys: seq<int>)
    ensures forall k :: k in FirstSeen(keys) ==> k in Counts(keys)
    ensures var e := Entries(FirstSeen(keys), Counts(keys));
      Distinct(e) &&
      (forall x :: x in e <==> x.week in keys && x.actionsCompleted == multiset(keys)[x.week]) &&
      SumOf(e, Completions) == |keys|
  {
    CountsFacts(keys);
    var order, m := FirstSeen(keys), Counts(keys);
    EntriesShape(order, m);
    RowsFollow(Entries(order, m), order, m, keys);
    EntriesSum(order, m);
    CountsSum(keys);
  }

  /** Row `i` is key `i` of the order with its count. */
  lemma {:induction false} EntriesShape(order: seq<int>, m: map<int, int>)
    requires forall k :: k in order ==> k in m
    ensures var e := Entries(order, m);
      |e| == |order| && forall i :: 0 <= i < |e| ==> order[i] in m && e[i] == WeekCount(order[i], m[order[i]])
  {
    if |order| > 0 {
      EntriesShape(order[..|order| - 1], m);
    }
  }

  /** Rows that follow a duplicate-free order of the keys, each with the
      key's count, list each key once with its count. */
  lemma RowsFollow(e: seq<WeekCount>, order: seq<int>, m: map<int, int>, keys: seq<int>)
    requires |e| == |order| && forall i :: 0 <= i < |e| ==> order[i] in m && e[i] == WeekCount(order[i], m[order[i]])
    requires Distinct(order) && forall k :: k in order <==> k in keys
    requires forall k :: k in m ==> m[k] == multiset(keys)[k]
    ensures Distinct(e)
    ensures forall x :: x in e <==> x.week in keys && x.actionsCompleted == multiset(keys)[x.week]
  {
    forall i, j | 0 <= i < j < |e| ensures e[i] != e[j] {
      assert order[i] != order[j];
    }
    forall x ensures x in e <==> x.week in keys && x.actionsCompleted == multiset(keys)[x.week] {
      if x.week in keys && x.actionsCompleted == multiset(keys)[x.week] {
        var i :| 0 <= i < |order| && order[i] == x.week;
        assert e[i] == x;
      }
    }
  }

  lemma {:induction false} EntriesSum(order: seq<int>, m: map<int, int>)
    requires forall k :: k in order ==> k in m
    ensures SumOf(Entries(order, m), Completions) == SumOver(order, m)
  {
    if |order| > 0 {
      var init, k := order[..|order| - 1], order[|order| - 1];
      EntriesSum(init, m);
      assert k in order;
      var e := Entries(init, m);
      assert Entries(order, m) == e + [WeekCount(k, m[k])];
      assert (e + [WeekCount(k, m[k])])[..|e|] == e;
    }
  }

  /** A sorted reordering of rows with distinct weeks has strictly
      increasing weeks. */
  lemma SortedRows(keys: seq<int>, tl: seq<WeekCount>)
    requires forall k :: k in FirstSeen(keys) ==> k in Counts(keys)
    requires var e := Entries(FirstSeen(keys), Counts(keys));
      Distinct(e) && (forall x :: x in e <==> x.week in keys && x.actionsCompleted == multiset(keys)[x.week])
    requires SortedBy(tl, WeekOf) && multiset(tl) == multiset(Entries(FirstSeen(keys), Counts(keys)))
    ensures forall i, j :: 0 <= i < j < |tl| ==> tl[i].week < tl[j].week
    ensures forall x :: x in tl <==> x.week in keys && x.actionsCompleted == multiset(keys)[x.week]
  {
    var e := Entries(FirstSeen(keys), Counts(keys));
    DistinctPermutation(e, tl);
    forall x ensures x in tl <==> x in e {
      assert x in tl <==> x in multiset(tl);
      assert x in e <==> x in multiset(e);
    }
    forall i, j | 0 <= i < j < |tl| ensures tl[i].week < tl[j].week {
      assert WeekOf(tl[i]) <= WeekOf(tl[j]);
      assert tl[i] in tl && tl[j] in tl;
    }
  }

  /** Sorting the rows of a count list by week gives strictly increasing
      weeks, a row for each key with its count, and counts that add up to the
      number of keys. */
  lemma SortedTimeline(keys: seq<int>)
    ensures forall k :: k in FirstSeen(keys) ==> k in Counts(keys)
    ensures var tl := SortBy(Entries(FirstSeen(keys), Counts(keys)), WeekOf);
      (forall i, j :: 0 <= i < j < |tl| ==> tl[i].week < tl[j].week) &&
      (forall x :: x in tl <==> x.week in keys && x.actionsCompleted == multiset(keys)[x.week]) &&
      SumOf(tl, Completions) == |keys|
  {
    EntriesFacts(keys);
    var e := Entries(FirstSeen(keys), Counts(keys));
    var tl := SortBy(e, WeekOf);
    SortFacts(e, WeekOf);
    SortedRows(keys, tl);
    SumOfPermutation(e, tl, Completions);
  }

  /** Rows that are exactly the keys with their counts count each key at
      least once, and have a row for exactly the keys. */
  lemma RowsOfKeys(keys: seq<int>, tl: seq<WeekCount>)
    requires forall x :: x in tl <==> x.week in keys && x.actionsCompleted == multiset(keys)[x.week]
    ensures forall i :: 0 <= i < |tl| ==> tl[i].week in keys && tl[i].actionsCompleted == multiset(keys)[tl[i].week] >= 1
    ensures forall k :: k in keys <==> exists i :: 0 <= i < |tl| && tl[i].week == k
  {
    forall i | 0 <= i < |tl|
      ensures tl[i].week in keys && tl[i].actionsCompleted == multiset(keys)[tl[i].week] >= 1
    {
      assert tl[i] in tl;
    }
    forall k ensures k in keys <==> exists i :: 0 <= i < |tl| && tl[i].week == k {
      if k in keys {
        assert WeekCount(k, multiset(keys)[k]) in tl;
      }
    }
  }

  /** Every week among the week keys is a Monday. */
  lemma MondayKeys(actions: seq<Action>, k: int)
    requires k in WeekKeys(actions)
    ensures DayWeekday(k) == 0
  {
    WeekKeysFacts(actions);
    var j :| 0 <= j < |actions| && actions[j].completedAt.Some? && WeekStart(actions[j].completedAt.value) == k;
    WeekStartIsMonday(actions[j].completedAt.value);
  }

  /** The timeline is empty for no actions; its weeks are Mondays in strictly
      increasing order; it has a row for exactly the weeks in which some
      action was completed, counting those actions; and its counts add up to
      the number of actions with a completion time. */
  lemma TimelineFacts(actions: seq<Action>)
    ensures |actions| == 0 ==> WeeklyTimeline(actions) == []
    ensures var tl, keys := WeeklyTimeline(actions), WeekKeys(actions);
      (forall i, j :: 0 <= i < j < |tl| ==> tl[i].week < tl[j].week) &&
      (forall i :: 0 <= i < |tl| ==>
         DayWeekday(tl[i].week) == 0 && tl[i].actionsCompleted == multiset(keys)[tl[i].week] >= 1) &&
      (forall k :: k in keys <==> exists i :: 0 <= i < |tl| && tl[i].week == k) &&
      SumOf(tl, Completions) == |keys| == |Keep(actions, HasCompletion)|
  {
    var tl, keys := WeeklyTimeline(actions), WeekKeys(actions);
    WeekKeysFacts(actions);
    if |actions| == 0 {
      assert Keep(actions, HasCompletion) == [];
    } else {
      SortedTimeline(keys);
      assert tl == SortBy(Entries(FirstSeen(keys), Counts(keys)), WeekOf);
      RowsOfKeys(keys, tl);
      forall i | 0 <= i < |tl| ensures DayWeekday(tl[i].week) == 0 {
        MondayKeys(actions, tl[i].week);
      }
    }
  }

  // ---------------------------------------------------------------------
  // The metrics of one campaign

  /** The whole-number part of `compute_campaign_metrics`'s report. */
  datatype Metrics = Metrics(
    campaignId: Option<int>,
    campaignName: string,
    totalActions: int,
    completed: int,
    verified: int,
    overdue: int,
    activity: ActivityCounts,
    activeChannels: set<string>,
    totalPossibleChannels: int,
    typeBreakdown: seq<TypeEntry>,
    weeklyTimeline: seq<WeekCount>)

  /** The report for a campaign and its actions at instant `now`. */
  function MetricsOf(c: Campaign, actions: seq<Action>, now: int): Metrics
  {
    var completed := CompletedOf(actions);
    Metrics(
      c.id, c.name, |actions|, |completed|, |VerifiedOf(actions)|, |OverdueOf(actions, now)|,
      ActivityOf(Counts(TypesOf(completed))), ChannelsUsed(completed), |ChannelMapValues()|,
      BreakdownOf(actions), WeeklyTimeline(completed))
  }

  /** `compute_campaign_metrics`, with the clock reading passed in. */
  method ComputeCampaignMetrics(c: Campaign, actions: seq<Action>, now: int) returns (m: Metrics)
    ensures m == MetricsOf(c, actions, now)
  {
    var completed := CompletedOf(actions);
    var verified := VerifiedOf(actions);
    var typeCounts, typeOrder := CountTypes(actions);
    var completedTypeCounts, _ := CountTypes(completed);
    var activity := ActivityOf(completedTypeCounts);
    var overdue := OverdueOf(actions, now);
    var timeline := BuildWeeklyTimeline(completed);
    var active := ActiveChannels(completed);
    OrderListsCounted(TypesOf(actions));
    var breakdown := Breakdown(typeOrder, typeCounts, completedTypeCounts);
    m := Metrics(
      c.id, c.name, |actions|, |completed|, |verified|, |overdue|,
      activity, active, |ChannelMapValues()|, breakdown, timeline);
  }

  /** The report's counts are consistent with one another. */
  lemma MetricsFacts(c: Campaign, actions: seq<Action>, now: int)
    ensures var m := MetricsOf(c, actions, now);
      m.totalActions == |actions| &&
      0 <= m.verified <= m.completed <= m.totalActions &&
      m.completed + m.overdue <= m.totalActions &&
      ActivityTotal(m.activity) <= m.completed &&
      m.activeChannels <= ChannelMapValues() && m.totalPossibleChannels == 9 &&
      SumOf(m.weeklyTimeline, Completions) <= m.completed
  {
    var completed := CompletedOf(actions);
    StatusCounts(actions, now);
    ActivityWithinCompleted(actions);
    ChannelsWithinValues(completed);
    ChannelMapValuesCount();
    TimelineFacts(completed);
    KeepImplied(completed, HasCompletion, _ => true);
    KeepAll(completed);
  }

  /** Keeping by a test that always holds keeps everything. */
  lemma {:induction false} KeepAll(actions: seq<Action>)
    ensures |Keep(actions, _ => true)| == |actions|
  {
    if |actions| > 0 {
      KeepAll(actions[..|actions| - 1]);
    }
  }

  // ---------------------------------------------------------------------
  // Media coverage

  /** A press mention; `tier` is its tier field (1 national, 2 regional,
      3 local, 4 trade, 5 blog), absent when the mention has none. */
  datatype Mention = Mention(tier: Option<int>)

  /** `mention.get("tier", 5)`. */
  function TierOf(m: Mention): int
  {
    if m.tier.Some? then m.tier.value else 5
  }

  function TierKeys(mentions: seq<Mention>): (r: seq<int>)
    ensures |r| == |mentions| && forall i :: 0 <= i < |mentions| ==> r[i] == TierOf(mentions[i])
  {
    seq(|mentions|, i requires 0 <= i < |mentions| => TierOf(mentions[i]))
  }

  /** `tier_counts[tier] += 1` for every mention, into an empty `Counter`. */
  method CountTiers(mentions: seq<Mention>) returns (counts: map<int, int>)
    ensures counts == Counts(TierKeys(mentions))
  {
    counts := map[];
    assert TierKeys(mentions[..0]) == [];
    for i := 0 to |mentions|
      invariant counts == Counts(TierKeys(mentions[..i]))
    {
      assert TierKeys(mentions[..i + 1]) == TierKeys(mentions[..i]) + [TierOf(mentions[i])];
      CountsSnoc(TierKeys(mentions[..i]), TierOf(mentions[i]));
      counts := Bump(counts, TierOf(mentions[i]));
    }
    assert mentions[..|mentions|] == mentions;
  }

  datatype TierCounts = TierCounts(national: int, regional: int, local: int, trade: int, blog: int)

  /** The whole-number part of `get_media_coverage_score`'s report. */
  datatype MediaCoverage = MediaCoverage(totalMentions: int, byTier: TierCounts)

  /** `tier_counts.get(k, 0)` for the five tiers. */
  function TiersOf(c: map<int, int>): TierCounts
  {
    TierCounts(CountOf(c, 1), CountOf(c, 2), CountOf(c, 3), CountOf(c, 4), CountOf(c, 5))
  }

  function CoverageOf(mentions: seq<Mention>): MediaCoverage
  {
    MediaCoverage(|mentions|, TiersOf(Counts(TierKeys(mentions))))
  }

  /** `get_media_coverage_score` without the weighted score. */
  method GetMediaCoverage(mentions: seq<Mention>) returns (r: MediaCoverage)
    ensures r == CoverageOf(mentions)
  {
    var tierCounts := CountTiers(mentions);
    r := MediaCoverage(|mentions|, TiersOf(tierCounts));
  }

  function TierTotal(t: TierCounts): int
  {
    t.national + t.regional + t.local + t.trade + t.blog
  }

  predicate Ranked(m: Mention)
  {
    1 <= TierOf(m) <= 5
  }

  predicate IsTier(k: int)
  {
    1 <= k <= 5
  }

  /** One more key adds one to the tier total when it is one of the five
      tiers. */
  lemma TierBump(c: map<int, int>, k: int)
    ensures TierTotal(TiersOf(Bump(c, k))) == TierTotal(TiersOf(c)) + (if IsTier(k) then 1 else 0)
  {
  }

  /** The tier total counts the keys that are tiers: at most all of them, and
      all of them exactly when every key is a tier. */
  lemma {:induction false} TierTotalCount(keys: seq<int>)
    ensures 0 <= TierTotal(TiersOf(Counts(keys))) <= |keys|
    ensures TierTotal(TiersOf(Counts(keys))) == |keys| <==> forall i :: 0 <= i < |keys| ==> IsTier(keys[i])
  {
    if |keys| > 0 {
      var init, k := keys[..|keys| - 1], keys[|keys| - 1];
      TierTotalCount(init);
      TierBump(Counts(init), k);
      AllTiersStep(keys, TierTotal(TiersOf(Counts(init))), TierTotal(TiersOf(Counts(keys))));
    }
  }

  /** The step of the count by which every key is a tier. */
  lemma AllTiersStep(keys: seq<int>, before: int, after: int)
    requires |keys| > 0
    requires after == before + (if IsTier(keys[|keys| - 1]) then 1 else 0)
    requires 0 <= before <= |keys| - 1
    requires before == |keys| - 1 <==> forall i :: 0 <= i < |keys| - 1 ==> IsTier(keys[i])
    ensures 0 <= after <= |keys|
    ensures after == |keys| <==> forall i :: 0 <= i < |keys| ==> IsTier(keys[i])
  {
  }

  /** Each tier's count is the number of mentions of that tier, a mention
      without one counting as a blog. */
  lemma TierCountsAre(mentions: seq<Mention>)
    ensures var t, keys := TiersOf(Counts(TierKeys(mentions))), TierKeys(mentions);
      t.national == multiset(keys)[1] && t.regional == multiset(keys)[2] &&
      t.local == multiset(keys)[3] && t.trade == multiset(keys)[4] && t.blog == multiset(keys)[5]
  {
    var keys := TierKeys(mentions);
    CountOfCounts(keys, 1);
    CountOfCounts(keys, 2);
    CountOfCounts(keys, 3);
    CountOfCounts(keys, 4);
    CountOfCounts(keys, 5);
  }

  /** The five tiers account for every mention exactly when no mention has
      another tier. */
  lemma TierTotalFacts(mentions: seq<Mention>)
    ensures var t := TierTotal(TiersOf(Counts(TierKeys(mentions))));
      t <= |mentions| && (t == |mentions| <==> forall i :: 0 <= i < |mentions| ==> Ranked(mentions[i]))
  {
    TierTotalCount(TierKeys(mentions));
    RankedKeys(mentions);
  }

  /** Every mention is ranked exactly when every tier key is a tier. */
  lemma RankedKeys(mentions: seq<Mention>)
    ensures (forall i :: 0 <= i < |mentions| ==> Ranked(mentions[i])) <==>
      (forall i :: 0 <= i < |TierKeys(mentions)| ==> IsTier(TierKeys(mentions)[i]))
  {
    var keys := TierKeys(mentions);
    if forall i :: 0 <= i < |mentions| ==> Ranked(mentions[i]) {
      forall i | 0 <= i < |keys| ensures IsTier(keys[i]) {
        assert Ranked(mentions[i]);
      }
    } else {
      var i :| 0 <= i < |mentions| && !Ranked(mentions[i]);
      assert !IsTier(keys[i]);
    }
  }

  /** All mentions are counted, each tier as the mentions of that tier, and
      the five tiers account for every mention exactly when no mention has
      another tier. */
  lemma CoverageFacts(mentions: seq<Mention>)
    ensures var r, keys := CoverageOf(mentions), TierKeys(mentions);
      r.totalMentions == |mentions| &&
      r.byTier.national == multiset(keys)[1] && r.byTier.regional == multiset(keys)[2] &&
      r.byTier.local == multiset(keys)[3] && r.byTier.trade == multiset(keys)[4] &&
      r.byTier.blog == multiset(keys)[5] &&
      TierTotal(r.byTier) <= |mentions| &&
      (TierTotal(r.byTier) == |mentions| <==> forall i :: 0 <= i < |mentions| ==> Ranked(mentions[i]))
  {
    TierCountsAre(mentions);
    TierTotalFacts(mentions);
  }

  // ---------------------------------------------------------------------
  // Corporate responses

  /** A target's response to the campaign; `responseType` is its type field,
      absent when the response has none. */
  datatype Response = Response(responseType: Option<string>)

  /** `response_scores.get(kind, 0)`: how far a kind of response goes toward
      the campaign's demand, 0 for a kind the table does not list. */
  function KindScore(kind: string): (v: int)
    ensures 0 <= v <= 10
    ensures v == 10 <==> kind == "policy_change"
  {
    if kind == "no_response" then 0
    else if kind == "form_letter" then 1
    else if kind == "meeting_offer" then 3
    else if kind == "partial_commitment" then 5
    else if kind == "public_statement" then 4
    else if kind == "full_commitment" then 8
    else if kind == "policy_change" then 10
    else 0
  }

  /** `response_scores.get(r.get("type", "no_response"), 0)`. */
  function ScoreOf(r: Response): int
  {
    KindScore(if r.responseType.Some? then r.responseType.value else "no_response")
  }

  function Scores(responses: seq<Response>): (r: seq<int>)
    ensures |r| == |responses| && forall i :: 0 <= i < |responses| ==> r[i] == ScoreOf(responses[i])
  {
    seq(|responses|, i requires 0 <= i < |responses| => ScoreOf(responses[i]))
  }

  datatype Trajectory = NoTrajectory | Improving | Degrading | Flat | InsufficientData
  {
    function Value(): string
    {
      match this
      case NoTrajectory => "none"
      case Improving => "improving"
      case Degrading => "degrading"
      case Flat => "flat"
      case InsufficientData => "insufficient_data"
    }
  }

  /** The whole-number part of `track_corporate_response`'s report: the
      engagement score is `scoreTotal / totalResponses`, rounded. */
  datatype ResponseSummary = ResponseSummary(
    totalResponses: int,
    scoreTotal: int,
    bestResponse: Option<int>,
    trajectory: Trajectory,
    latestResponseType: Option<string>)

  /** `track_corporate_response`. */
  function TrackCorporateResponse(responses: seq<Response>): ResponseSummary
  {
    if |responses| == 0 then ResponseSummary(0, 0, None, NoTrajectory, None)
    else
      var scores := Scores(responses);
      var trajectory :=
        if |scores| >= 2 then
          if scores[|scores| - 1] > scores[0] then Improving
          else if scores[|scores| - 1] < scores[0] then Degrading
          else Flat
        else InsufficientData;
      var latest := responses[|responses| - 1];
      ResponseSummary(
        |responses|, SumOf(responses, ScoreOf), Some(SeqMax(scores)), trajectory,
        Some(if latest.responseType.Some? then latest.responseType.value else "unknown"))
  }

  /** Each score lies in 0..10, so the total lies between 0 and 10 per response. */
  lemma {:induction false} ScoreTotalBounds(responses: seq<Response>)
    ensures 0 <= SumOf(responses, ScoreOf) <= 10 * |responses|
  {
    if |responses| > 0 {
      ScoreTotalBounds(responses[..|responses| - 1]);
    }
  }

  /** No responses give the empty report. Otherwise every response is
      counted, the best score is the highest one, the score total lies
      between 0 and 10 per response, the latest type is the last response's
      (or "unknown"), and the trajectory compares the last score with the
      first. */
  lemma CorporateResponseFacts(responses: seq<Response>)
    ensures |responses| == 0 ==> TrackCorporateResponse(responses) == ResponseSummary(0, 0, None, NoTrajectory, None)
    ensures |responses| > 0 ==>
      var r, n := TrackCorporateResponse(responses), |responses|;
      r.totalResponses == n &&
      r.bestResponse.Some? && 0 <= r.bestResponse.value <= 10 &&
      (forall i :: 0 <= i < n ==> ScoreOf(responses[i]) <= r.bestResponse.value) &&
      (exists i :: 0 <= i < n && ScoreOf(responses[i]) == r.bestResponse.value) &&
      0 <= r.scoreTotal <= 10 * n &&
      r.latestResponseType == Some(if responses[n - 1].responseType.Some? then responses[n - 1].responseType.value else "unknown") &&
      (n == 1 ==> r.trajectory == InsufficientData) &&
      (n >= 2 ==>
         (r.trajectory == Improving <==> ScoreOf(responses[n - 1]) > ScoreOf(responses[0])) &&
         (r.trajectory == Degrading <==> ScoreOf(responses[n - 1]) < ScoreOf(responses[0])) &&
         (r.trajectory == Flat <==> ScoreOf(responses[n - 1]) == ScoreOf(responses[0])))
  {
    ScoreTotalBounds(responses);
    if |responses| > 0 {
      var scores := Scores(responses);
      var best := SeqMax(scores);
      var i :| 0 <= i < |scores| && scores[i] == best;
      assert ScoreOf(responses[i]) == best;
    }
  }
}
