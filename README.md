# Campaign platform core, modelled in Dafny

This project models the deterministic core of the campaign platform and proves what it promises:

- **Action scheduler.** `campaign_platform/scheduler/action_scheduler.py` turns lists of action ids into dated placements: staggered e-mails, a social-media burst, a phone bank, an escalation sequence and a comment-period ramp. It also summarises a schedule.
- **Action generator.** `platform/campaigns/action_generator.py` picks right-sized actions for a volunteer's time, skills and campaign. It fills description templates, titles actions and prioritises them.
- **Campaign builder.** `platform/campaigns/campaign_builder.py` builds campaigns from the five templates, generates a phase's actions, infers action types from tactic text and lists the templates.
- **Impact tracker.** The integer and set parts of `platform/metrics/impact_tracker.py`: status and type counts, active channels, the weekly timeline, media tier counts and the corporate-response trajectory.

## How the model represents the program

- **Clock.** An instant is a whole number of minutes from a Monday 00:00 epoch. The weekday is `(t / 1440) % 7` and the hour is `(t % 1440) / 60`. A date is a day number. `date.today()` and `datetime.utcnow()` are parameters (`today`, `now`).
- **Randomness.** Every `random.randint` call is an injected sequence of draws with the code's bounds:
  - 0..10 for the e-mail stagger jitter;
  - 0..30 for the 09:xx roll-over minute;
  - 0..59 for the escalation minute;
  - 9..16 for the ramp-up hour.
- **Method/function pairs.** Loops that update cursors or lists are methods with loop invariants. Each is proved equal to a specification function, or proved to meet the Python code's promises directly. The properties are lemmas about those functions.
- **Dictionaries and counters.** Python dicts and `Counter`s that the code bumps key by key are a `map` plus the keys' first-insertion order (module `Tally`). So "first maximal date wins" and "breakdown in first-seen order" can be stated.
- **Sorting.** Python's stable `list.sort(key=...)` is `Sorting.SortBy`, a stable insertion sort. It is proved to give a sorted permutation that keeps the order of equal keys.
- **Enums and records.** The models' enums are datatypes, and `Campaign`, `Target`, `Participant` and `Action` are records (module `Models`). The templates' tables are constants with the Python tables' numbers, names and tactics.

Modules, one per core file or part of one:

- **Helpers:** `Base`, `Clock`, `Lists`, `Strings`, `Sorting` and `Tally`.
- **Shared data:** `Models`.
- **Scheduler:**
  - `Scheduler` holds the placement record and the business-hour clock.
  - Each operation has its own module: `EmailSchedule`, `BurstSchedule`, `PhoneSchedule`, `EscalationSchedule` and `CommentSchedule`.
  - `SummaryValue` and `Summaries` hold the schedule summary.
- **Campaigns:** `ActionGenerator` and `CampaignBuilder`.
- **Metrics:** `ImpactTracker`.

`_calculate_priority` clamps its result to 1..10. Its adjustments can never take it above 6, so `CalculatePriority` states 1..6.

## Model

| member | source | states |
|---|---|---|
| Scheduler.NextBusinessInstant | campaign_platform/scheduler/action_scheduler.py:433-452 | the instant `_next_business_hour` reaches is a weekday instant whose hour is not blocked and is at or after the input. It equals the input exactly when the input already is one; otherwise it is 09:00 on the next weekday |
| Scheduler.NextBusinessHour | campaign_platform/scheduler/action_scheduler.py:433-452 | the while loop ends at `NextBusinessInstant`, given that 09:00 is not blocked or the input is already a business instant |
| Scheduler.NineBlockedNeverSettles | campaign_platform/scheduler/action_scheduler.py:437-451 | with hour 9 blocked and a start that is not a business instant, no number of loop passes reaches a business instant, so the loop does not end |
| Scheduler.SpreadOffsetBounds | campaign_platform/scheduler/action_scheduler.py:175-178 | the even spread `window * i / n` starts at 0, never decreases and stays below the window |
| EmailSchedule.EmailPriorityBounds | campaign_platform/scheduler/action_scheduler.py:105 | with a positive daily cap, `max(1, 5 - i // emails_per_day)` lies in 1..5, is 5 for the first e-mail and never increases down the list |
| EmailSchedule.WeekendSkipped | campaign_platform/scheduler/action_scheduler.py:93-98 | the weekend skip leaves a weekday instant alone and moves a Saturday or Sunday one to 09:00 on the next weekday, so the result is always a weekday |
| EmailSchedule.SkipWeekend | campaign_platform/scheduler/action_scheduler.py:93-98 | the day-by-day skip loop ends at `WeekendSkipped` |
| EmailSchedule.EmailAdvance | campaign_platform/scheduler/action_scheduler.py:117-135 | one advance either keeps the date and the count and adds stagger plus jitter, or moves to the next date at 09:00 plus the roll-over minute. Past the cap it always moves and resets the count. The result is always before 18:00, and the daily count stays below the cap |
| EmailSchedule.PlaceEmails | campaign_platform/scheduler/action_scheduler.py:83-135 | the `for` loop with its `break`, weekend skip and advance places exactly the e-mails `EmailsFrom` lists from the first cursor |
| EmailSchedule.ScheduleEmailCampaign | campaign_platform/scheduler/action_scheduler.py:57-137 | the operation, starting at the window's first business instant on the window's first date, places exactly `EmailPlan` |
| EmailSchedule.EmailPlanFields | campaign_platform/scheduler/action_scheduler.py:88-115 | the e-mails are for an in-order prefix of the ids. Each is an "email" placement of 60 minutes on a weekday, in an e-mail batch, with priority `max(1, 5 - i // emails_per_day)` |
| EmailSchedule.EmailPlanDates | campaign_platform/scheduler/action_scheduler.py:84-135 | batch dates start at the window's first date, stay within its dates, never decrease and advance by at most one per e-mail. The list is cut short of the ids only once the batch date has passed the window's last date |
| EmailSchedule.EmailPlanQuota | campaign_platform/scheduler/action_scheduler.py:117-126 | at most `max(emails_per_day, 1)` e-mails share a batch date |
| EmailSchedule.EmailPlanHours | campaign_platform/scheduler/action_scheduler.py:117-135 | every start after the first is before 18:00. With a stagger of at most 350 minutes and a first start before 18:00, no start is earlier in the day than 09:00 or the first start's hour |
| EmailSchedule.EmailPlanSpacing | campaign_platform/scheduler/action_scheduler.py:86-135 | the first e-mail goes out at the window's first business instant. Each later one goes out `stagger + jitter` minutes after the one before when they share a batch date, and at 09:00 plus the roll-over minute of its new batch date otherwise; in both cases a weekend instant is then moved to 09:00 on the next weekday |
| BurstSchedule.PlatformWindow | campaign_platform/scheduler/action_scheduler.py:164-171 | the posting window is 10, 15, 20 or 30 minutes by platform, 15 for any other |
| BurstSchedule.ScheduleSocialBurst | campaign_platform/scheduler/action_scheduler.py:139-193 | exactly one post per id, in order. Each is a 5-minute social post of priority 1 in the burst's batch, and post `k` starts `window * k / max(len(ids), 1)` minutes, rounded down, after the platform window opens `pre` minutes before the burst. So starts lie inside the window, the first at its opening, and never decrease |
| PhoneSchedule.CallSlot | campaign_platform/scheduler/action_scheduler.py:226-236 | the skip loop ends at a calling instant (weekday, 09:00-17:00) at or after its start |
| PhoneSchedule.CallSlotClosedForm | campaign_platform/scheduler/action_scheduler.py:226-236 | the skip loop leaves an instant within calling hours alone. It moves an early weekday instant to 09:00 that day, and anything else to 09:00 on the next weekday |
| PhoneSchedule.CallSlotIsEarliest | campaign_platform/scheduler/action_scheduler.py:226-236 | no calling instant lies between the start and where the skip loop ends |
| PhoneSchedule.EarlyMoveKeepsSlot | campaign_platform/scheduler/action_scheduler.py:220-222 | the initial move of a start before 09:00 to 09:00 does not change where the skip loop ends |
| PhoneSchedule.SkipToCallingHours | campaign_platform/scheduler/action_scheduler.py:226-236 | the skip loop as a method ends at `CallSlot` |
| PhoneSchedule.CallInterval | campaign_platform/scheduler/action_scheduler.py:241 | `60 // max(calls_per_hour, 1)` lies in 0..60 |
| PhoneSchedule.NthCallSlotIsMonotone | campaign_platform/scheduler/action_scheduler.py:224-256 | successive call slots are calling instants and never go backwards |
| PhoneSchedule.SchedulePhoneBank | campaign_platform/scheduler/action_scheduler.py:195-258 | the result is an in-order prefix of the ids. Each call is a 10-minute phone call of priority 2 at the next call slot, on a weekday between 09:00 and 17:00 and not after the window's end. Starts never decrease, and the bank stops early only when the next slot is past the window's end |
| EscalationSchedule.PhaseDays | campaign_platform/scheduler/action_scheduler.py:296-303 | a phase spreads over at least one day, and over seven per week when it lasts a week or more |
| EscalationSchedule.ActionsPerDay | campaign_platform/scheduler/action_scheduler.py:304 | the daily quota is at least one |
| EscalationSchedule.DayPlacementFacts | campaign_platform/scheduler/action_scheduler.py:317-330 | the `j`-th action of a day is placed on that day at `9 + j % 8` o'clock and the drawn minute, with priority = phase number and the phase's batch for that day |
| EscalationSchedule.DistributePhase | campaign_platform/scheduler/action_scheduler.py:303-333 | the day loop of one phase places exactly the phase plan |
| EscalationSchedule.PhasePlanProperties | campaign_platform/scheduler/action_scheduler.py:303-333 | a phase places the first `min(len(actions), quota * weekdays)` actions, in order. Each is a 2-hour placement with priority = phase number, between 09:00 and 17:00 on a weekday within the phase's first `max(1, days)` days. Dates never decrease, and no date gets more than the quota |
| EscalationSchedule.PhaseDropsBeyondQuota | campaign_platform/scheduler/action_scheduler.py:304-333 | actions beyond the quota are silently dropped: 14 actions in a one-week phase from a Monday give 10 placements |
| EscalationSchedule.EscalationPlan | campaign_platform/scheduler/action_scheduler.py:284-337 | the whole ladder places no more actions than the phases list |
| EscalationSchedule.EscalationPlanInOrder | campaign_platform/scheduler/action_scheduler.py:287-335 | with every phase lasting a week or more, all placements are weekday working-hour slots within the ladder's weeks. Their dates never decrease, so every placement of an earlier-listed phase comes no later than every placement of a later one |
| EscalationSchedule.PhaseStartNext | campaign_platform/scheduler/action_scheduler.py:292-335 | phase `i + 1` starts phase `i`'s `duration_weeks` weeks after phase `i` does, whether or not phase `i` has actions |
| EscalationSchedule.PhaseStartsGrow | campaign_platform/scheduler/action_scheduler.py:292-335 | with phases of a week or more, a later phase starts at least one week per phase in between after an earlier one |
| EscalationSchedule.PhasesInStrictOrder | campaign_platform/scheduler/action_scheduler.py:287-335 | with phases of a week or more, every placement of an earlier-listed phase falls on a strictly earlier date than every placement of a later one, whatever minutes each draws |
| EscalationSchedule.ScheduleEscalationSequence | campaign_platform/scheduler/action_scheduler.py:260-337 | the phase loop, with `phase_start` advanced by each phase's weeks even when it has no actions, places exactly the escalation plan |
| CommentSchedule.TierSize | campaign_platform/scheduler/action_scheduler.py:365-366 | the early and middle tiers each hold `max(1, total / 5)` comments: at least one, and at most the total |
| CommentSchedule.RampDayBounds | campaign_platform/scheduler/action_scheduler.py:410-414 | the quadratic ramp's day offsets start at 0, never decrease, stay at most `ramp_up_days - 1`, and the last reaches it |
| CommentSchedule.ScheduleCommentPeriod | campaign_platform/scheduler/action_scheduler.py:339-431 | the three tier loops give the comment plan. No ids give no comments, and a single id is the only error: the middle tier indexes past the list |
| CommentSchedule.CommentPlanTiers | campaign_platform/scheduler/action_scheduler.py:360-429 | from two ids, one 2-hour public comment per id, in order. The early tier has priority 2 and batch "comment-early" and falls in the first two weeks of the six. The middle tier has priority 5 and batch "comment-middle" and falls in weeks three and four. The rest have priority 3 and batch "comment-rampup" |
| CommentSchedule.CommentPlanHours | campaign_platform/scheduler/action_scheduler.py:376-415 | early comments go out 10 hours and middle ones 14 hours past the deadline's time of day, and ramp-up ones their drawn hour past it. With a deadline at midnight they go out at 10:00, 14:00 and the drawn hour |
| CommentSchedule.CommentPlanBeforeDeadline | campaign_platform/scheduler/action_scheduler.py:410-429 | with `ramp_up_days >= 1` and drawn hours 9..16, every comment ends before the deadline |
| Summaries.GetScheduleSummary | campaign_platform/scheduler/action_scheduler.py:454-483 | the one-pass dictionary loop gives the schedule's summary, and only an empty schedule gets the bare total-0 summary |
| Summaries.SummarySums | campaign_platform/scheduler/action_scheduler.py:465-476 | a non-empty schedule's total is its length. The per-date and per-type counts each sum to it, and the per-batch counts sum to at most it |
| Summaries.SummaryDates | campaign_platform/scheduler/action_scheduler.py:465-469 | the per-date and per-type dictionaries have exactly the dates and types present as keys, each with its number of placements |
| Summaries.SummaryExtremes | campaign_platform/scheduler/action_scheduler.py:472-477 | start and end are the earliest and latest starts, so the duration is not negative |
| Summaries.SummaryPeak | campaign_platform/scheduler/action_scheduler.py:481-482 | the peak date is a date whose count is the peak count and the maximum, and it is the first such date in dictionary order |
| Models.ParseActionType | campaign_platform/campaigns/models.py:60-74 | `ActionType(s)` gives the type whose value is `s`, or nothing when no type has that value |
| Models.ParseValueRoundTrip | campaign_platform/campaigns/models.py:60-74 | parsing a type's value gives that type back |
| ActionGenerator.GetTimeTier | platform/campaigns/action_generator.py:316-326 | the tier is the shortest whose limit is at least the minutes, or "long" when none is |
| ActionGenerator.TiersGrowWithTime | platform/campaigns/action_generator.py:47-88 | more time never gives a shorter tier, and a longer tier offers every type a shorter one does |
| ActionGenerator.TierTypesThatNeverFit | platform/campaigns/action_generator.py:47-88 | content creation lies in the medium tier but never fits its time, and a social post never fits the quick tier |
| ActionGenerator.BlueprintsTakeFiveMinutes | platform/campaigns/action_generator.py:91-313 | every blueprint takes at least five minutes |
| ActionGenerator.TemplateVars | platform/campaigns/action_generator.py:455-476 | the template variables have distinct keys: 9 with a target, 3 without. The hashtag value contains no hyphen |
| ActionGenerator.FillDescription | platform/campaigns/action_generator.py:478-484 | the replacement loop fills the placeholders key by key, in dictionary order; what that fold yields is `FilledRender` |
| ActionGenerator.FilledUntouched | platform/campaigns/action_generator.py:478-484 | a template without a placeholder of any key comes back unchanged, and so does any template when vars is empty |
| ActionGenerator.NoBracesNoChange | platform/campaigns/action_generator.py:478-484 | a template without `{` comes back unchanged |
| ActionGenerator.FilledChars | platform/campaigns/action_generator.py:478-484 | every character of the result comes from the template or from a value |
| Strings.ReplaceAfterPlain | platform/campaigns/action_generator.py:483 | `str.replace` copies a prefix that holds no first character of the pattern and scans on after it |
| Strings.ReplaceOne | platform/campaigns/action_generator.py:483 | `str.replace` with a pattern whose first character occurs only where the pattern occurs once gives that one occurrence replaced and the rest kept |
| Strings.ReplaceMissAt | platform/campaigns/action_generator.py:483 | `str.replace` keeps a lone first character of the pattern that does not start the pattern |
| ActionGenerator.PlaceholderNotPrefix | platform/campaigns/action_generator.py:483 | the placeholder `{k1}` never starts `{k2}` followed by anything, for distinct keys without braces |
| ActionGenerator.FilledPlaceholder | platform/campaigns/action_generator.py:478-484 | a template holding one placeholder and no other `{` gets that placeholder replaced by its key's value when vars has the key, and keeps it when vars lacks it. This holds given brace-free keys and `{`-free values; any number of placeholders is `FilledRender` |
| ActionGenerator.HoleShape | platform/campaigns/action_generator.py:481-483 | a placeholder whose key some variable has reads as a value without `{`; one whose key no variable has stays as written |
| ActionGenerator.HoleIsValue | platform/campaigns/action_generator.py:481-483 | with distinct keys, a placeholder of a variable's key reads as that variable's value |
| ActionGenerator.ReplaceRender | platform/campaigns/action_generator.py:483 | one `str.replace` of `{k}` on a template of texts and placeholders rewrites exactly the placeholders of key k into the value, when no earlier variable had k |
| ActionGenerator.FilledRender | platform/campaigns/action_generator.py:478-484 | filling a template `t0 + {k0} + t1 + {k1} + ... + tail` (texts without `{`, brace-free keys) with distinct brace-free keys, and values free of `{` apart from the last one, turns every placeholder of a variable's key into that variable's value and keeps every other placeholder |
| ActionGenerator.TemplateKeysPlain | platform/campaigns/action_generator.py:462-475 | the template variables have the listed keys in dictionary order, and none of them holds a brace |
| ActionGenerator.TemplateVarFilled | platform/campaigns/action_generator.py:455-484 | with the generator's own variables, every placeholder of a template of texts and placeholders is filled: a placeholder of one of the nine (or three) keys becomes that variable's value, and a placeholder of any other key stays, as long as no value before the last holds a `{`; the last is `social`, the `str()` of a dictionary, with a target and `hashtag` without one |
| ActionGenerator.GenerateTitle | platform/campaigns/action_generator.py:486-511 | the title is the type's label, a space, and the target's name or the first 40 characters of the target summary |
| ActionGenerator.LabelsDistinct | platform/campaigns/action_generator.py:493-508 | no two types share a label |
| ActionGenerator.CalculatePriority | platform/campaigns/action_generator.py:513-562 | the clamped priority lies in 1..6 |
| ActionGenerator.PriorityMonotone | platform/campaigns/action_generator.py:527-562 | a more urgent campaign, a more vulnerable target or a higher-impact type never gives a lower priority (a larger number) |
| ActionGenerator.LeverageMonotone | platform/campaigns/action_generator.py:536-540 | a higher vulnerability score never lowers the target's leverage |
| ActionGenerator.ActionFromSpec | platform/campaigns/action_generator.py:408-422 | a stored action copies the spec's type, title, description, template, minutes and priority. It is available and has no deadline or completion. Its variables are the spec's, as text |
| ActionGenerator.MakeSpecFields | platform/campaigns/action_generator.py:384-402 | each spec carries its type, the blueprint's minutes and skills, and the priority of its type, campaign and target |
| ActionGenerator.ParsedTypesExactly | platform/campaigns/action_generator.py:354-360 | a type is among the campaign's types exactly when some tactic is its value; other tactics are ignored |
| ActionGenerator.CampaignTypes | platform/campaigns/action_generator.py:354-360 | the parsing loop collects exactly the parsed types |
| ActionGenerator.AvailableTypes | platform/campaigns/action_generator.py:362 | the tier's types that the campaign uses, or all of them when it names none |
| ActionGenerator.TargetChoices | platform/campaigns/action_generator.py:382-383 | one to three target choices: the first three targets, or a single no-target choice |
| ActionGenerator.GenerateForTime | platform/campaigns/action_generator.py:328-406 | the nested loops, the stable sort and the slice give `ForTime` |
| ActionGenerator.ForTimeProperties | platform/campaigns/action_generator.py:362-406 | the result is sorted by priority and has at most `max_actions` entries. Each spec fits the time, is of a tier type and of a campaign type when the campaign names any, shares a skill with a known participant when it needs one, and carries the blueprint's minutes and skills |
| ActionGenerator.ForTimeKeepsMostUrgent | platform/campaigns/action_generator.py:404-406 | every candidate left out is no more urgent than any kept one, and with room for all, the result is a permutation of all candidates |
| ActionGenerator.ForTimeComplete | platform/campaigns/action_generator.py:362-402 | every fitting type the tier and campaign offer yields a candidate for each target choice |
| ActionGenerator.CandidatesCount | platform/campaigns/action_generator.py:365-402 | at most one candidate per type and target choice, so at most three per type |
| ActionGenerator.NothingUnderFiveMinutes | platform/campaigns/action_generator.py:366-373 | under five minutes nothing is offered |
| ActionGenerator.SuggestNextAction | platform/campaigns/action_generator.py:424-453 | the campaign loop, sort and first element give `Suggestion` |
| ActionGenerator.AllSuggestionsFrom | platform/campaigns/action_generator.py:436-447 | the pooled specs are exactly those of the running campaigns' pools |
| ActionGenerator.SuggestionProperties | platform/campaigns/action_generator.py:436-453 | no suggestion exactly when every pool is empty. Otherwise the suggestion comes from some pool, has the minimum priority over all pools, and is the first such spec in campaign order |
| CampaignBuilder.TemplateLadders | platform/campaigns/campaign_builder.py:30-313 | every template's ladder has phases numbered 1, 2, 3...: four for corporate, three for the others |
| CampaignBuilder.CorporateLadder | platform/campaigns/campaign_builder.py:33-98 | the corporate ladder has 4 phases, 20 weeks in all |
| CampaignBuilder.LegislativeLadder | platform/campaigns/campaign_builder.py:100-152 | the legislative ladder has 3 phases, 13 weeks in all |
| CampaignBuilder.RegulatoryLadder | platform/campaigns/campaign_builder.py:154-206 | the regulatory ladder has 3 phases, 22 weeks in all |
| CampaignBuilder.InvestigationLadder | platform/campaigns/campaign_builder.py:208-259 | the investigation ladder has 3 phases, 16 weeks in all |
| CampaignBuilder.CulturalLadder | platform/campaigns/campaign_builder.py:261-312 | the cultural ladder has 3 phases, 18 weeks in all |
| CampaignBuilder.BuildFromFields | platform/campaigns/campaign_builder.py:320-376 | a built campaign is a DRAFT with the given name, type, summary and goal, and the name's slug. It has the template's channel and type values, the custom ladder when non-empty (else the template's), and one win condition per phase in order. It starts on the given day or today, with deadline = start + 7 × the ladder's total weeks |
| CampaignBuilder.BuildFromDeadline | platform/campaigns/campaign_builder.py:347-352 | with phases of a week or more, the deadline is at least a week per phase after the start |
| CampaignBuilder.BuildCampaignDeadline | platform/campaigns/campaign_builder.py:338-352 | from a template, the deadline is at least a week per phase after the start, and strictly after it without a custom ladder |
| CampaignBuilder.SlugAlphabet | platform/campaigns/campaign_builder.py:354-356 | the slug holds only lower-case letters, digits and `-`, so no space, apostrophe or `!` |
| CampaignBuilder.SlugCharacters | platform/campaigns/campaign_builder.py:354-356 | the slug's characters are exactly the name's lower-cased letters and digits, its hyphens, and a hyphen when it has a space |
| CampaignBuilder.SlugIdempotent | platform/campaigns/campaign_builder.py:354-356 | the slug of a slug is itself |
| CampaignBuilder.AnyIn | platform/campaigns/campaign_builder.py:467-468 | true exactly when some keyword occurs in the text |
| CampaignBuilder.FirstMatchIsFirst | platform/campaigns/campaign_builder.py:467-470 | the table scan finds a row with a matching keyword and no earlier matching row, and finds nothing only when no row matches |
| CampaignBuilder.InferActionType | platform/campaigns/campaign_builder.py:447-470 | the scan loop with its early return gives `InferredType` |
| CampaignBuilder.InferredTypeIsFirstMatch | platform/campaigns/campaign_builder.py:447-470 | the inferred type is that of the first row with a keyword in the lower-cased tactic, or CONTENT_CREATION when none has one |
| CampaignBuilder.EmailKeywordsWin | platform/campaigns/campaign_builder.py:451-452 | a tactic mentioning "email" or "letter", in any case, is an e-mail |
| CampaignBuilder.EstimatesMatchBlueprints | platform/campaigns/campaign_builder.py:472-491 | the minutes table covers every type, so the default 30 is never used, and it agrees with the generator's blueprints |
| CampaignBuilder.SuggestTemplateCases | platform/campaigns/campaign_builder.py:493-503 | a template is suggested exactly for EMAIL, PHONE_CALL, SOCIAL_POST, PUBLIC_COMMENT and REVIEW. It agrees with the blueprints' templates except for the shareholder action |
| CampaignBuilder.FindPhase | platform/campaigns/campaign_builder.py:394-398 | the first phase with the number, or nothing exactly when none has it |
| CampaignBuilder.PhaseTitleParts | platform/campaigns/campaign_builder.py:416-437 | an action title is "Phase ", the number, ": " and the first 80 characters of the tactic |
| CampaignBuilder.PhaseTitlesDiffer | platform/campaigns/campaign_builder.py:416-437 | titles of different phases differ |
| CampaignBuilder.Choices | platform/campaigns/campaign_builder.py:403-445 | one action per target when targets are given, else one without target |
| CampaignBuilder.PhaseActionsOutcome | platform/campaigns/campaign_builder.py:391-401 | an empty ladder gives `[]`. The only error is a phase number a non-empty ladder lacks |
| CampaignBuilder.PhaseActionsFound | platform/campaigns/campaign_builder.py:394-445 | for the first phase with the number, the actions are its tactics' actions, tactic-major, one per target choice |
| CampaignBuilder.PhaseActionAt | platform/campaigns/campaign_builder.py:403-445 | there are `len(tactics) × choices` actions, and the one at `k * choices + j` is tactic k's action for choice j |
| CampaignBuilder.PhaseActionFields | platform/campaigns/campaign_builder.py:404-443 | a phase action belongs to the campaign, has priority = phase number and the phase title, and is of the tactic's inferred type with that type's blueprint minutes. It is open, and its description starts with the tactic, with the target's details only when it has a target |
| CampaignBuilder.GeneratePhaseActions | platform/campaigns/campaign_builder.py:378-445 | the nested loops give the phase actions |
| CampaignBuilder.ListCampaignTypes | platform/campaigns/campaign_builder.py:505-519 | one summary per template, in table order |
| CampaignBuilder.SummaryFacts | platform/campaigns/campaign_builder.py:505-519 | each summary carries its type's value, its phase count (4 for corporate, 3 otherwise) and its total weeks (20, 13, 22, 16, 18) |
| CampaignBuilder.TemplateOrderCoversTypes | platform/campaigns/campaign_builder.py:30-313 | the listing names every campaign type exactly once |
| ImpactTracker.KeepMembers | platform/metrics/impact_tracker.py:62-66 | a comprehension keeps exactly the actions that pass its test |
| ImpactTracker.StatusCounts | platform/metrics/impact_tracker.py:62-66 | completed are COMPLETED or VERIFIED, and verified ≤ completed ≤ total. No overdue action is completed, so completed + overdue ≤ total |
| ImpactTracker.CountTypes | platform/metrics/impact_tracker.py:69-74 | the Counter loop counts each type's actions, keys in first-seen order |
| ImpactTracker.CompletedWithinType | platform/metrics/impact_tracker.py:69-74 | no type has more completed actions than actions |
| ImpactTracker.ActivityWithinCompleted | platform/metrics/impact_tracker.py:77-83 | each activity count is the number of completed actions of its type, and together they are at most the completed count |
| ImpactTracker.BreakdownFacts | platform/metrics/impact_tracker.py:176-183 | the breakdown has one entry per type present and no other. Each entry counts that type's actions and completed actions, with 0 ≤ completed ≤ total |
| ImpactTracker.BreakdownOrder | platform/metrics/impact_tracker.py:176-183 | the breakdown follows the types' first-seen order |
| ImpactTracker.ChannelMapValuesCount | platform/metrics/impact_tracker.py:124-136 | the channel map's values are exactly the nine listed channels |
| ImpactTracker.ActiveChannels | platform/metrics/impact_tracker.py:137-140 | the `add` loop collects the channels the completed actions use |
| ImpactTracker.ChannelsFacts | platform/metrics/impact_tracker.py:137-140 | a channel is active exactly when some completed action maps to it |
| ImpactTracker.ChannelsWithinValues | platform/metrics/impact_tracker.py:123-171 | active channels are a subset of the map's values |
| ImpactTracker.WeekStartIsMonday | platform/metrics/impact_tracker.py:194-196 | the week key is a Monday at most six days before the completion day |
| ImpactTracker.BuildWeeklyTimeline | platform/metrics/impact_tracker.py:187-203 | the defaultdict loop and the sort give the weekly timeline |
| ImpactTracker.TimelineFacts | platform/metrics/impact_tracker.py:187-203 | empty input gives `[]`. Actions without a completion time are skipped. Rows have strictly increasing Monday weeks, one per week present, each with its count ≥ 1, and the counts sum to the number of actions with a completion time |
| ImpactTracker.ComputeCampaignMetrics | platform/metrics/impact_tracker.py:46-185 | the method computes the report `MetricsOf` describes, whose numbers `MetricsFacts` relates |
| ImpactTracker.MetricsFacts | platform/metrics/impact_tracker.py:142-185 | total = number of actions, and verified ≤ completed ≤ total. Completed + overdue ≤ total and activity ≤ completed. Active channels lie within the map's values, `total_possible` = 9, and the timeline counts at most the completed actions |
| ImpactTracker.CountTiers | platform/metrics/impact_tracker.py:250-256 | the Counter loop counts the mentions per tier |
| ImpactTracker.GetMediaCoverage | platform/metrics/impact_tracker.py:227-268 | the counting part of `get_media_coverage_score` gives the coverage report |
| ImpactTracker.TierTotalCount | platform/metrics/impact_tracker.py:250-267 | tiers 1..5 account for at most all keys, and for all exactly when every key is a tier |
| ImpactTracker.CoverageFacts | platform/metrics/impact_tracker.py:250-267 | `total_mentions` = number of mentions, and each of tiers 1..5 reports its mention count (a missing tier counts as 5). The five account for every mention exactly when none has another tier |
| ImpactTracker.KindScore | platform/metrics/impact_tracker.py:287-301 | a response kind scores 0..10, and 10 exactly for a policy change |
| ImpactTracker.ScoreTotalBounds | platform/metrics/impact_tracker.py:300-302 | the score total lies between 0 and 10 per response |
| ImpactTracker.CorporateResponseFacts | platform/metrics/impact_tracker.py:297-321 | no responses give total 0, score total 0 and trajectory "none". Otherwise `total_responses` = length and `best_response` is the maximum score (which some response reaches). The score total lies in 0..10 per response. The latest type is the last response's, or "unknown". A single response gives "insufficient_data"; from two on, the last score against the first gives "improving", "degrading" or "flat", each exactly when its comparison holds |

## Left out

- Floating point is replaced by integer arithmetic on the exact values:
  - The burst spread `window / n * i` is modelled in whole minutes, rounded down: `window * i / n`. The scheduler keeps the fractional minutes.
  - The comment tiers use `(14 * i) / count` days for `int((14 / count) * i)`, and `total / 5` for `int(total * 0.2)`. The second agrees with the float for every total.
  - The final-tier ramp uses `(i * i * (R - 1)) / (d * d)` with `d = max(ramp_count - 1, 1)` for `int((i / d) ** 2 * (R - 1))`.
  - Where the float product rounds to just below a whole number, `int()` truncates it and the scheduler's day is one earlier than the model's. The next two lines give such inputs.
- CommentSchedule.ScheduleCommentPeriod: a day offset can be one day later than the scheduler's. With 110 early comments (a total of 550), comment 55 gets `(14 / 110) * 55 = 6.999…`, so the scheduler says day 6 where the model says day 7.
- CommentSchedule.RampDay: a ramp-up day can be one day later than the scheduler's. With `ramp_count = 8`, `ramp_up_days = 50` and `i = 1`, `(1 / 7) ** 2 * 49 = 0.999…`, so the scheduler says day 0 where the model says day 1.
- Sub-minute time is left out: every instant is a whole minute.
- ISO date strings become numbers:
  - Batch ids are a tag plus a day number or instant.
  - Summary dates and the weekly timeline's week key are day numbers, rather than strings.
- Text that no property depends on is left out: the `notes` strings, the phone bank's `target_timezone`, and `strftime` output.
- The `peak_hours` and `timezone_offset` fields are left out, because no code reads them. So is the escalation phase's `window`, which is built but never used.
- Randomness: every `random.randint` is an injected parameter, and the generator itself is not modelled.
- `date.today()` and `datetime.utcnow()` are the parameters `today` and `now`. Overdue means a deadline before `now` on an action that is not completed.
- Text handling is ASCII only:
  - `str.lower()` and `str.isalnum()` (module `Strings`) work on ASCII letters and digits.
  - Unicode case folding and non-ASCII letters in slugs are not modelled.
- Scheduler.NextBusinessHour: requires that hour 9 is not blocked, or that the input is already a business instant. Otherwise the scheduler's loop never ends, which `NineBlockedNeverSettles` proves.
- EmailSchedule.ScheduleEmailCampaign: requires a non-zero `emails_per_day` whenever the loop places anything. Zero raises `ZeroDivisionError` in the scheduler.
- EmailSchedule.EmailPlanHours: the lower hour bound on starts is stated only for a stagger of at most 350 minutes. Starts are not claimed to stay inside the window's end instant or to increase, because the weekend skip carries the time past the date the batch id uses. `EmailPlanSpacing` states each start exactly instead.
- In `schedule_email_campaign` the two `randint` calls become two sequences with one draw per id: `jitter[i]` is used when the advance after e-mail `i` adds the stagger, `rollover[i]` when it rolls to a new date. The order in which the scheduler draws from one generator is not modelled.
- CommentSchedule.ScheduleCommentPeriod: a single id makes the scheduler raise `IndexError`. The model returns `Err("list index out of range")`.
- `generate_action_from_spec` and `suggest_next_action` use the generator's built-in description table. `DescriptionTemplate` holds it, and the other members take the templates as a parameter. No property depends on the wording of the texts.
- `_build_template_vars` renders the social-media handles, which the generator formats with `str(dict)`, as text passed in with the target.
- `generate_phase_actions` stores `target.contacts` and `target.social_accounts` as the objects themselves (either may be `None`). `CampaignBuilder.TargetVars` stores the contacts as a dictionary value (a target's contacts are a map, so `None` is the empty map) and the social accounts as the same rendered text.
- ActionGenerator.FilledRender: the promise is stated for templates of texts without `{` between placeholders with brace-free keys, and for values without `{` except the last one's. An earlier value holding `{` could form a placeholder that a later key then rewrites, which is not stated; with a target, that applies to the campaign and target texts, not to the `social` text, which is filled last. That each of the fourteen built-in description templates has this form is not proved; it can be read off `DescriptionTemplate`, where every `{` opens a placeholder.
- The impact tracker's floating-point parts are left out:
  - impact weights and rates;
  - velocity from `utcnow`;
  - the media score multipliers and sentiment;
  - the channel-coverage percentage;
  - the average engagement.

  `ImpactTracker.TrackCorporateResponse` keeps the integer engagement total (the score sum), but not its rounded average.
- `compare_campaigns` in the impact tracker is not part of this model. It only ranks earlier reports that are built from floats.
- Active channels are a `set`, not a list. Python's set iteration order is not modelled.
- Custom escalation ladders are taken as given. Missing or malformed `phase`, `duration_weeks` or `tactics` keys, which raise `KeyError` in the builder, are not modelled. Nor are the defaults of the database store.
- The CLI, the HTTP dashboard, the violation database client, the ROI calculator and the ORM session plumbing are not part of this model.
