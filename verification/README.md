# RoutineFlow core, modelled in Dafny

RoutineFlow is a habit app. A user keeps a list of routines. Each routine has a time slot (morning, afternoon, evening, night), an optional scheduled time and a frequency. Each day's completions are recorded as logs keyed by `YYYY-MM-DD`. This project models the app's adherence logic and proves properties of it:

- **Routine store** (`RoutineStore`): the routine and log collections. Routines can be added, updated, deleted with their logs, toggled active and reordered. Completing is idempotent per day and uncompleting is supported. The store keeps the invariant "at most one log per routine and day".
- **Day and slot helpers** (`RoutineUtils`, `Calendar`, `Clock`): the hour-to-slot map, the completion percentage, grouping by slot, and zero-padded day keys. The key order is proved to be the date order. Also covered are `H:mm` parsing and formatting and the alarm-time offset.
- **Analytics** (`Analytics`): the day index, today's, weekly and monthly rates, and per-category and per-slot tallies. Also the 365-day streak scan and the ordered insight list.
- **Widget projections** (`Widget`): the daily progress card with its next routine and its upcoming alarms (filtered, sorted, at most five), the ordered routine list, the next-alarm info and the quick-complete toggle.
- **Reminder planner** (`Notifications`): the operating system's set of pending notifications, as a map from identifier to trigger owned by one class. It supports per-routine scheduling (one daily alarm, or one weekly alarm per listed day), cancelling by identifier prefix, and full reschedule.
- **Small state machines**:
  - the Bloom companion's growth, health and mood (`Bloom`);
  - the AI-coach message quota (`Coach`);
  - the onboarding stepper (`Onboarding`);
  - likes and challenges in the community feed (`Community`);
  - retention nudges and risk levels (`Retention`);
  - deep links, the event queue and A/B variants (`Growth`);
  - the routine templates grouped by slot (`Templates`).

Stores whose fields the app updates in place are classes: `RoutineStore.Store`, `Notifications.AlarmScheduler`, `Bloom.BloomStore`, `Coach.CoachStore`, `Onboarding.OnboardingStore`, `Community.CommunityStore` and `Growth.EventQueue`. Each method states the whole new state. Each method is proved against a specification function of the old state. The loops of the source are methods with invariants: the index and tally loops, the streak scan, slot grouping, template grouping, cancelling by prefix, rescheduling and parameter substitution. Pure computations are functions. Their promises are lemmas.

Inputs the app reads from the environment are parameters:

- the current day, as a date or day key;
- the hour, minute, day of year and `Date.now()`;
- the store snapshot used by a widget action;
- the index picked by `Math.random` (`draw`), or an arbitrary choice (`:|`) where only the set of outcomes matters.

`Seqs` and `Text` hold the generic helpers:

- `Array.prototype.filter`;
- a stable insertion sort standing in for `Array.prototype.sort`, proved a sorted, stable permutation;
- string order, `indexOf`, `replace`, `split`, `trim` and number formatting.

The source's floating-point arithmetic is written exactly in integers:

- `Math.round(100 * c / t)` is the integer `r` with `2tr - t <= 200c < 2tr + t`;
- the streak's "at least half done" test is `2 * completed >= total`.

## Model

| member | source | states |
|---|---|---|
| RoutineUtils.CurrentTimeSlotMatchesWindows | src/core/utils/routine.ts:5-11 | Every time of day lies in the window of exactly one slot: the slot its hour maps to (morning 5-12, afternoon 12-17, evening 17-21, night otherwise). |
| RoutineUtils.CurrentTimeSlotSamples | src/core/utils/routine.ts:5-11 | Example: hour 12 is afternoon, 4 and 23 are night, 5 is morning, 17 is evening, 21 is night. |
| RoutineUtils.RoundRatio | src/core/utils/routine.ts:74 | The result is the nearest integer to the ratio, halves rounding up, and lies in [0,100] for a percentage. |
| RoutineUtils.CompletionRate | src/core/utils/routine.ts:72-75 | 0 when the total is 0; otherwise the rounded percentage `100 * completed / total`; in [0,100] whenever completed <= total. |
| RoutineUtils.CompletionRateSamples | src/core/utils/routine.ts:72-75 | Example: 0/0 gives 0, 3/3 gives 100, 1/3 gives 33, 2/3 gives 67, 1/8 gives 13. |
| RoutineUtils.TimeSlotOrderListsEachOnce | src/core/utils/routine.ts:78 | The slot order lists each slot exactly once, morning first and night last. |
| RoutineUtils.TimeSlotOrderDistinct | src/core/utils/routine.ts:78 | The four entries of the slot order are pairwise distinct. |
| RoutineUtils.BySortOrderIsPreorder | src/core/utils/routine.ts:95 | Comparing by sortOrder is total and transitive, so the sort is well defined. |
| RoutineUtils.SlotGroups.Set | src/core/utils/routine.ts:89-96 | Replacing one slot's group changes that group only. |
| RoutineUtils.GroupByTimeSlot | src/core/utils/routine.ts:81-99 | All four slots are keys, and each slot's group is that slot's routines stably sorted by sortOrder. |
| RoutineUtils.SlotGroupContents | src/core/utils/routine.ts:81-91 | A group is a permutation of the routines of its slot: every member has that slot, and every routine of the slot is in it. |
| RoutineUtils.SlotGroupSizes | src/core/utils/routine.ts:81-91 | The four group sizes add up to the number of routines. |
| RoutineUtils.SlotGroupOrdered | src/core/utils/routine.ts:93-96 | Each group is ordered by non-decreasing sortOrder, and routines with equal sortOrder keep their input order. |
| Calendar.DaysInMonth | src/core/services/analyticsService.ts:74-77 | Every month has 28 to 31 days. |
| Calendar.PrevDay | src/core/services/analyticsService.ts:226-227 | Stepping back one day gives a valid date before the given one. |
| Calendar.PrevDayIsLatest | src/core/services/analyticsService.ts:226-227 | No valid date lies strictly between a day and the day before it. |
| Calendar.DaysBefore | src/core/services/analyticsService.ts:74-77 | Stepping back n days from a valid date gives a valid date. |
| Calendar.DaysBeforeOrder | src/core/services/analyticsService.ts:74-77 | Stepping back further gives a strictly earlier date. |
| Calendar.DateKeyFixed | src/core/utils/routine.ts:14-17 | For a four-digit year, the key is the year, '-', the two-digit month, '-' and the two-digit day. |
| Calendar.DateKeyShape | src/core/services/analyticsService.ts:62-64 | For a four-digit year, the key has length 10 with '-' at positions 4 and 7. |
| Calendar.DateKeyOrder | src/core/services/retentionService.ts:170-171 | For four-digit years, string order of keys is exactly chronological order of the dates. |
| Calendar.DateKeyInjective | src/core/utils/routine.ts:14-17 | Distinct valid dates with four-digit years have distinct keys. |
| Calendar.WindowKeysDistinct | src/core/services/analyticsService.ts:72-90 | The days of a window have pairwise distinct keys. |
| Clock.OffsetTimeIsModular | src/core/services/widgetService.ts:141-151 | For a valid time and an offset of at most 60 minutes, the result is a valid time equal to the time minus the offset modulo 24 hours. |
| Clock.OffsetTimeLongOffset | src/core/services/widgetService.ts:143-149 | Example: the single borrow is all there is: 10:00 minus 90 minutes gives hour 9 and minute -30. |
| Clock.FormatHHmmFixed | src/core/services/widgetService.ts:150 | The formatted time is the two-digit hour, ':' and the two-digit minute. |
| Clock.FormatHHmmOrder | src/core/services/widgetService.ts:220 | String order of formatted valid times is the order of their minutes of the day. |
| Clock.ParseTime | src/platform/notifications.ts:29-33 | Accepts exactly one or two digits, ':', then two digits, and returns their values; rejects everything else. |
| Clock.ParseFormat | src/platform/notifications.ts:29-33 | Parsing a formatted valid time gives the time back. |
| Clock.ParseTimeNoRangeCheck | src/platform/notifications.ts:29-33 | "99:99" parses as (99, 99) and "7:05" as (7, 5); "7:5" and "07:005" are rejected. |
| Clock.ComputeAlarmTimeWellFormed | src/core/services/widgetService.ts:141-151 | For a valid time and an offset of at most 60 minutes, the result is the formatted offset time. |
| Clock.JsOffsetTimeOnNumbers | src/core/services/widgetService.ts:143-149 | On numbers, the source's offset arithmetic is the integer offset. |
| Clock.DigitsToNumber | src/core/services/widgetService.ts:142 | `Number` of a digit string is its decimal value. |
| Clock.PadStartClock | src/core/services/widgetService.ts:150 | Padding a number below 60 to two characters gives its two-digit form. |
| Clock.ComputeAlarmTimeNoColon | src/core/services/widgetService.ts:141-151 | Example: a time without a colon yields "07:NaN" for "7". |
| RoutineStore.MaxSortOrder | src/core/stores/routineStore.ts:40 | The result is the largest sortOrder, or -1 for no routines. |
| RoutineStore.NewSortOrderIsFresh | src/core/stores/routineStore.ts:40-42 | A new routine's sortOrder is 0 in an empty store, and above every existing sortOrder otherwise. |
| RoutineStore.ApplyPatchLaws | src/core/stores/routineStore.ts:69-75 | The empty patch changes nothing, and applying a patch twice is applying it once. |
| RoutineStore.UpdatedRoutines | src/core/stores/routineStore.ts:69-75 | Only routines with the id are patched; all others are unchanged and the length is kept. |
| RoutineStore.UpdateUnknownId | src/core/stores/routineStore.ts:69-75 | An unknown id leaves the routines unchanged. |
| RoutineStore.ToggledRoutines | src/core/stores/routineStore.ts:84-90 | Only the routine with the id flips isActive; nothing else changes. |
| RoutineStore.ToggleTwice | src/core/stores/routineStore.ts:84-90 | Toggling the same id twice restores the list. |
| RoutineStore.IndexOf | src/core/stores/routineStore.ts:95 | The first position of the id in the list, or -1 exactly when it is absent. |
| RoutineStore.ReorderedRoutines | src/core/stores/routineStore.ts:92-99 | A listed routine's sortOrder becomes its first position in the list; unlisted routines are untouched. |
| RoutineStore.ReorderByFullList | src/core/stores/routineStore.ts:92-99 | A listed routine's new sortOrder is a position of the list that holds its id. |
| RoutineStore.DeleteCascade | src/core/stores/routineStore.ts:77-82 | Delete keeps exactly the routines with another id and exactly the logs of other routines. |
| RoutineStore.CompleteProperties | src/core/stores/routineStore.ts:101-119 | Completing keeps logs unique, marks the routine done that day, and a second completion the same day changes nothing. |
| RoutineStore.FilterKeepsUnique | src/core/stores/routineStore.ts:79-80 | Removing logs keeps "at most one log per routine and day". |
| RoutineStore.UncompleteProperties | src/core/stores/routineStore.ts:121-128 | Uncompleting removes exactly the logs of that routine on that day, so it is no longer done, and keeps logs unique. |
| RoutineStore.SelectActiveRoutinesSpec | src/core/stores/routineStore.ts:132-134 | The selection holds exactly the active routines, as a permutation of their filter, ordered by sortOrder. |
| RoutineStore.SelectTodayCompletedIdsSpec | src/core/stores/routineStore.ts:136-139 | An id is selected exactly when there is a log for it today. |
| RoutineStore.Store.constructor | src/core/stores/routineStore.ts:22-35 | The store starts empty and satisfies its invariant. |
| RoutineStore.Store.AddRoutine | src/core/stores/routineStore.ts:37-67 | Appends one routine with the generated id `routine_<now>_<counter>` (the counter is advanced) and the next sortOrder; the logs are unchanged; the invariant is kept. |
| RoutineStore.Store.UpdateRoutine | src/core/stores/routineStore.ts:69-75 | The routines become the patched list; the logs are unchanged. |
| RoutineStore.Store.DeleteRoutine | src/core/stores/routineStore.ts:77-82 | Removes the routine and every one of its logs, and nothing else. |
| RoutineStore.Store.ToggleRoutineActive | src/core/stores/routineStore.ts:84-90 | Flips isActive of the matching routine; the logs are unchanged. |
| RoutineStore.Store.ReorderRoutines | src/core/stores/routineStore.ts:92-99 | Renumbers the listed routines by list position; the logs are unchanged. |
| RoutineStore.Store.CompleteRoutine | src/core/stores/routineStore.ts:101-119 | Does nothing if the routine is already done today; otherwise appends exactly one log for today; the invariant is kept. |
| RoutineStore.Store.UncompleteRoutine | src/core/stores/routineStore.ts:121-128 | Removes the logs of the routine on the given day (today by default) and nothing else. |
| Analytics.DayIndexSpec | src/core/services/analyticsService.ts:100-106 | A routine id is in a day's set exactly when some log records it on that day. |
| Analytics.BuildIndex | src/core/services/analyticsService.ts:101-106 | The loop builds the day index. |
| Analytics.CompletedCount | src/core/services/analyticsService.ts:109-110 | A day's completed count never exceeds the number of active routines. |
| Analytics.CompletedCountFromLogs | src/core/services/analyticsService.ts:101-110 | Counting through the index is counting the active routines logged that day, so duplicate logs count once. |
| Analytics.WindowKeys | src/core/services/analyticsService.ts:72-90 | A window of n days has n keys. |
| Analytics.LastDays | src/core/services/analyticsService.ts:72-90 | The loop produces the window's keys. |
| Analytics.WindowKeysChronological | src/core/services/analyticsService.ts:72-90 | The window ends with today's key, and its keys are in chronological order, oldest first. |
| Analytics.DayStats | src/core/services/analyticsService.ts:115-125 | A day's stats have the active routines as the total, at most that many completed, and a rate in [0,100]. |
| Analytics.Trend | src/core/services/analyticsService.ts:115-125 | One stats entry per key, in key order. |
| Analytics.AverageRate | src/core/services/analyticsService.ts:127-130 | The rounded mean of the daily rates, in [0,100]. |
| Analytics.MonthlyAverage | src/core/services/analyticsService.ts:132-142 | The rounded mean of the unrounded daily rates, in [0,100]; 0 with no routines or days. |
| Analytics.TrailingRun | src/core/services/analyticsService.ts:228-233 | The run at the end of the window is no longer than the window. |
| Analytics.LongestRun | src/core/services/analyticsService.ts:219-245 | The longest run lies between the trailing run and the window length. |
| Analytics.LongestRunSpec | src/core/services/analyticsService.ts:219-245 | The longest run bounds every run of active days, and some run attains it. |
| Analytics.FirstTrue | src/core/services/analyticsService.ts:239 | The first active day of the scan, or none when no day is active. |
| Analytics.StreakBounds | src/core/services/analyticsService.ts:234-245 | The current streak is 0 or 1, and never above the longest. |
| Analytics.LastActiveDateSpec | src/core/services/analyticsService.ts:239 | The last active date is empty exactly when no day in the window is active; otherwise it is the key of the most recent active day. |
| Analytics.CheckDay | src/core/services/analyticsService.ts:226-233 | One day's key, and whether at least half of the active routines were done on it. |
| Analytics.ScanAdvance | src/core/services/analyticsService.ts:233-243 | One step of the scan, on both branches, keeps the scan's invariant. |
| Analytics.ScanDone | src/core/services/analyticsService.ts:245-247 | At the end of the window the scan's variables are the streak the window defines. |
| Analytics.CalculateStreak | src/core/services/analyticsService.ts:212-248 | The scan of today and the 364 days before returns the streak defined on the active-day flags of the window. |
| Analytics.FindKey | src/core/services/analyticsService.ts:150 | Finds the entry with the key, or reports that none has it. |
| Analytics.TallyCounts | src/core/services/analyticsService.ts:148-183 | Each key's entry counts its occurrences and how many of them are done. |
| Analytics.TallyDistinct | src/core/services/analyticsService.ts:148-155 | No key has two entries. |
| Analytics.TallySum | src/core/services/analyticsService.ts:148-183 | The entry counts add up to the number of routines. |
| Analytics.TallyEntries | src/core/services/analyticsService.ts:148-183 | Every entry's key occurs in the input, with done count at most count. |
| Analytics.TallyCovers | src/core/services/analyticsService.ts:148-155 | Every key in the input has an entry. |
| Analytics.TallyRates | src/core/services/analyticsService.ts:160-183 | Every entry's rate lies in [0,100]. |
| Analytics.BuildTally | src/core/services/analyticsService.ts:148-155 | The loop produces the tally. |
| Analytics.BestIndex | src/core/services/analyticsService.ts:286-289 | An entry with the highest rate, the earliest such entry on ties. |
| Analytics.GenerateInsights | src/core/services/analyticsService.ts:251-307 | At most four messages. |
| Analytics.InsightsPrefix | src/core/services/analyticsService.ts:306 | The list is the first messages of the rule order, starting with the today tier. |
| Analytics.GenerateInsightsTiers | src/core/services/analyticsService.ts:259-272 | With no routines the list is only the prompt to add one. Otherwise each today tier (100, 70-99, 1-69) appears exactly when the rate is in its range. |
| Analytics.OnlyTierIsToday | src/core/services/analyticsService.ts:261-272 | Among all the rules' messages only the tier message concerns today, and none is the add-routine prompt. |
| Analytics.GenerateInsightsJustified | src/core/services/analyticsService.ts:274-304 | A streak message requires a streak of at least 3. A best-slot or best-category message names the top-rated entry with a positive rate. |
| Analytics.CalculateAnalytics | src/core/services/analyticsService.ts:93-209 | Every figure of the overview is the one its definition gives: today's counts and rate, both trends and averages, the streak, the log total, the tallies and the insights. |
| Analytics.OverviewConsistent | src/core/services/analyticsService.ts:148-183 | Category and slot counts each add up to today's total, the current streak is at most 1 and at most the longest, and so no streak message is ever produced. |
| Widget.DailyMotivationIndex | src/core/services/widgetService.ts:121-126 | The quote index is always within the table. |
| Widget.DailyMotivationRotates | src/core/services/widgetService.ts:121-126 | The quote repeats every 7 days and differs on each of the 6 days in between. |
| Widget.GetRepeatLabel | src/core/services/widgetService.ts:129-139 | A label exists only for a known repeat type. Every known type except "interval" has one. "interval" has one exactly when a non-zero day count is present, as the source's truthiness test gives. |
| Widget.RepeatLabelInjective | src/core/services/widgetService.ts:129-139 | Equal labels come from the same repeat type. |
| Widget.AlarmItems | src/core/services/widgetService.ts:208-219 | One alarm item per routine, in order. |
| Widget.ByAlarmTimeIsPreorder | src/core/services/widgetService.ts:221 | Comparing alarm times is total and transitive. |
| Widget.AlarmCandidates | src/core/services/widgetService.ts:202-207 | Every candidate has a scheduled time. |
| Widget.EarliestAlarms | src/core/services/widgetService.ts:221-222 | At most five alarms are kept. |
| Widget.EarliestAlarmsLeast | src/core/services/widgetService.ts:221-222 | The kept alarms come from the input, and none left out is earlier than any kept. |
| Widget.UpcomingAlarmsBounded | src/core/services/widgetService.ts:202-222 | The list is sorted by alarm time and holds min(5, number of future alarms) entries. |
| Widget.UpcomingAlarmsMembers | src/core/services/widgetService.ts:202-220 | Every upcoming alarm is at or after now and belongs to an active, reminder-enabled routine with a time that is not done today. |
| Widget.UpcomingAlarmsEarliest | src/core/services/widgetService.ts:220-222 | The upcoming alarms are the earliest of the future alarms. |
| Widget.NextAlarmIsFirstUpcoming | src/core/services/widgetService.ts:309-343 | The next alarm is the head of the upcoming list, and there is none exactly when that list is empty. |
| Widget.NextRoutineSpec | src/core/services/widgetService.ts:188-196 | The next routine is the first open routine of the current slot; if there is none, the first open routine overall; and none exactly when all are done. |
| Widget.NextRoutineOpen | src/core/services/widgetService.ts:188-196 | The next routine is never one that is done today. |
| Widget.BloomEmojiIndex | src/core/services/widgetService.ts:172 | The emoji index is in the table, and is the stage itself for a stage in range. |
| Widget.BuildDailyProgressData | src/core/services/widgetService.ts:174-234 | The total is the number of active routines and completed is at most that. The percentage is the completion rate. The next routine is open, and there are at most five alarms. |
| Widget.DailyProgressCounts | src/core/services/widgetService.ts:179-196 | The completed count is the number of active routines logged today. |
| Widget.ListOrderIsPreorder | src/core/services/widgetService.ts:246-254 | The list order is total and transitive. |
| Widget.ListItems | src/core/services/widgetService.ts:255 | One item per routine, completed exactly when logged today. |
| Widget.BuildRoutineListData | src/core/services/widgetService.ts:236-262 | Lists every active routine once, each marked completed exactly when logged today, with completed at most total. |
| Widget.RoutineListOrder | src/core/services/widgetService.ts:245-254 | The list is a permutation of the active routines. Scheduled routines come first, by time; unscheduled ones follow by sortOrder. Equal routines keep their input order. |
| Widget.RoutineListCounts | src/core/services/widgetService.ts:259-260 | The list's counts agree with the progress card's. |
| Widget.HandleWidgetQuickComplete | src/core/services/widgetService.ts:281-302 | An unknown id fails and changes nothing. Otherwise the action flips whether the routine is done today and reports which way; the store invariant is kept. |
| Widget.QuickCompleteTwice | src/core/services/widgetService.ts:281-302 | Two quick completes restore whether the routine is done today. |
| Notifications.Weekday | src/platform/notifications.ts:36-38 | A code names a day exactly when, trimmed and lower-cased, it is one of sun … sat. The day's number is its 1-based position in the week, from 1 (Sunday) to 7 (Saturday). |
| Notifications.AlarmTime | src/platform/notifications.ts:43-55 | There is an alarm time exactly when the routine has a time, its reminder is on and the time parses. |
| Notifications.AlarmTimeMatchesWidget | src/platform/notifications.ts:49-55 | The planner's alarm time is valid and formats to the widget's alarm time. |
| Notifications.WithoutPrefix | src/platform/notifications.ts:136-141 | Keeps exactly the identifiers without the prefix, with their triggers. |
| Notifications.AlarmScheduler.constructor | src/platform/notifications.ts:131-164 | No notification is scheduled at first. |
| Notifications.AlarmScheduler.CancelRoutineAlarm | src/platform/notifications.ts:131-144 | Cancels every identifier starting with the routine's prefix and keeps all others. |
| Notifications.AlarmScheduler.CancelAllAlarms | src/platform/notifications.ts:147-155 | Nothing remains scheduled. |
| Notifications.AlarmScheduler.ScheduleRoutineAlarm | src/platform/notifications.ts:41-128 | Returns the identifier the planner reports, and the new set is the old set with the routine's alarms replaced. |
| Notifications.AlarmScheduler.AddWeeklyAlarms | src/platform/notifications.ts:82-102 | Adds one weekly alarm per listed code that names a day. |
| Notifications.AlarmScheduler.RescheduleAllAlarms | src/platform/notifications.ts:158-164 | The set becomes the alarms of the eligible routines, scheduled in order from empty. |
| Notifications.ScheduleAllStep | src/platform/notifications.ts:160-163 | Rescheduling one more routine schedules that routine on top of the earlier result. |
| Notifications.WeeklyIdsSpec | src/platform/notifications.ts:100 | The weekly identifiers are those of the listed codes that name a day. |
| Notifications.AddWeeklyKeys | src/platform/notifications.ts:82-102 | Adding weekly alarms adds exactly the weekly identifiers. |
| Notifications.AddWeeklyKeeps | src/platform/notifications.ts:82-102 | Other identifiers keep their triggers. |
| Notifications.AddWeeklyValue | src/platform/notifications.ts:82-102 | Each listed day gets a weekly trigger on that day at the alarm time. |
| Notifications.DayAlarmIdInjective | src/platform/notifications.ts:100 | Different codes give different identifiers. |
| Notifications.ScheduleKeepsOthers | src/platform/notifications.ts:60-61 | Scheduling touches only identifiers under the routine's prefix. |
| Notifications.ScheduleWithoutTime | src/platform/notifications.ts:43-46 | Without an alarm time nothing is cancelled or scheduled, and the result is null. |
| Notifications.ScheduleDaily | src/platform/notifications.ts:104-121 | A daily routine ends with exactly one alarm under its prefix, `routine_<id>`, daily at the alarm time. |
| Notifications.ScheduleSpecificDays | src/platform/notifications.ts:79-103 | A specific-days routine ends with one weekly alarm per listed day, identified by the code as written, and no other alarm under its prefix. |
| Notifications.MultiIdNotScheduled | src/platform/notifications.ts:103 | The `_multi` identifier returned for specific days is never itself scheduled. |
| Notifications.CancelMatchesLongerIds | src/platform/notifications.ts:136-141 | Cancelling routine p also removes every alarm of any routine whose id starts with p, for example routine "12" when "1" is cancelled. |
| Notifications.RescheduleAllSound | src/platform/notifications.ts:158-164 | Every alarm after a reschedule belongs to a routine that has an alarm time, and carries its prefix. |
| Notifications.RescheduleAllComplete | src/platform/notifications.ts:158-164 | When no routine's prefix extends another's, every alarm each routine would get alone is present after a reschedule. |
| Notifications.OwnAlarmsIndependent | src/platform/notifications.ts:58-121 | A routine's own alarms do not depend on what was scheduled before. |
| Retention.Kinds | src/core/services/retentionService.ts:70-120 | One kind per nudge, in order. |
| Retention.DoneAtMostActive | src/core/services/retentionService.ts:79-80 | Today's done count never exceeds the number of active routines. |
| Retention.GenerateNudges | src/core/services/retentionService.ts:70-120 | At most three nudges. |
| Retention.NudgeRules | src/core/services/retentionService.ts:76-118 | Nudges come in the order morning, streak-at-risk, care. Each appears exactly when its condition holds, and the first two never appear together. Each has its kind's priority, a message from its table and the pending count. |
| Retention.NudgePlanRules | src/core/services/retentionService.ts:76-118 | The same rules stated on the done and total counts. |
| Retention.CheckMilestone | src/core/services/retentionService.ts:123-134 | A low-priority milestone nudge exactly on the milestone days 3, 7, 14, 21, 30, 50 and 100. |
| Retention.GenerateComebackNudge | src/core/services/retentionService.ts:137-148 | No nudge exactly below 3 days away; otherwise a high-priority comeback nudge with a message from its table. |
| Retention.RiskLevelMonotone | src/core/services/retentionService.ts:176-179 | More days away never lowers the risk level. |
| Retention.ComebackMatchesRisk | src/core/services/retentionService.ts:138 | A comeback nudge is produced exactly at medium or high risk. |
| Retention.DistinctKeys | src/core/services/retentionService.ts:166 | The distinct day keys of the logs, each once. |
| Retention.DistinctCard | src/core/services/retentionService.ts:166-167 | A list without repeats has as many elements as its set. |
| Retention.ByKeyIsPreorder | src/core/services/retentionService.ts:170 | String order of keys is total and transitive. |
| Retention.NoLogsMetrics | src/core/services/retentionService.ts:155-163 | With no logs: 0 active days, no last date, 999 days away, not at risk, no risk. |
| Retention.RetentionMetricsSpec | src/core/services/retentionService.ts:165-187 | daysActive is the number of distinct keys, and the last active date is the greatest key. Days away is the floor of the elapsed days. The risk level and at-risk flag follow from days away. |
| Retention.LastActiveIsLatestDay | src/core/services/retentionService.ts:170-171 | The last active date is the key of the latest logged day. |
| Bloom.CalculateStage | src/core/stores/bloomStore.ts:31-37 | The largest stage whose threshold is at most the points. |
| Bloom.CalculateStageMonotone | src/core/stores/bloomStore.ts:31-37 | More points never give a lower stage. |
| Bloom.CalculateStageReaches | src/core/stores/bloomStore.ts:31-37 | Reaching a threshold reaches at least its stage. |
| Bloom.BloomStore.constructor | src/core/stores/bloomStore.ts:39-52 | The initial companion: stage 0, health 80, neutral mood; within its invariant. |
| Bloom.BloomStore.AddGrowthPoints | src/core/stores/bloomStore.ts:56-69 | Adds the points, recomputes the stage, starts the animations, and shows level-up exactly when the stage rose. |
| Bloom.BloomStore.CompleteRoutine | src/core/stores/bloomStore.ts:71-93 | Adds 5 points and 2 water drops, raises health by 3 up to 100, and makes the mood happy or excited. The stage never decreases. |
| Bloom.BloomStore.UpdateMood | src/core/stores/bloomStore.ts:95 | Sets the mood and nothing else. |
| Bloom.BloomStore.DegradeHealth | src/core/stores/bloomStore.ts:97-102 | Lowers health by the amount, down to 0. The mood is sad below 30, neutral below 60, and unchanged otherwise. |
| Bloom.BloomStore.ResetAnimations | src/core/stores/bloomStore.ts:104-105 | Clears the three animation flags and nothing else. |
| Bloom.HealthAfterRoutine | src/core/stores/bloomStore.ts:75 | Health rises by 3, capped at 100, and never falls. |
| Bloom.HealthAfterDegrade | src/core/stores/bloomStore.ts:99 | Health falls by the amount, but not below 0. |
| Bloom.HealthStaysInRange | src/core/stores/bloomStore.ts:39-102 | From the initial health, any sequence of completions and non-negative degradations keeps health in [0,100]. |
| Coach.CoachStore.constructor | src/core/stores/coachStore.ts:32-37 | Empty conversation, no usage, free user; within the invariant. |
| Coach.CoachStore.RemainingMessages | src/core/stores/coachStore.ts:61-68 | 999 for premium users. For a free user it is in [0,3] and positive exactly when a message may be sent. |
| Coach.CoachStore.InitConversation | src/core/stores/coachStore.ts:39-45 | Adds the welcome message only to an empty conversation. |
| Coach.CoachStore.ClearConversation | src/core/stores/coachStore.ts:47-50 | Only the welcome message remains. |
| Coach.CoachStore.SendMessage | src/core/stores/coachStore.ts:70-90 | Accepted exactly when sending is allowed and no reply is pending; a refused send changes nothing. An accepted send counts for today, appends the user message and waits for the reply. A free user never exceeds 3 sends a day. |
| Coach.CoachStore.ReceiveReply | src/core/stores/coachStore.ts:92-119 | Appends exactly one assistant message, the reply or the error text, and stops waiting. |
| Onboarding.NextStepIndex | src/core/stores/onboardingStore.ts:46-49 | One step forward, staying on the last step. |
| Onboarding.PrevStepIndex | src/core/stores/onboardingStore.ts:51-54 | One step back, staying on the first step. |
| Onboarding.NextThenPrev | src/core/stores/onboardingStore.ts:46-54 | Back after forward returns to the step, except from the last one. |
| Onboarding.PrevThenNext | src/core/stores/onboardingStore.ts:46-54 | Forward after back returns to the step, except from the first one. |
| Onboarding.OnboardingStore.constructor | src/core/stores/onboardingStore.ts:37-41 | Not completed, on the welcome step, with no name and no goals. |
| Onboarding.OnboardingStore.SetUserName | src/core/stores/onboardingStore.ts:43 | Sets the name only. |
| Onboarding.OnboardingStore.SetSelectedGoals | src/core/stores/onboardingStore.ts:44 | Sets the goals only. |
| Onboarding.OnboardingStore.NextStep | src/core/stores/onboardingStore.ts:46-49 | Moves one step forward, a no-op on the last step, and stays in range. |
| Onboarding.OnboardingStore.PrevStep | src/core/stores/onboardingStore.ts:51-54 | Moves one step back, a no-op on the first step, and stays in range. |
| Onboarding.OnboardingStore.CompleteOnboarding | src/core/stores/onboardingStore.ts:56-57 | Sets the completed flag only. |
| Onboarding.OnboardingStore.ResetOnboarding | src/core/stores/onboardingStore.ts:59-65 | Restores the initial state. |
| Onboarding.StepStaysInRange | src/core/stores/onboardingStore.ts:18-54 | Any walk from the first step stays within the five steps. |
| Onboarding.ForwardReachesReady | src/core/stores/onboardingStore.ts:46-49 | Enough forward moves reach the last step from anywhere. |
| Onboarding.ForwardSteps | src/core/stores/onboardingStore.ts:46-49 | Before the last step, each forward move advances exactly one step. |
| Community.ToggleLike | src/core/stores/communityStore.ts:136-143 | Each post is toggled if it has the id and kept otherwise. |
| Community.ToggleLikeCounts | src/core/stores/communityStore.ts:136-143 | The matching post flips its like and gains or loses one like; nothing else about it changes; other posts are untouched. |
| Community.ToggleLikeTwice | src/core/stores/communityStore.ts:136-143 | Toggling the same post twice restores the feed. |
| Community.JoinChallenge | src/core/stores/communityStore.ts:145-158 | Each challenge is joined if it has the id and kept otherwise. |
| Community.LeaveChallenge | src/core/stores/communityStore.ts:160-173 | Each challenge is left if it has the id and kept otherwise. |
| Community.JoinLeaveOne | src/core/stores/communityStore.ts:145-173 | Joining marks the challenge joined now with progress 0 and one more participant. Leaving clears those and removes one participant. Other challenges are untouched. |
| Community.JoinThenLeave | src/core/stores/communityStore.ts:145-173 | Join then leave restores every participant count, and restores entirely a challenge that was not joined. |
| Community.JoinTwiceCountsTwice | src/core/stores/communityStore.ts:145-158 | Joining has no guard: joining twice adds two participants. |
| Community.NewPost | src/core/stores/communityStore.ts:178-188 | The new post is the user's own, unliked, with no likes and the given content. |
| Community.CommunityStore.constructor | src/core/stores/communityStore.ts:123-132 | Starts from the given feed and challenges on the feed tab. |
| Community.CommunityStore.SetActiveTab | src/core/stores/communityStore.ts:134 | Sets the tab only. |
| Community.CommunityStore.ToggleLikeAction | src/core/stores/communityStore.ts:136-143 | Toggles the like on the feed; an unknown id changes nothing. |
| Community.CommunityStore.JoinChallengeAction | src/core/stores/communityStore.ts:145-158 | Joins the challenge; an unknown id changes nothing. |
| Community.CommunityStore.LeaveChallengeAction | src/core/stores/communityStore.ts:160-173 | Leaves the challenge; an unknown id changes nothing. |
| Community.CommunityStore.AddPost | src/core/stores/communityStore.ts:175-191 | Puts the new post first and keeps the feed in order after it. |
| Growth.SubstituteParams | src/core/services/growthService.ts:67-72 | The loop fills each parameter's placeholder in order. |
| Growth.BuildDeepLink | src/core/services/growthService.ts:66-74 | The scheme, "://", then the substituted route path. |
| Growth.BuildUniversalLink | src/core/services/growthService.ts:76-84 | "https://", the domain, then the same substituted path. |
| Growth.ReplaceFirstSpec | src/core/services/growthService.ts:70 | Only the first occurrence is replaced; with none the path is unchanged. |
| Growth.NoParamsKeepPath | src/core/services/growthService.ts:68 | Without parameters the placeholders stay. |
| Growth.UnmatchedParamsNoEffect | src/core/services/growthService.ts:68-72 | Parameters whose placeholder does not occur leave the path unchanged. |
| Growth.CoachLinkSample | src/core/services/growthService.ts:66-74 | Example: the coach link is "routineflow:///coach". |
| Growth.RoutineLinkSample | src/core/services/growthService.ts:66-72 | Example: the routine path with id 42 is "/routine/42". |
| Growth.FirstOccurrenceAt | src/core/services/growthService.ts:70 | A placeholder whose first character occurs nowhere earlier is replaced where it stands. |
| Growth.EventQueue.constructor | src/core/services/growthService.ts:95 | The queue starts empty. |
| Growth.EventQueue.TrackEvent | src/core/services/growthService.ts:97-104 | The event joins the end of the queue, which grows by exactly one. |
| Growth.GetVariantSpec | src/core/services/growthService.ts:186-190 | Control for an unknown or inactive test; otherwise the first matching test's active variant. |
| Growth.ABTestsWellFormed | src/core/services/growthService.ts:158-180 | In the test table every active variant is one of its variants, and the ids are distinct. |
| Growth.GetVariantDeclared | src/core/services/growthService.ts:158-190 | Every variant handed out is the control or a declared variant of the test asked for. |
| Templates.TemplateTableFacts | src/core/data/routineTemplates.ts:16-153 | Every template is daily, done once, and at least a minute long, and the ids are distinct. |
| Templates.TemplatesByTimeSlot | src/core/data/routineTemplates.ts:156-163 | A slot is a key exactly when some template has it, and its group is that slot's templates. |
| Templates.SlotGroupNonEmpty | src/core/data/routineTemplates.ts:159-160 | A slot that is a key has a non-empty group. |
| Templates.GroupSizesSum | src/core/data/routineTemplates.ts:158-161 | The group sizes add up to the number of templates. |
| Templates.GroupKeepsOrder | src/core/data/routineTemplates.ts:158-161 | Each group holds exactly its slot's templates, in table order. |

## Left out

- The user interface, the local database, network sync, authentication, subscriptions, settings, the admin and feedback screens, and the server functions are outside this model.
- Console logging, the `Platform.OS` guards and the `try`/`catch` wrappers in src/platform/notifications.ts:42 and 124-127 are not modelled. The scheduler call is modelled as always succeeding.
- `requestNotificationPermission` (src/platform/notifications.ts:14-26), `setupNotificationHandler` (167 onwards), the Android channel (63-71) and `getDefaultNotificationSchedule` are platform set-up with no state of their own.
- `serializeWidgetData` (src/core/services/widgetService.ts:350-359) and `buildBloomWidgetData` (264-273) only package values for the native widget. The weekly trend's day labels, `formatDateKey`, `getTimeSlotLabel`, `getDayLabel`, icons, colours and `WELLNESS_GOALS` are display text.
- The widget items keep the slot itself instead of the slot's icon.
- `setBloom` (src/core/stores/bloomStore.ts:54) replaces the whole state with a caller's value; there is nothing to prove about it.
- The growth service's event-name helpers, `getABTests`, the campaign and store-listing tables (src/core/services/growthService.ts:107-147 and onwards) are not modelled.
- Template titles, descriptions and icons are display text and not modelled.
- The coach service that writes the welcome message and the reply is not part of this model. Both are parameters. The asynchronous `sendMessage` is split into its synchronous part (`SendMessage`) and its completion (`ReceiveReply`).
- The community store's mock feed and challenge lists are constructor parameters.
- The clock, `Date.now()` and `Math.random` are parameters. Nudge and comeback messages are indices into their tables, chosen by a `draw` parameter. The Bloom mood is an arbitrary choice between happy and excited.
- `daysSinceLastActive` uses the midnight of the last active day as a parameter function (`midnightOf`), not a date parser.
- Floating point is written exactly. `Math.round` of a ratio is computed as the exact rounding of the rational number. The source divides and multiplies in doubles, so where the exact value lies within one rounding error of a half its result can be 1 lower than the model's. The next two lines give inputs where this happens.
- RoutineUtils.RoundRatio, RoutineUtils.CompletionRate, Analytics.DayStats, Analytics.CalculateAnalytics, Widget.BuildDailyProgressData: a rate may be 1 higher than the source's when 100·c/t lies within one ulp of a half. For 23 of 40 the model gives 58. The source computes `Math.round(57.49999999999999)`, which is 57.
- Analytics.MonthlyAverage: the 30-day mean diverges in the same way. Take 12 active routines with one completion on each of 9 of the 30 days. The model gives 3. The source's sum is 74.99999999999997, its mean 2.499999999999999, and it rounds that to 2.
- Text.LexLe: `localeCompare` and `Array.prototype.sort` without a comparator are modelled as ordinal code-point order, since a Dafny `char` is a Unicode scalar value. JavaScript compares UTF-16 code units. The two orders agree on text within the Basic Multilingual Plane, which includes the ASCII day keys and times compared here. They differ when a character above U+FFFF meets one in U+E000–U+FFFF.
- `Object.entries` order is the order of the given parameter list. JavaScript `Map` insertion order is a list of entries.
- `String.prototype.replace` is modelled for patterns and replacements without `$` sequences.
- Clock.ToNumber: models `Number` only on digit strings and the empty string. Surrounding white space is trimmed first, as `Number` does. Signs, decimals, hexadecimal and exponents give NaN in the model.
- `repeatType` and `repeatIntervalDays`, read by the widget but not declared on the routine type, are optional fields of the routine.
- Clock.OffsetTimeIsModular, Clock.ComputeAlarmTimeWellFormed, Notifications.AlarmTimeMatchesWidget: require an offset of at most 60 minutes. The source borrows at most one hour. Clock.OffsetTimeLongOffset shows what a longer offset gives.
- RoutineStore.Store: the methods require and keep the invariant "at most one log per routine and day". The source states no such precondition, but its constructor establishes the invariant and every operation keeps it.
- Behaviours of the source kept as written:
  - the current streak never exceeds 1, so the 3- and 7-day streak insights are unreachable (Analytics.OverviewConsistent);
  - `totalCompletions` counts every log, including those of inactive routines;
  - the routine list does not tie-break equal times;
  - the next routine follows store order, not sortOrder;
  - alarms follow `frequencyType`, not `repeatType`.
