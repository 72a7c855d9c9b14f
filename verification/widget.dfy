/**
 * The data the home-screen widgets show, built from a snapshot of the routine
 * store, the day key and the wall-clock hour and minute: the daily progress
 * card with its next routine and upcoming alarms, the routine checklist, the
 * next alarm, the quote of the day, and the quick-complete toggle the widget
 * sends back to the store.
 */
module Widget {
  import opened Text
  import opened Types
  import opened Seqs
  import opened Clock
  import opened RoutineUtils
  import opened RoutineStore

  // ---------------------------------------------------------------------------
  // Quote of the day and repeat labels
  // ---------------------------------------------------------------------------

  const MOTIVATION_QUOTE_COUNT: nat := 7

  /** The position in the seven-quote table that `getDailyMotivation` shows on day `dayOfYear` of the year. */
  function DailyMotivationIndex(dayOfYear: nat): (i: nat)
    ensures i < MOTIVATION_QUOTE_COUNT
  {
    dayOfYear % MOTIVATION_QUOTE_COUNT
  }

  /** The quote repeats weekly, and the seven days of any week show seven different quotes. */
  lemma DailyMotivationRotates(dayOfYear: nat, k: nat)
    ensures DailyMotivationIndex(dayOfYear + MOTIVATION_QUOTE_COUNT) == DailyMotivationIndex(dayOfYear)
    ensures 0 < k < MOTIVATION_QUOTE_COUNT ==> DailyMotivationIndex(dayOfYear + k) != DailyMotivationIndex(dayOfYear)
  {
    var q, r := dayOfYear / 7, dayOfYear % 7;
    assert dayOfYear + 7 == 7 * (q + 1) + r;
    if 0 < k < 7 {
      if r + k < 7 {
        assert dayOfYear + k == 7 * q + (r + k);
      } else {
        assert dayOfYear + k == 7 * (q + 1) + (r + k - 7);
      }
    }
  }

  /** The label kinds `getRepeatLabel` returns; the display text itself is not modelled. */
  datatype RepeatLabel = EveryDay | Weekdays | Weekends | OneTime | EveryNDays(days: int) | SelectedDays

  const KNOWN_REPEAT_TYPES: set<string> := {"daily", "weekdays", "weekends", "once", "interval", "specific_days"}

  /**
   * `getRepeatLabel`: a label for each known repeat type; an interval gets one
   * only when its day count is truthy (present and non-zero).
   */
  function GetRepeatLabel(r: Routine): (tag: Option<RepeatLabel>)
    ensures tag.Some? ==> r.repeatType.Some? && r.repeatType.value in KNOWN_REPEAT_TYPES
    ensures r.repeatType.Some? && r.repeatType.value in KNOWN_REPEAT_TYPES && r.repeatType.value != "interval" ==> tag.Some?
    ensures r.repeatType == Some("interval") ==>
      (tag.Some? <==> r.repeatIntervalDays.Some? && r.repeatIntervalDays.value != 0)
    ensures r.repeatType == Some("interval") && tag.Some? ==> tag.value == EveryNDays(r.repeatIntervalDays.value)
  {
    if r.repeatType.None? then None
    else
      var t := r.repeatType.value;
      if t == "daily" then Some(EveryDay)
      else if t == "weekdays" then Some(Weekdays)
      else if t == "weekends" then Some(Weekends)
      else if t == "once" then Some(OneTime)
      else if t == "interval" then
        (if r.repeatIntervalDays.Some? && r.repeatIntervalDays.value != 0 then Some(EveryNDays(r.repeatIntervalDays.value)) else None)
      else if t == "specific_days" then Some(SelectedDays)
      else None
  }

  /** Distinct repeat types never share a label. */
  lemma RepeatLabelInjective(a: Routine, b: Routine)
    requires GetRepeatLabel(a).Some? && GetRepeatLabel(a) == GetRepeatLabel(b)
    ensures a.repeatType == b.repeatType
  {
  }

  // ---------------------------------------------------------------------------
  // Widget records
  // ---------------------------------------------------------------------------

  /** One routine row of a widget; the slot stands for the slot's icon. */
  datatype WidgetRoutineItem = WidgetRoutineItem(
    id: string,
    title: string,
    icon: string,
    color: string,
    isCompleted: bool,
    timeSlot: TimeSlot,
    scheduledTime: Option<string>,
    reminderEnabled: bool,
    durationMinutes: Option<int>,
    repeatLabel: Option<RepeatLabel>)

  function ToWidgetRoutineItem(r: Routine, isCompleted: bool): WidgetRoutineItem {
    WidgetRoutineItem(r.id, r.title, r.icon, r.color, isCompleted, r.timeSlot, r.scheduledTime,
      r.reminderEnabled, r.durationMinutes, GetRepeatLabel(r))
  }

  /** One alarm row: the routine's scheduled time and the time the reminder fires. */
  datatype AlarmItem = AlarmItem(
    routineId: string,
    routineTitle: string,
    routineIcon: string,
    routineColor: string,
    scheduledTime: string,
    reminderMinutesBefore: int,
    alarmTime: string)

  function ToAlarmItem(r: Routine): AlarmItem
    requires HasScheduledTime(r)
  {
    var t := r.scheduledTime.value;
    AlarmItem(r.id, r.title, r.icon, r.color, t, r.reminderMinutesBefore, ComputeAlarmTime(t, r.reminderMinutesBefore))
  }

  /** `.map(toAlarmItem)`. */
  function AlarmItems(rs: seq<Routine>): (items: seq<AlarmItem>)
    requires forall k :: 0 <= k < |rs| ==> HasScheduledTime(rs[k])
    ensures |items| == |rs|
    ensures forall k :: 0 <= k < |rs| ==> items[k] == ToAlarmItem(rs[k])
  {
    if rs == [] then [] else [ToAlarmItem(rs[0])] + AlarmItems(rs[1..])
  }

  // ---------------------------------------------------------------------------
  // Upcoming alarms and the next alarm
  // ---------------------------------------------------------------------------

  /** The alarm filter of the progress card: not done today, reminder on, a scheduled time. */
  function NeedsAlarm(logs: seq<RoutineLog>, key: string): Routine -> bool {
    (r: Routine) => !HasLog(logs, r.id, key) && r.reminderEnabled && HasScheduledTime(r)
  }

  /** The alarm filter of `getNextAlarmInfo`, which also tests `isActive` itself. */
  function ActiveNeedsAlarm(logs: seq<RoutineLog>, key: string): Routine -> bool {
    (r: Routine) => r.isActive && !HasLog(logs, r.id, key) && r.reminderEnabled && HasScheduledTime(r)
  }

  /** `a.alarmTime >= now`, compared as strings. */
  function NotBefore(now: string): AlarmItem -> bool {
    (a: AlarmItem) => LexLe(now, a.alarmTime)
  }

  /** The comparator `a.alarmTime.localeCompare(b.alarmTime)`, as "a may precede b". */
  function ByAlarmTime(): (AlarmItem, AlarmItem) -> bool {
    (a: AlarmItem, b: AlarmItem) => LexLe(a.alarmTime, b.alarmTime)
  }

  lemma ByAlarmTimeIsPreorder()
    ensures TotalPreorder(ByAlarmTime())
  {
    forall a: AlarmItem, b: AlarmItem ensures TotalAt(ByAlarmTime(), a, b) {
      LexLeTotal(a.alarmTime, b.alarmTime);
    }
    forall a: AlarmItem, b: AlarmItem, c: AlarmItem ensures TransAt(ByAlarmTime(), a, b, c) {
      if LexLe(a.alarmTime, b.alarmTime) && LexLe(b.alarmTime, c.alarmTime) {
        LexLeTrans(a.alarmTime, b.alarmTime, c.alarmTime);
      }
    }
  }

  /** The active routines that need an alarm, in store order. */
  function AlarmCandidates(routines: seq<Routine>, logs: seq<RoutineLog>, key: string): (c: seq<Routine>)
    ensures forall k :: 0 <= k < |c| ==> HasScheduledTime(c[k])
  {
    var active := Filter(routines, IsActiveRoutine());
    FilterMembers(active, NeedsAlarm(logs, key));
    Filter(active, NeedsAlarm(logs, key))
  }

  /** The candidates' alarms that fire at `now` or later, before sorting. */
  function FutureAlarms(routines: seq<Routine>, logs: seq<RoutineLog>, key: string, now: string): seq<AlarmItem> {
    Filter(AlarmItems(AlarmCandidates(routines, logs, key)), NotBefore(now))
  }

  const MAX_UPCOMING_ALARMS: nat := 5

  /** The `upcomingAlarms` of the progress card at clock string `now`: the future alarms sorted by time, at most five. */
  function UpcomingAlarms(routines: seq<Routine>, logs: seq<RoutineLog>, key: string, now: string): seq<AlarmItem> {
    EarliestAlarms(FutureAlarms(routines, logs, key, now))
  }

  /** `.sort(...).slice(0, 5)`: the alarms sorted by time, cut to the first five. */
  function EarliestAlarms(f: seq<AlarmItem>): (u: seq<AlarmItem>)
    ensures |u| <= MAX_UPCOMING_ALARMS
  {
    var all := SortBy(f, ByAlarmTime());
    if |all| > MAX_UPCOMING_ALARMS then all[..MAX_UPCOMING_ALARMS] else all
  }

  /** The cut list holds occurrences of `f` only, and no left-out alarm fires before a kept one. */
  lemma EarliestAlarmsLeast(f: seq<AlarmItem>)
    ensures var u := EarliestAlarms(f);
      && multiset(u) <= multiset(f)
      && forall x :: multiset(u)[x] < multiset(f)[x] ==>
           forall j :: 0 <= j < |u| ==> LexLe(u[j].alarmTime, x.alarmTime)
  {
    var all := SortBy(f, ByAlarmTime());
    var u := EarliestAlarms(f);
    ByAlarmTimeIsPreorder();
    SortByPrefixLeast(f, ByAlarmTime(), |u|);
    assert u == all[..|u|];
  }

  /** At most five alarms, ordered by alarm time, and as many as there are future alarms up to five. */
  lemma UpcomingAlarmsBounded(routines: seq<Routine>, logs: seq<RoutineLog>, key: string, now: string)
    ensures var u := UpcomingAlarms(routines, logs, key, now);
      var n := |FutureAlarms(routines, logs, key, now)|;
      && |u| == (if n > MAX_UPCOMING_ALARMS then MAX_UPCOMING_ALARMS else n)
      && SortedBy(u, ByAlarmTime())
  {
    EarliestAlarmsBounded(FutureAlarms(routines, logs, key, now));
  }

  lemma EarliestAlarmsBounded(f: seq<AlarmItem>)
    ensures var u := EarliestAlarms(f);
      && |u| == (if |f| > MAX_UPCOMING_ALARMS then MAX_UPCOMING_ALARMS else |f|)
      && SortedBy(u, ByAlarmTime())
  {
    ByAlarmTimeIsPreorder();
    SortBySorted(f, ByAlarmTime());
    SortByPermutation(f, ByAlarmTime());
    assert |multiset(SortBy(f, ByAlarmTime()))| == |multiset(f)|;
  }

  /** `x` is the alarm of an active routine that is not done today, has its reminder on and has a scheduled time. */
  predicate AlarmOfPending(routines: seq<Routine>, logs: seq<RoutineLog>, key: string, x: AlarmItem) {
    exists r :: r in routines && r.isActive && !HasLog(logs, r.id, key) && r.reminderEnabled
      && HasScheduledTime(r) && x == ToAlarmItem(r)
  }

  /**
   * Every listed alarm fires at `now` or later and belongs to an active routine
   * that is not done today, has its reminder on and has a scheduled time.
   */
  lemma UpcomingAlarmsMembers(routines: seq<Routine>, logs: seq<RoutineLog>, key: string, now: string)
    ensures var u := UpcomingAlarms(routines, logs, key, now);
      forall x :: x in u ==> LexLe(now, x.alarmTime) && AlarmOfPending(routines, logs, key, x)
  {
    var u := UpcomingAlarms(routines, logs, key, now);
    forall x | x in u
      ensures LexLe(now, x.alarmTime) && AlarmOfPending(routines, logs, key, x)
    {
      FutureAlarmMember(routines, logs, key, now, x);
    }
  }

  lemma FutureAlarmMember(routines: seq<Routine>, logs: seq<RoutineLog>, key: string, now: string, x: AlarmItem)
    requires x in UpcomingAlarms(routines, logs, key, now)
    ensures LexLe(now, x.alarmTime)
    ensures AlarmOfPending(routines, logs, key, x)
  {
    var active := Filter(routines, IsActiveRoutine());
    var c := AlarmCandidates(routines, logs, key);
    var items := AlarmItems(c);
    var f := FutureAlarms(routines, logs, key, now);
    SortByMember(f, ByAlarmTime(), x);
    FilterIn(items, NotBefore(now), x);
    var k :| 0 <= k < |items| && items[k] == x;
    var r := c[k];
    assert r in c;
    FilterIn(active, NeedsAlarm(logs, key), r);
    FilterIn(routines, IsActiveRoutine(), r);
    assert r.isActive && !HasLog(logs, r.id, key) && r.reminderEnabled && HasScheduledTime(r) && x == ToAlarmItem(r);
  }

  /** Every future alarm left off the list fires no earlier than each listed one: the list holds the earliest ones. */
  lemma UpcomingAlarmsEarliest(routines: seq<Routine>, logs: seq<RoutineLog>, key: string, now: string)
    ensures var u := UpcomingAlarms(routines, logs, key, now);
      var f := FutureAlarms(routines, logs, key, now);
      && multiset(u) <= multiset(f)
      && forall x :: multiset(u)[x] < multiset(f)[x] ==>
           forall j :: 0 <= j < |u| ==> LexLe(u[j].alarmTime, x.alarmTime)
  {
    EarliestAlarmsLeast(FutureAlarms(routines, logs, key, now));
  }

  /** `getNextAlarmInfo` at clock string `now`: the earliest future alarm of all active routines, if any. */
  function NextAlarmInfo(routines: seq<Routine>, logs: seq<RoutineLog>, key: string, now: string): Option<AlarmItem> {
    var c := Filter(routines, ActiveNeedsAlarm(logs, key));
    FilterMembers(routines, ActiveNeedsAlarm(logs, key));
    var all := SortBy(Filter(AlarmItems(c), NotBefore(now)), ByAlarmTime());
    if |all| > 0 then Some(all[0]) else None
  }

  /** The next alarm is the head of the upcoming-alarm list, and there is none exactly when that list is empty. */
  lemma NextAlarmIsFirstUpcoming(routines: seq<Routine>, logs: seq<RoutineLog>, key: string, now: string)
    ensures var u := UpcomingAlarms(routines, logs, key, now);
      NextAlarmInfo(routines, logs, key, now) == if u == [] then None else Some(u[0])
  {
    FilterFilter(routines, IsActiveRoutine(), NeedsAlarm(logs, key), ActiveNeedsAlarm(logs, key));
  }

  // ---------------------------------------------------------------------------
  // The daily progress card
  // ---------------------------------------------------------------------------

  /** Not done today and in slot `slot`. */
  function IncompleteIn(logs: seq<RoutineLog>, key: string, slot: TimeSlot): Routine -> bool {
    (r: Routine) => !HasLog(logs, r.id, key) && r.timeSlot == slot
  }

  function Incomplete(logs: seq<RoutineLog>, key: string): Routine -> bool {
    (r: Routine) => !HasLog(logs, r.id, key)
  }

  /** The position in `active` of the routine the card suggests: the current slot's first open one, else the first open one. */
  function NextRoutineIndex(active: seq<Routine>, logs: seq<RoutineLog>, key: string, slot: TimeSlot): Option<nat> {
    var inSlot := FindIndex(active, IncompleteIn(logs, key, slot));
    if inSlot.Some? then inSlot else FindIndex(active, Incomplete(logs, key))
  }

  /**
   * There is no next routine exactly when every routine is done today;
   * otherwise it is not done, it is the first open routine of the current slot
   * when the slot has one, and else the first open routine of all.
   */
  lemma NextRoutineSpec(active: seq<Routine>, logs: seq<RoutineLog>, key: string, slot: TimeSlot)
    ensures var i := NextRoutineIndex(active, logs, key, slot);
      && (i.None? <==> forall k :: 0 <= k < |active| ==> HasLog(logs, active[k].id, key))
      && (i.Some? ==> i.value < |active| && !HasLog(logs, active[i.value].id, key))
      && (i.Some? && (exists k :: 0 <= k < |active| && IncompleteIn(logs, key, slot)(active[k])) ==>
            active[i.value].timeSlot == slot && forall k :: 0 <= k < i.value ==> !IncompleteIn(logs, key, slot)(active[k]))
      && (i.Some? && (forall k :: 0 <= k < |active| ==> !IncompleteIn(logs, key, slot)(active[k])) ==>
            forall k :: 0 <= k < i.value ==> HasLog(logs, active[k].id, key))
  {
    var i := NextRoutineIndex(active, logs, key, slot);
    var inSlot := FindIndex(active, IncompleteIn(logs, key, slot));
    var any := FindIndex(active, Incomplete(logs, key));
    if inSlot.None? {
      assert i == any;
      assert forall k :: 0 <= k < |active| ==> Incomplete(logs, key)(active[k]) == !HasLog(logs, active[k].id, key);
    } else {
      assert IncompleteIn(logs, key, slot)(active[inSlot.value]);
    }
  }

  /** The next routine, when there is one, is a routine of the list that is not done today. */
  lemma NextRoutineOpen(active: seq<Routine>, logs: seq<RoutineLog>, key: string, slot: TimeSlot)
    ensures var i := NextRoutineIndex(active, logs, key, slot);
      i.Some? ==> i.value < |active| && !HasLog(logs, active[i.value].id, key)
  {
    var inSlot := FindIndex(active, IncompleteIn(logs, key, slot));
    if inSlot.Some? {
      assert IncompleteIn(logs, key, slot)(active[inSlot.value]);
    } else {
      var any := FindIndex(active, Incomplete(logs, key));
      if any.Some? {
        assert Incomplete(logs, key)(active[any.value]);
      }
    }
  }

  const BLOOM_STAGE_EMOJI_COUNT: nat := 5

  /** `BLOOM_STAGE_EMOJIS[stage] || first`: the stage's emoji, the first one for a stage outside the table. */
  function BloomEmojiIndex(stage: int): (i: nat)
    ensures i < BLOOM_STAGE_EMOJI_COUNT
    ensures 0 <= stage < BLOOM_STAGE_EMOJI_COUNT ==> i == stage
  {
    if 0 <= stage < BLOOM_STAGE_EMOJI_COUNT then stage else 0
  }

  datatype DailyProgressData = DailyProgressData(
    completedCount: nat,
    totalCount: nat,
    percentage: int,
    currentStreak: int,
    nextRoutine: Option<WidgetRoutineItem>,
    upcomingAlarms: seq<AlarmItem>,
    bloomEmoji: nat,
    bloomHealth: int)

  /**
   * `buildDailyProgressData` for the store snapshot `routines`/`logs`, the day
   * key, the clock `hour`:`minute` and the companion's stage and health.
   */
  function BuildDailyProgressData(routines: seq<Routine>, logs: seq<RoutineLog>, key: string, hour: int, minute: int,
                                  bloomStage: int, bloomHealth: int): (d: DailyProgressData)
    ensures d.totalCount == |Filter(routines, IsActiveRoutine())|
    ensures d.completedCount <= d.totalCount
    ensures d.percentage == CompletionRate(d.completedCount, d.totalCount)
    ensures 0 <= d.percentage <= 100 && (d.totalCount == 0 ==> d.percentage == 0)
    ensures d.currentStreak == 0
    ensures d.nextRoutine.Some? ==> !d.nextRoutine.value.isCompleted
    ensures |d.upcomingAlarms| <= MAX_UPCOMING_ALARMS
  {
    var active := Filter(routines, IsActiveRoutine());
    var completed := |Filter(active, LoggedOn(logs, key))|;
    var total := |active|;
    var next := NextRoutineIndex(active, logs, key, CurrentTimeSlot(hour));
    NextRoutineOpen(active, logs, key, CurrentTimeSlot(hour));
    DailyProgressData(
      completed,
      total,
      if total > 0 then RoundRatio(100 * completed, total) else 0,
      0,
      if next.Some? then Some(ToWidgetRoutineItem(active[next.value], false)) else None,
      UpcomingAlarms(routines, logs, key, FormatHHmm(hour, minute)),
      BloomEmojiIndex(bloomStage),
      bloomHealth)
  }

  /** The card's counts: the active routines, and those of them with a log today. */
  lemma DailyProgressCounts(routines: seq<Routine>, logs: seq<RoutineLog>, key: string, hour: int, minute: int,
                            bloomStage: int, bloomHealth: int)
    ensures var d := BuildDailyProgressData(routines, logs, key, hour, minute, bloomStage, bloomHealth);
      var active := Filter(routines, IsActiveRoutine());
      && d.completedCount == |Filter(active, LoggedOn(logs, key))|
      && (d.completedCount == d.totalCount <==> forall k :: 0 <= k < |active| ==> HasLog(logs, active[k].id, key))
      && (d.nextRoutine.None? <==> d.completedCount == d.totalCount)
  {
    var active := Filter(routines, IsActiveRoutine());
    NextRoutineSpec(active, logs, key, CurrentTimeSlot(hour));
    FilterCountAll(active, LoggedOn(logs, key));
  }

  /** A filter keeps every element exactly when its length is the input's. */
  lemma {:induction false} FilterCountAll<T>(s: seq<T>, p: T -> bool)
    ensures |Filter(s, p)| == |s| <==> forall k :: 0 <= k < |s| ==> p(s[k])
  {
    if s != [] {
      FilterCountAll(s[1..], p);
      assert |Filter(s[1..], p)| <= |s[1..]|;
      if forall k :: 0 <= k < |s| ==> p(s[k]) {
        assert forall k :: 0 <= k < |s[1..]| ==> p(s[1..][k]) by {
          forall k | 0 <= k < |s[1..]| ensures p(s[1..][k]) { assert s[1..][k] == s[k + 1]; }
        }
      } else if p(s[0]) {
        var k :| 0 <= k < |s| && !p(s[k]);
        assert !p(s[1..][k - 1]);
      }
    }
  }

  // ---------------------------------------------------------------------------
  // The routine checklist
  // ---------------------------------------------------------------------------

  /**
   * The checklist comparator `cmp(a, b) <= 0`: scheduled routines first, by
   * scheduled time with no further tie-break; unscheduled ones by sortOrder.
   */
  function ListOrder(): (Routine, Routine) -> bool {
    (a: Routine, b: Routine) =>
      if HasScheduledTime(a) && HasScheduledTime(b) then LexLe(a.scheduledTime.value, b.scheduledTime.value)
      else if HasScheduledTime(a) then true
      else if HasScheduledTime(b) then false
      else a.sortOrder <= b.sortOrder
  }

  /** The comparator is total and transitive, so the stable sort's result is determined. */
  lemma ListOrderIsPreorder()
    ensures TotalPreorder(ListOrder())
  {
    forall a: Routine, b: Routine ensures TotalAt(ListOrder(), a, b) {
      if HasScheduledTime(a) && HasScheduledTime(b) {
        LexLeTotal(a.scheduledTime.value, b.scheduledTime.value);
      }
    }
    forall a: Routine, b: Routine, c: Routine ensures TransAt(ListOrder(), a, b, c) {
      if HasScheduledTime(a) && HasScheduledTime(b) && HasScheduledTime(c)
        && LexLe(a.scheduledTime.value, b.scheduledTime.value) && LexLe(b.scheduledTime.value, c.scheduledTime.value) {
        LexLeTrans(a.scheduledTime.value, b.scheduledTime.value, c.scheduledTime.value);
      }
    }
  }

  /** The active routines in checklist order. */
  function ListedRoutines(routines: seq<Routine>): seq<Routine> {
    SortBy(Filter(routines, IsActiveRoutine()), ListOrder())
  }

  /** `.map((r) => toWidgetRoutineItem(r, completedIds.has(r.id)))`. */
  function ListItems(rs: seq<Routine>, logs: seq<RoutineLog>, key: string): (items: seq<WidgetRoutineItem>)
    ensures |items| == |rs|
    ensures forall k :: 0 <= k < |rs| ==> items[k] == ToWidgetRoutineItem(rs[k], HasLog(logs, rs[k].id, key))
  {
    if rs == [] then [] else [ToWidgetRoutineItem(rs[0], HasLog(logs, rs[0].id, key))] + ListItems(rs[1..], logs, key)
  }

  function IsCompletedItem(): WidgetRoutineItem -> bool {
    (item: WidgetRoutineItem) => item.isCompleted
  }

  datatype RoutineListData = RoutineListData(routines: seq<WidgetRoutineItem>, completedCount: nat, totalCount: nat)

  /** `buildRoutineListData` for the store snapshot and the day key. */
  function BuildRoutineListData(routines: seq<Routine>, logs: seq<RoutineLog>, key: string): (d: RoutineListData)
    ensures d.totalCount == |d.routines| == |Filter(routines, IsActiveRoutine())|
    ensures d.completedCount <= d.totalCount
    ensures forall k :: 0 <= k < |d.routines| ==> d.routines[k].isCompleted == HasLog(logs, d.routines[k].id, key)
  {
    var items := ListItems(ListedRoutines(routines), logs, key);
    RoutineListData(items, |Filter(items, IsCompletedItem())|, |items|)
  }

  /**
   * The checklist holds every active routine once; scheduled routines come
   * before unscheduled ones, scheduled ones by time and unscheduled ones by
   * sortOrder; routines the comparator ties keep their store order.
   */
  lemma RoutineListOrder(routines: seq<Routine>, c: Routine)
    ensures var s := ListedRoutines(routines);
      && multiset(s) == multiset(Filter(routines, IsActiveRoutine()))
      && (forall i, j :: 0 <= i < j < |s| && HasScheduledTime(s[j]) ==> HasScheduledTime(s[i]))
      && (forall i, j :: 0 <= i < j < |s| && HasScheduledTime(s[i]) && HasScheduledTime(s[j]) ==>
            LexLe(s[i].scheduledTime.value, s[j].scheduledTime.value))
      && (forall i, j :: 0 <= i < j < |s| && !HasScheduledTime(s[i]) && !HasScheduledTime(s[j]) ==>
            s[i].sortOrder <= s[j].sortOrder)
      && Filter(s, SameClass(ListOrder(), c)) == Filter(Filter(routines, IsActiveRoutine()), SameClass(ListOrder(), c))
  {
    var f := Filter(routines, IsActiveRoutine());
    var s := ListedRoutines(routines);
    ListOrderIsPreorder();
    SortByPermutation(f, ListOrder());
    SortBySorted(f, ListOrder());
    SortByStable(f, ListOrder(), c);
    forall i, j | 0 <= i < j < |s| ensures ListOrder()(s[i], s[j]) { }
  }

  lemma {:induction false} ListItemsCompleted(rs: seq<Routine>, logs: seq<RoutineLog>, key: string)
    ensures |Filter(ListItems(rs, logs, key), IsCompletedItem())| == |Filter(rs, LoggedOn(logs, key))|
  {
    if rs != [] {
      ListItemsCompleted(rs[1..], logs, key);
      assert ListItems(rs, logs, key)[1..] == ListItems(rs[1..], logs, key);
    }
  }

  /** The checklist's counts agree with the progress card's: all active routines, and those done today. */
  lemma RoutineListCounts(routines: seq<Routine>, logs: seq<RoutineLog>, key: string, hour: int, minute: int,
                          bloomStage: int, bloomHealth: int)
    ensures var l := BuildRoutineListData(routines, logs, key);
      var d := BuildDailyProgressData(routines, logs, key, hour, minute, bloomStage, bloomHealth);
      l.completedCount == d.completedCount && l.totalCount == d.totalCount
  {
    var f := Filter(routines, IsActiveRoutine());
    ListItemsCompleted(ListedRoutines(routines), logs, key);
    SortByFilterCount(f, ListOrder(), LoggedOn(logs, key));
  }

  // ---------------------------------------------------------------------------
  // Quick complete from the widget
  // ---------------------------------------------------------------------------

  datatype QuickAction = Complete | Uncomplete | StartTimer

  datatype QuickActionResult = QuickActionResult(success: bool, routineId: string, action: QuickAction)

  function IdIs(id: string): Routine -> bool {
    (r: Routine) => r.id == id
  }

  /**
   * `handleWidgetQuickComplete(routineId)` on day `today` at time `now`: an
   * unknown id fails and changes nothing; otherwise the day's completion of the
   * routine is flipped through the store and the action reports which way.
   */
  method HandleWidgetQuickComplete(store: Store, routineId: string, today: string, now: int) returns (result: QuickActionResult)
    requires store.Valid()
    modifies store
    ensures store.Valid()
    ensures result.routineId == routineId
    ensures result.success <==> FindIndex(old(store.routines), IdIs(routineId)).Some?
    ensures store.routines == old(store.routines)
    ensures !result.success ==> result.action == Complete && store.logs == old(store.logs) && store.idCounter == old(store.idCounter)
    ensures result.success ==> (result.action == Uncomplete <==> old(HasLog(store.logs, routineId, today)))
    ensures result.success ==> HasLog(store.logs, routineId, today) == !old(HasLog(store.logs, routineId, today))
    ensures result.success && result.action == Uncomplete ==>
      store.logs == UncompletedLogs(old(store.logs), routineId, today) && store.idCounter == old(store.idCounter)
    ensures result.success && result.action == Complete ==>
      && store.idCounter == old(store.idCounter) + 1
      && store.logs == old(store.logs) + [RoutineLog(GeneratedId("log", now, store.idCounter), routineId, now, today, None, None)]
  {
    if FindIndex(store.routines, IdIs(routineId)).None? {
      return QuickActionResult(false, routineId, Complete);
    }
    if HasLog(store.logs, routineId, today) {
      store.UncompleteRoutine(routineId, None, today);
      UncompleteProperties(old(store.logs), routineId, today);
      result := QuickActionResult(true, routineId, Uncomplete);
    } else {
      store.CompleteRoutine(routineId, None, today, now);
      assert store.logs[|store.logs| - 1].routineId == routineId;
      result := QuickActionResult(true, routineId, Complete);
    }
  }

  /**
   * Two quick completes restore the day's status: from not done, the second one
   * removes exactly the log the first added; from done, the routine is done again.
   */
  lemma QuickCompleteTwice(logs: seq<RoutineLog>, routineId: string, today: string, log: RoutineLog)
    requires log.routineId == routineId && log.dateKey == today
    ensures !HasLog(logs, routineId, today) ==>
      UncompletedLogs(CompletedLogs(logs, routineId, today, log), routineId, today) == logs
    ensures HasLog(logs, routineId, today) ==>
      HasLog(CompletedLogs(UncompletedLogs(logs, routineId, today), routineId, today, log), routineId, today)
  {
    if !HasLog(logs, routineId, today) {
      var p := NotLogFor(routineId, today);
      FilterAppend(logs, log, p);
      FilterAll(logs, p);
    } else {
      CompleteProperties(UncompletedLogs(logs, routineId, today), routineId, today, log, log);
    }
  }
}
