/**
 * The reminder planner. The operating system's set of pending notifications
 * is a map from identifier to notification owned by `AlarmScheduler`;
 * scheduling a notification under an identifier already present replaces it.
 * A routine's alarms are identified `routine_<id>` (daily) or
 * `routine_<id>_<day code>` (one weekly alarm per listed day), and cancelling a
 * routine removes every identifier that starts with `routine_<id>`.
 */
module Notifications {
  import opened Text
  import opened Types
  import opened Seqs
  import opened Clock

  datatype Trigger = WeeklyAt(weekday: int, hour: int, minute: int) | DailyAt(hour: int, minute: int)

  /** A pending notification: the routine it opens on tap, its body text and when it fires. */
  datatype Notification = Notification(routineId: string, body: string, trigger: Trigger)

  /** `DAY_MAP`: expo-notifications numbers the days of the week from Sunday = 1. */
  const DAY_MAP: map<string, int> := map["sun" := 1, "mon" := 2, "tue" := 3, "wed" := 4, "thu" := 5, "fri" := 6, "sat" := 7]

  /** The day codes in the order of the week, Sunday first. */
  const WEEK: seq<string> := ["sun", "mon", "tue", "wed", "thu", "fri", "sat"]

  /** `DAY_MAP[day.trim().toLowerCase()]`, `None` for a code that is not a day. */
  function Weekday(code: string): (w: Option<int>)
    ensures w.Some? <==> Lower(Trim(code)) in WEEK
    ensures w.Some? ==> 1 <= w.value <= 7 && WEEK[w.value - 1] == Lower(Trim(code))
  {
    var k := Lower(Trim(code));
    if k in DAY_MAP then Some(DAY_MAP[k]) else None
  }

  function RoutinePrefix(routineId: string): string {
    "routine_" + routineId
  }

  /** The identifier of the weekly alarm for the day code as written. */
  function DayAlarmId(routineId: string, code: string): string {
    RoutinePrefix(routineId) + "_" + code
  }

  /** The notification body: icon and title, with the duration when it is truthy. */
  function NotificationBody(r: Routine): string {
    if r.durationMinutes.Some? && r.durationMinutes.value != 0 then
      r.icon + " " + r.title + " (" + IntToString(r.durationMinutes.value) + "분)"
    else r.icon + " " + r.title
  }

  /**
   * The hour and minute the alarm fires at, or `None` when the routine gets no
   * alarm: no scheduled time, reminder off, or a time `parseTime` rejects.
   */
  function AlarmTime(r: Routine): (t: Option<(int, int)>)
    ensures t.Some? <==> HasScheduledTime(r) && r.reminderEnabled && ParseTime(r.scheduledTime.value).Some?
  {
    if !HasScheduledTime(r) || !r.reminderEnabled then None
    else match ParseTime(r.scheduledTime.value)
      case None => None
      case Some(p) => Some(OffsetTime(p.0, p.1, r.reminderMinutesBefore))
  }

  /**
   * For a time of day and an offset of at most an hour, the alarm fires at the
   * same clock time the widget shows for the routine's alarm.
   */
  lemma AlarmTimeMatchesWidget(r: Routine)
    requires AlarmTime(r).Some?
    requires ValidTime(ParseTime(r.scheduledTime.value).value.0, ParseTime(r.scheduledTime.value).value.1)
    requires 0 <= r.reminderMinutesBefore <= 60
    ensures ValidTime(AlarmTime(r).value.0, AlarmTime(r).value.1)
    ensures FormatHHmm(AlarmTime(r).value.0, AlarmTime(r).value.1)
         == ComputeAlarmTime(r.scheduledTime.value, r.reminderMinutesBefore)
  {
    var p := ParseTime(r.scheduledTime.value).value;
    ComputeAlarmTimeWellFormed(r.scheduledTime.value, r.reminderMinutesBefore);
    OffsetTimeIsModular(p.0, p.1, r.reminderMinutesBefore);
  }

  /** `frequencyType === 'specific_days' && frequencyValue` (a non-empty string). */
  predicate IsSpecificDays(r: Routine) {
    r.frequencyType == SpecificDays && r.frequencyValue != ""
  }

  /** The identifiers that do not start with `prefix`, with their notifications. */
  function WithoutPrefix(m: map<string, Notification>, prefix: string): (w: map<string, Notification>)
    ensures forall id :: id in w <==> id in m && !StartsWith(id, prefix)
    ensures forall id :: id in w ==> w[id] == m[id]
  {
    map id | id in m && !StartsWith(id, prefix) :: m[id]
  }

  /** The day loop: one weekly alarm per code that names a day, in order, so a repeated code overwrites itself. */
  function AddWeekly(m: map<string, Notification>, routineId: string, body: string, codes: seq<string>,
                     hour: int, minute: int): map<string, Notification>
  {
    AddWeeklyBy(Weekday, m, routineId, body, codes, hour, minute)
  }

  /** The day loop over any day lookup `day`; the loop uses `Weekday`. */
  function AddWeeklyBy(day: string -> Option<int>, m: map<string, Notification>, routineId: string, body: string,
                       codes: seq<string>, hour: int, minute: int): map<string, Notification>
    decreases |codes|
  {
    if codes == [] then m
    else
      var before := AddWeeklyBy(day, m, routineId, body, codes[..|codes| - 1], hour, minute);
      var code := codes[|codes| - 1];
      match day(code)
      case None => before
      case Some(w) => before[DayAlarmId(routineId, code) := Notification(routineId, body, WeeklyAt(w, hour, minute))]
  }

  /** The pending set after `scheduleRoutineAlarm(r)` from `m`. */
  function AfterSchedule(m: map<string, Notification>, r: Routine): map<string, Notification> {
    match AlarmTime(r)
    case None => m
    case Some(t) =>
      var base := WithoutPrefix(m, RoutinePrefix(r.id));
      if IsSpecificDays(r) then AddWeekly(base, r.id, NotificationBody(r), Split(r.frequencyValue, ','), t.0, t.1)
      else base[RoutinePrefix(r.id) := Notification(r.id, NotificationBody(r), DailyAt(t.0, t.1))]
  }

  /** What `scheduleRoutineAlarm(r)` returns. */
  function ScheduleResult(r: Routine): Option<string> {
    if AlarmTime(r).None? then None
    else if IsSpecificDays(r) then Some(RoutinePrefix(r.id) + "_multi")
    else Some(RoutinePrefix(r.id))
  }

  /** The routines `rescheduleAllAlarms` schedules. */
  function EligibleForAlarm(): Routine -> bool {
    (r: Routine) => r.isActive && r.reminderEnabled && HasScheduledTime(r)
  }

  /** Scheduling each routine of `rs` in turn from `m`. */
  function ScheduleAll(m: map<string, Notification>, rs: seq<Routine>): map<string, Notification>
    decreases |rs|
  {
    if rs == [] then m else AfterSchedule(ScheduleAll(m, rs[..|rs| - 1]), rs[|rs| - 1])
  }

  // ---------------------------------------------------------------------------
  // The scheduler
  // ---------------------------------------------------------------------------

  class AlarmScheduler {
    var scheduled: map<string, Notification>

    constructor ()
      ensures scheduled == map[]
    {
      scheduled := map[];
    }

    /** `cancelRoutineAlarm(routineId)`: cancels, one by one, each pending identifier with the routine's prefix. */
    method CancelRoutineAlarm(routineId: string)
      modifies this
      ensures scheduled == WithoutPrefix(old(scheduled), RoutinePrefix(routineId))
    {
      var prefix := RoutinePrefix(routineId);
      var ids := scheduled.Keys;
      var todo := ids;
      while todo != {}
        invariant todo <= ids
        invariant scheduled == map id | id in ids && (id in todo || !StartsWith(id, prefix)) :: old(scheduled)[id]
        decreases |todo|
      {
        var id :| id in todo;
        if StartsWith(id, prefix) {
          scheduled := scheduled - {id};
        }
        todo := todo - {id};
      }
    }

    /** `cancelAllAlarms()`. */
    method CancelAllAlarms()
      modifies this
      ensures scheduled == map[]
    {
      scheduled := map[];
    }

    /** `scheduleRoutineAlarm(r)`. */
    method ScheduleRoutineAlarm(r: Routine) returns (id: Option<string>)
      modifies this
      ensures id == ScheduleResult(r)
      ensures scheduled == AfterSchedule(old(scheduled), r)
    {
      if !HasScheduledTime(r) || !r.reminderEnabled {
        return None;
      }
      var parsed := ParseTime(r.scheduledTime.value);
      if parsed.None? {
        return None;
      }
      var alarmHour := parsed.value.0;
      var alarmMinute := parsed.value.1 - r.reminderMinutesBefore;
      if alarmMinute < 0 {
        alarmMinute := alarmMinute + 60;
        alarmHour := alarmHour - 1;
        if alarmHour < 0 {
          alarmHour := 23;
        }
      }
      assert AlarmTime(r) == Some((alarmHour, alarmMinute));
      CancelRoutineAlarm(r.id);
      var body := NotificationBody(r);
      if r.frequencyType == SpecificDays && r.frequencyValue != "" {
        var days := Split(r.frequencyValue, ',');
        AddWeeklyAlarms(r.id, body, days, alarmHour, alarmMinute);
        id := Some(RoutinePrefix(r.id) + "_multi");
      } else {
        scheduled := scheduled[RoutinePrefix(r.id) := Notification(r.id, body, DailyAt(alarmHour, alarmMinute))];
        id := Some(RoutinePrefix(r.id));
      }
    }

    /** The day loop of `scheduleRoutineAlarm`: a weekly alarm for each code that names a day. */
    method AddWeeklyAlarms(routineId: string, body: string, days: seq<string>, hour: int, minute: int)
      modifies this
      ensures scheduled == AddWeekly(old(scheduled), routineId, body, days, hour, minute)
    {
      ghost var base := scheduled;
      for i := 0 to |days|
        invariant scheduled == AddWeekly(base, routineId, body, days[..i], hour, minute)
      {
        assert days[..i + 1][..i] == days[..i];
        var weekday := Weekday(days[i]);
        if weekday.None? {
          continue;
        }
        scheduled := scheduled[DayAlarmId(routineId, days[i]) := Notification(routineId, body, WeeklyAt(weekday.value, hour, minute))];
      }
      assert days[..|days|] == days;
    }

    /** `rescheduleAllAlarms(routines)`: cancel everything, then schedule each eligible routine in order. */
    method RescheduleAllAlarms(routines: seq<Routine>)
      modifies this
      ensures scheduled == ScheduleAll(map[], Filter(routines, EligibleForAlarm()))
    {
      CancelAllAlarms();
      var active := Filter(routines, EligibleForAlarm());
      for i := 0 to |active|
        invariant scheduled == ScheduleAll(map[], active[..i])
      {
        var _ := ScheduleRoutineAlarm(active[i]);
        ScheduleAllStep(active, i);
      }
      assert active[..|active|] == active;
    }
  }

  /** Scheduling one more routine extends the plan of the ones before it. */
  lemma ScheduleAllStep(rs: seq<Routine>, i: nat)
    requires i < |rs|
    ensures ScheduleAll(map[], rs[..i + 1]) == AfterSchedule(ScheduleAll(map[], rs[..i]), rs[i])
  {
    assert rs[..i + 1][..i] == rs[..i];
  }

  // ---------------------------------------------------------------------------
  // Properties of the plan
  // ---------------------------------------------------------------------------

  /** The identifiers the day loop schedules: one per code that names a day. */
  function WeeklyIds(routineId: string, codes: seq<string>): set<string>
    decreases |codes|
  {
    if codes == [] then {}
    else
      var code := codes[|codes| - 1];
      WeeklyIds(routineId, codes[..|codes| - 1]) + (if Weekday(code).Some? then {DayAlarmId(routineId, code)} else {})
  }

  /** The scheduled identifiers are exactly `routine_<id>_<code>` for the codes, as written, that name a day. */
  lemma {:induction false} WeeklyIdsSpec(routineId: string, codes: seq<string>, id: string)
    ensures id in WeeklyIds(routineId, codes) <==>
      exists k :: 0 <= k < |codes| && Weekday(codes[k]).Some? && id == DayAlarmId(routineId, codes[k])
    decreases |codes|
  {
    if codes != [] {
      var init := codes[..|codes| - 1];
      WeeklyIdsSpec(routineId, init, id);
      if exists k :: 0 <= k < |init| && Weekday(init[k]).Some? && id == DayAlarmId(routineId, init[k]) {
        var k :| 0 <= k < |init| && Weekday(init[k]).Some? && id == DayAlarmId(routineId, init[k]);
        assert codes[k] == init[k];
      }
      if exists k :: 0 <= k < |codes| && Weekday(codes[k]).Some? && id == DayAlarmId(routineId, codes[k]) {
        var k :| 0 <= k < |codes| && Weekday(codes[k]).Some? && id == DayAlarmId(routineId, codes[k]);
        if k < |codes| - 1 { assert init[k] == codes[k]; }
      }
    }
  }

  lemma {:induction false} WeeklyIdsPrefix(routineId: string, codes: seq<string>, id: string)
    requires id in WeeklyIds(routineId, codes)
    ensures StartsWith(id, RoutinePrefix(routineId))
    decreases |codes|
  {
    var code := codes[|codes| - 1];
    if id in WeeklyIds(routineId, codes[..|codes| - 1]) {
      WeeklyIdsPrefix(routineId, codes[..|codes| - 1], id);
    } else {
      DayAlarmIdPrefix(routineId, code);
    }
  }

  /** The day loop adds the day identifiers to the pending set and no others. */
  lemma {:induction false} AddWeeklyKeys(m: map<string, Notification>, routineId: string, body: string,
                                         codes: seq<string>, hour: int, minute: int)
    ensures AddWeekly(m, routineId, body, codes, hour, minute).Keys == m.Keys + WeeklyIds(routineId, codes)
    decreases |codes|
  {
    if codes != [] {
      AddWeeklyKeys(m, routineId, body, codes[..|codes| - 1], hour, minute);
    }
  }

  /** The day loop leaves every pending entry outside the day identifiers as it was. */
  lemma {:induction false} AddWeeklyKeeps(m: map<string, Notification>, routineId: string, body: string,
                                          codes: seq<string>, hour: int, minute: int, id: string)
    requires id in m && id !in WeeklyIds(routineId, codes)
    ensures id in AddWeekly(m, routineId, body, codes, hour, minute)
    ensures AddWeekly(m, routineId, body, codes, hour, minute)[id] == m[id]
    decreases |codes|
  {
    if codes != [] {
      AddWeeklyKeeps(m, routineId, body, codes[..|codes| - 1], hour, minute, id);
    }
  }

  /** Each code that names a day ends with the weekly trigger of that day, whichever of its repeats came last. */
  lemma {:induction false} AddWeeklyValue(m: map<string, Notification>, routineId: string, body: string,
                                          codes: seq<string>, hour: int, minute: int, k: nat)
    requires k < |codes| && Weekday(codes[k]).Some?
    ensures DayAlarmId(routineId, codes[k]) in AddWeekly(m, routineId, body, codes, hour, minute)
    ensures AddWeekly(m, routineId, body, codes, hour, minute)[DayAlarmId(routineId, codes[k])]
         == Notification(routineId, body, WeeklyAt(Weekday(codes[k]).value, hour, minute))
    decreases |codes|
  {
    AddWeeklyValueBy(Weekday, m, routineId, body, codes, hour, minute, k);
  }

  lemma {:induction false} AddWeeklyValueBy(day: string -> Option<int>, m: map<string, Notification>, routineId: string,
                                            body: string, codes: seq<string>, hour: int, minute: int, k: nat)
    requires k < |codes| && day(codes[k]).Some?
    ensures DayAlarmId(routineId, codes[k]) in AddWeeklyBy(day, m, routineId, body, codes, hour, minute)
    ensures AddWeeklyBy(day, m, routineId, body, codes, hour, minute)[DayAlarmId(routineId, codes[k])]
         == Notification(routineId, body, WeeklyAt(day(codes[k]).value, hour, minute))
    decreases |codes|
  {
    var last := |codes| - 1;
    if k < last {
      var init := codes[..last];
      assert init[k] == codes[k];
      AddWeeklyValueBy(day, m, routineId, body, init, hour, minute, k);
      if day(codes[last]).Some? && DayAlarmId(routineId, codes[last]) == DayAlarmId(routineId, codes[k]) {
        DayAlarmIdInjective(routineId, codes[k], codes[last]);
      }
    }
  }

  lemma DayAlarmIdInjective(routineId: string, a: string, b: string)
    requires DayAlarmId(routineId, a) == DayAlarmId(routineId, b)
    ensures a == b
  {
    var p := RoutinePrefix(routineId) + "_";
    assert DayAlarmId(routineId, a) == p + a && DayAlarmId(routineId, b) == p + b;
    assert a == (p + a)[|p|..];
  }

  lemma DayAlarmIdPrefix(routineId: string, code: string)
    ensures StartsWith(DayAlarmId(routineId, code), RoutinePrefix(routineId))
  {
    assert DayAlarmId(routineId, code) == RoutinePrefix(routineId) + ("_" + code);
    StartsWithConcat(RoutinePrefix(routineId), "_" + code);
  }

  /** Scheduling leaves every identifier outside the routine's prefix as it was, and adds none. */
  lemma ScheduleKeepsOthers(m: map<string, Notification>, r: Routine)
    ensures var s := AfterSchedule(m, r);
      && (forall id :: id in m && !StartsWith(id, RoutinePrefix(r.id)) ==> id in s && s[id] == m[id])
      && (forall id :: id in s && !StartsWith(id, RoutinePrefix(r.id)) ==> id in m)
  {
    if AlarmTime(r).Some? {
      var t := AlarmTime(r).value;
      var base := WithoutPrefix(m, RoutinePrefix(r.id));
      if IsSpecificDays(r) {
        var codes := Split(r.frequencyValue, ',');
        var s := AfterSchedule(m, r);
        AddWeeklyKeys(base, r.id, NotificationBody(r), codes, t.0, t.1);
        forall id | id in m && !StartsWith(id, RoutinePrefix(r.id)) ensures id in s && s[id] == m[id] {
          if id in WeeklyIds(r.id, codes) { WeeklyIdsPrefix(r.id, codes, id); }
          AddWeeklyKeeps(base, r.id, NotificationBody(r), codes, t.0, t.1, id);
        }
        forall id | id in s && !StartsWith(id, RoutinePrefix(r.id)) ensures id in m {
          if id in WeeklyIds(r.id, codes) { WeeklyIdsPrefix(r.id, codes, id); }
        }
      } else {
        StartsWithConcat(RoutinePrefix(r.id), "");
        assert RoutinePrefix(r.id) + "" == RoutinePrefix(r.id);
      }
    }
  }

  /** No alarm time: nothing is cancelled, nothing is scheduled and the result is null. */
  lemma ScheduleWithoutTime(m: map<string, Notification>, r: Routine)
    requires !HasScheduledTime(r) || !r.reminderEnabled || ParseTime(r.scheduledTime.value).None?
    ensures AfterSchedule(m, r) == m && ScheduleResult(r).None?
  {
  }

  /**
   * A daily routine ends with exactly one alarm under its prefix: `routine_<id>`,
   * firing daily at the alarm time.
   */
  lemma ScheduleDaily(m: map<string, Notification>, r: Routine)
    requires AlarmTime(r).Some? && !IsSpecificDays(r)
    ensures var s := AfterSchedule(m, r);
      && RoutinePrefix(r.id) in s
      && s[RoutinePrefix(r.id)] == Notification(r.id, NotificationBody(r), DailyAt(AlarmTime(r).value.0, AlarmTime(r).value.1))
      && (forall id :: id in s && StartsWith(id, RoutinePrefix(r.id)) ==> id == RoutinePrefix(r.id))
      && ScheduleResult(r) == Some(RoutinePrefix(r.id))
  {
  }

  /**
   * A specific-days routine ends with exactly one weekly alarm under its prefix
   * per listed code that names a day, identified by the code as written; codes
   * that name no day are skipped.
   */
  lemma ScheduleSpecificDays(m: map<string, Notification>, r: Routine)
    requires AlarmTime(r).Some? && IsSpecificDays(r)
    ensures var s := AfterSchedule(m, r);
      var codes := Split(r.frequencyValue, ',');
      var t := AlarmTime(r).value;
      && (forall k :: 0 <= k < |codes| && Weekday(codes[k]).Some? ==>
            && DayAlarmId(r.id, codes[k]) in s
            && s[DayAlarmId(r.id, codes[k])] == Notification(r.id, NotificationBody(r), WeeklyAt(Weekday(codes[k]).value, t.0, t.1)))
      && (forall id :: id in s && StartsWith(id, RoutinePrefix(r.id)) ==> id in WeeklyIds(r.id, codes))
  {
    var codes := Split(r.frequencyValue, ',');
    var t := AlarmTime(r).value;
    var base := WithoutPrefix(m, RoutinePrefix(r.id));
    AddWeeklyKeys(base, r.id, NotificationBody(r), codes, t.0, t.1);
    forall k | 0 <= k < |codes| && Weekday(codes[k]).Some? {
      AddWeeklyValue(base, r.id, NotificationBody(r), codes, t.0, t.1, k);
    }
  }

  lemma MultiNamesNoDay()
    ensures Weekday("multi").None?
  {
    assert Trim("multi") == "multi";
    assert Lower("multi") == "multi";
  }

  /** The `_multi` identifier a specific-days routine returns is never itself scheduled. */
  lemma MultiIdNotScheduled(m: map<string, Notification>, r: Routine)
    requires AlarmTime(r).Some? && IsSpecificDays(r)
    ensures ScheduleResult(r) == Some(RoutinePrefix(r.id) + "_multi")
    ensures RoutinePrefix(r.id) + "_multi" !in AfterSchedule(m, r)
  {
    var codes := Split(r.frequencyValue, ',');
    var multi := RoutinePrefix(r.id) + "_multi";
    assert multi == DayAlarmId(r.id, "multi");
    if multi in AfterSchedule(m, r) {
      ScheduleSpecificDays(m, r);
      DayAlarmIdPrefix(r.id, "multi");
      WeeklyIdsSpec(r.id, codes, multi);
      var k :| 0 <= k < |codes| && Weekday(codes[k]).Some? && multi == DayAlarmId(r.id, codes[k]);
      DayAlarmIdInjective(r.id, "multi", codes[k]);
      MultiNamesNoDay();
      assert false;
    }
  }

  /**
   * Cancelling by prefix also removes the alarms of every routine whose id
   * extends the given id: cancelling routine "1" cancels those of routine "12".
   */
  lemma CancelMatchesLongerIds(m: map<string, Notification>, cancelled: string, other: string, id: string)
    requires StartsWith(other, cancelled)
    requires StartsWith(id, RoutinePrefix(other))
    ensures id !in WithoutPrefix(m, RoutinePrefix(cancelled))
  {
    var p := RoutinePrefix(cancelled);
    assert RoutinePrefix(other)[..|p|] == "routine_" + other[..|cancelled|];
    assert id[..|p|] == id[..|RoutinePrefix(other)|][..|p|];
    assert StartsWith(id, p);
  }

  /** The alarm `id` of the pending set `s` belongs to, and carries the prefix of, a routine of `rs` that has an alarm time. */
  predicate OwnedAlarm(rs: seq<Routine>, s: map<string, Notification>, id: string)
    requires id in s
  {
    exists r :: r in rs && AlarmTime(r).Some? && StartsWith(id, RoutinePrefix(r.id)) && s[id].routineId == r.id
  }

  /** Every alarm scheduled by a full reschedule belongs to, and carries the prefix of, a routine that has an alarm time. */
  lemma {:induction false} RescheduleAllSound(rs: seq<Routine>)
    ensures forall id :: id in ScheduleAll(map[], rs) ==> OwnedAlarm(rs, ScheduleAll(map[], rs), id)
    decreases |rs|
  {
    if rs != [] {
      var init, last := rs[..|rs| - 1], rs[|rs| - 1];
      RescheduleAllSound(init);
      var prev := ScheduleAll(map[], init);
      var s := ScheduleAll(map[], rs);
      ScheduleKeepsOthers(prev, last);
      forall id | id in s ensures OwnedAlarm(rs, s, id) {
        if AlarmTime(last).Some? && StartsWith(id, RoutinePrefix(last.id)) {
          OwnAlarmOfRoutine(prev, last, id);
          assert last in rs;
        } else {
          assert id in prev && s[id] == prev[id];
          assert OwnedAlarm(init, prev, id);
          var r :| r in init && AlarmTime(r).Some? && StartsWith(id, RoutinePrefix(r.id)) && prev[id].routineId == r.id;
          assert r in rs;
        }
      }
    }
  }

  /** No routine's identifier prefix is a prefix of another routine's. */
  predicate PrefixFree(rs: seq<Routine>) {
    forall i, j :: 0 <= i < |rs| && 0 <= j < |rs| && i != j ==> !StartsWith(RoutinePrefix(rs[j].id), RoutinePrefix(rs[i].id))
  }

  /** A routine's own alarms do not depend on what was pending before it was scheduled. */
  lemma OwnAlarmsIndependent(m1: map<string, Notification>, m2: map<string, Notification>, r: Routine, id: string)
    requires AlarmTime(r).Some? && id in AfterSchedule(m2, r) && StartsWith(id, RoutinePrefix(r.id))
    ensures id in AfterSchedule(m1, r) && AfterSchedule(m1, r)[id] == AfterSchedule(m2, r)[id]
  {
    var t := AlarmTime(r).value;
    if IsSpecificDays(r) {
      var codes := Split(r.frequencyValue, ',');
      ScheduleSpecificDays(m2, r);
      WeeklyIdsSpec(r.id, codes, id);
      var k :| 0 <= k < |codes| && Weekday(codes[k]).Some? && id == DayAlarmId(r.id, codes[k]);
      ScheduleSpecificDays(m1, r);
    } else {
      ScheduleDaily(m1, r);
      ScheduleDaily(m2, r);
    }
  }

  /**
   * When no routine's prefix extends another's, a full reschedule holds every
   * routine's alarms exactly as scheduling that routine alone would.
   */
  lemma {:induction false} RescheduleAllComplete(rs: seq<Routine>, k: nat, id: string)
    requires PrefixFree(rs) && k < |rs| && id in AfterSchedule(map[], rs[k])
    ensures id in ScheduleAll(map[], rs) && ScheduleAll(map[], rs)[id] == AfterSchedule(map[], rs[k])[id]
    decreases |rs|
  {
    var init, last := rs[..|rs| - 1], rs[|rs| - 1];
    var prev := ScheduleAll(map[], init);
    ScheduledFromEmpty(rs[k], id);
    assert ScheduleAll(map[], rs) == AfterSchedule(prev, last);
    if k == |rs| - 1 {
      OwnAlarmsIndependent(prev, map[], last, id);
    } else {
      PrefixFreeInit(rs);
      assert init[k] == rs[k];
      RescheduleAllComplete(init, k, id);
      NotUnderLastPrefix(rs, k, id);
      KeptUnderOther(prev, last, id);
    }
  }

  /** Scheduling into an empty set yields only the routine's own identifiers, and only when it has an alarm time. */
  lemma ScheduledFromEmpty(r: Routine, id: string)
    requires id in AfterSchedule(map[], r)
    ensures AlarmTime(r).Some? && StartsWith(id, RoutinePrefix(r.id))
  {
    ScheduleKeepsOthers(map[], r);
  }

  /** Scheduling a routine leaves a pending entry outside its prefix in place. */
  lemma KeptUnderOther(m: map<string, Notification>, r: Routine, id: string)
    requires id in m && !StartsWith(id, RoutinePrefix(r.id))
    ensures id in AfterSchedule(m, r) && AfterSchedule(m, r)[id] == m[id]
  {
    ScheduleKeepsOthers(m, r);
  }

  lemma PrefixFreeInit(rs: seq<Routine>)
    requires PrefixFree(rs) && rs != []
    ensures PrefixFree(rs[..|rs| - 1])
  {
    var init := rs[..|rs| - 1];
    assert forall i :: 0 <= i < |init| ==> init[i] == rs[i];
  }

  lemma NotUnderLastPrefix(rs: seq<Routine>, k: nat, id: string)
    requires PrefixFree(rs) && k < |rs| - 1 && StartsWith(id, RoutinePrefix(rs[k].id))
    ensures !StartsWith(id, RoutinePrefix(rs[|rs| - 1].id))
  {
    if StartsWith(id, RoutinePrefix(rs[|rs| - 1].id)) {
      StartsWithBoth(id, RoutinePrefix(rs[k].id), RoutinePrefix(rs[|rs| - 1].id));
      assert false;
    }
  }

  /** An alarm under a routine's prefix after scheduling it is one of that routine's own. */
  lemma OwnAlarmOfRoutine(m: map<string, Notification>, r: Routine, id: string)
    requires AlarmTime(r).Some? && id in AfterSchedule(m, r) && StartsWith(id, RoutinePrefix(r.id))
    ensures AfterSchedule(m, r)[id].routineId == r.id
  {
    if IsSpecificDays(r) {
      ScheduleSpecificDays(m, r);
      var codes := Split(r.frequencyValue, ',');
      WeeklyIdsSpec(r.id, codes, id);
      var k :| 0 <= k < |codes| && Weekday(codes[k]).Some? && id == DayAlarmId(r.id, codes[k]);
    } else {
      ScheduleDaily(m, r);
    }
  }
}
