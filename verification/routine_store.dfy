/**
 * The routine store: the in-memory list of routines and the list of
 * completion logs, the actions that rewrite them, the id counter shared by
 * routine and log ids, and the two selectors. Each action's `set(state => …)`
 * updater is a pure function on the lists here; the store methods apply it.
 */
module RoutineStore {
  import opened Text
  import opened Types
  import opened Seqs
  import opened RoutineUtils

  // ---------------------------------------------------------------------------
  // Ids
  // ---------------------------------------------------------------------------

  /** `${prefix}_${Date.now()}_${idCounter}`. */
  function GeneratedId(prefix: string, now: int, counter: int): string {
    prefix + "_" + IntToString(now) + "_" + IntToString(counter)
  }

  // ---------------------------------------------------------------------------
  // addRoutine
  // ---------------------------------------------------------------------------

  /** What `addRoutine` receives: a routine without id, sortOrder and isActive, isFromTemplate optional. */
  datatype RoutineInput = RoutineInput(
    title: string,
    description: Option<string>,
    icon: string,
    color: string,
    category: Category,
    timeSlot: TimeSlot,
    scheduledTime: Option<string>,
    frequencyType: FrequencyType,
    frequencyValue: string,
    durationMinutes: Option<int>,
    reminderEnabled: bool,
    reminderMinutesBefore: int,
    isFromTemplate: Option<bool>,
    templateId: Option<string>)

  /** `routines.reduce((max, r) => Math.max(max, r.sortOrder), -1)`. */
  function MaxSortOrder(routines: seq<Routine>): (m: int)
    ensures m >= -1
    ensures forall k :: 0 <= k < |routines| ==> routines[k].sortOrder <= m
    ensures m == -1 || exists k :: 0 <= k < |routines| && routines[k].sortOrder == m
  {
    if routines == [] then -1
    else
      var m := MaxSortOrder(routines[..|routines| - 1]);
      var last := routines[|routines| - 1].sortOrder;
      if m >= last then m else last
  }

  /** The routine `addRoutine` builds: only the declared fields are copied, so the undeclared repeat fields are absent. */
  function NewRoutine(input: RoutineInput, id: string, sortOrder: int): Routine {
    Routine(id, input.title, input.description, input.icon, input.color, input.category, input.timeSlot,
      input.scheduledTime, input.frequencyType, input.frequencyValue, input.durationMinutes,
      input.reminderEnabled, input.reminderMinutesBefore, sortOrder, true,
      if input.isFromTemplate.Some? then input.isFromTemplate.value else false,
      input.templateId, None, None)
  }

  /** The sortOrder given to an added routine: one more than every existing one, 0 in an empty store. */
  lemma NewSortOrderIsFresh(routines: seq<Routine>)
    ensures routines == [] ==> MaxSortOrder(routines) + 1 == 0
    ensures forall k :: 0 <= k < |routines| ==> routines[k].sortOrder < MaxSortOrder(routines) + 1
    ensures routines != [] && (forall k :: 0 <= k < |routines| ==> routines[k].sortOrder >= 0)
        ==> exists k :: 0 <= k < |routines| && routines[k].sortOrder + 1 == MaxSortOrder(routines) + 1
  {
    if routines != [] && (forall k :: 0 <= k < |routines| ==> routines[k].sortOrder >= 0) {
      assert routines[0].sortOrder <= MaxSortOrder(routines);
    }
  }

  // ---------------------------------------------------------------------------
  // updateRoutine: { ...r, ...updates }
  // ---------------------------------------------------------------------------

  /**
   * `Partial<RoutineData>`: `None` is a key absent from the update; for the
   * optional fields `Some(None)` is a key present with the value undefined.
   */
  datatype RoutinePatch = RoutinePatch(
    id: Option<string>,
    title: Option<string>,
    description: Option<Option<string>>,
    icon: Option<string>,
    color: Option<string>,
    category: Option<Category>,
    timeSlot: Option<TimeSlot>,
    scheduledTime: Option<Option<string>>,
    frequencyType: Option<FrequencyType>,
    frequencyValue: Option<string>,
    durationMinutes: Option<Option<int>>,
    reminderEnabled: Option<bool>,
    reminderMinutesBefore: Option<int>,
    sortOrder: Option<int>,
    isActive: Option<bool>,
    isFromTemplate: Option<bool>,
    templateId: Option<Option<string>>)

  const EmptyPatch := RoutinePatch(None, None, None, None, None, None, None, None, None, None, None, None, None, None, None, None, None)

  function Pick<T>(update: Option<T>, current: T): T {
    if update.Some? then update.value else current
  }

  /** The object spread `{ ...r, ...updates }`. */
  function ApplyPatch(r: Routine, p: RoutinePatch): Routine {
    r.(id := Pick(p.id, r.id), title := Pick(p.title, r.title), description := Pick(p.description, r.description),
       icon := Pick(p.icon, r.icon), color := Pick(p.color, r.color), category := Pick(p.category, r.category),
       timeSlot := Pick(p.timeSlot, r.timeSlot), scheduledTime := Pick(p.scheduledTime, r.scheduledTime),
       frequencyType := Pick(p.frequencyType, r.frequencyType), frequencyValue := Pick(p.frequencyValue, r.frequencyValue),
       durationMinutes := Pick(p.durationMinutes, r.durationMinutes), reminderEnabled := Pick(p.reminderEnabled, r.reminderEnabled),
       reminderMinutesBefore := Pick(p.reminderMinutesBefore, r.reminderMinutesBefore), sortOrder := Pick(p.sortOrder, r.sortOrder),
       isActive := Pick(p.isActive, r.isActive), isFromTemplate := Pick(p.isFromTemplate, r.isFromTemplate),
       templateId := Pick(p.templateId, r.templateId))
  }

  /** An empty update changes nothing, and applying the same update twice is the same as once. */
  lemma ApplyPatchLaws(r: Routine, p: RoutinePatch)
    ensures ApplyPatch(r, EmptyPatch) == r
    ensures ApplyPatch(ApplyPatch(r, p), p) == ApplyPatch(r, p)
  {
  }

  /** The updater of `updateRoutine`: the routine with that id gets the update, every other routine stays. */
  function UpdatedRoutines(routines: seq<Routine>, id: string, p: RoutinePatch): (r: seq<Routine>)
    ensures |r| == |routines|
    ensures forall k :: 0 <= k < |r| ==> r[k] == if routines[k].id == id then ApplyPatch(routines[k], p) else routines[k]
  {
    if routines == [] then []
    else [if routines[0].id == id then ApplyPatch(routines[0], p) else routines[0]] + UpdatedRoutines(routines[1..], id, p)
  }

  /** An id that matches no routine leaves the list unchanged. */
  lemma UpdateUnknownId(routines: seq<Routine>, id: string, p: RoutinePatch)
    requires forall k :: 0 <= k < |routines| ==> routines[k].id != id
    ensures UpdatedRoutines(routines, id, p) == routines
  {
  }

  // ---------------------------------------------------------------------------
  // toggleRoutineActive
  // ---------------------------------------------------------------------------

  function ToggledRoutines(routines: seq<Routine>, id: string): (r: seq<Routine>)
    ensures |r| == |routines|
    ensures forall k :: 0 <= k < |r| ==> r[k].isActive == (routines[k].isActive != (routines[k].id == id))
    ensures forall k :: 0 <= k < |r| ==> r[k] == routines[k].(isActive := r[k].isActive)
  {
    seq(|routines|, k requires 0 <= k < |routines| =>
      if routines[k].id == id then routines[k].(isActive := !routines[k].isActive) else routines[k])
  }

  /** Toggling the same id twice restores the list. */
  lemma ToggleTwice(routines: seq<Routine>, id: string)
    ensures ToggledRoutines(ToggledRoutines(routines, id), id) == routines
  {
    var once := ToggledRoutines(routines, id);
    var twice := ToggledRoutines(once, id);
    forall k | 0 <= k < |routines| ensures twice[k] == routines[k] {
      assert once[k].id == routines[k].id;
    }
  }

  // ---------------------------------------------------------------------------
  // reorderRoutines
  // ---------------------------------------------------------------------------

  /** `ids.indexOf(x)`: the first position of `x`, or -1. */
  function IndexOf(ids: seq<string>, x: string): (i: int)
    ensures -1 <= i < |ids|
    ensures i == -1 <==> x !in ids
    ensures i >= 0 ==> ids[i] == x && x !in ids[..i]
  {
    if ids == [] then -1
    else if ids[0] == x then 0
    else
      var j := IndexOf(ids[1..], x);
      if j == -1 then -1
      else
        assert ids[1..][..j] == ids[1..j + 1];
        assert ids[..j + 1] == [ids[0]] + ids[1..j + 1];
        j + 1
  }

  /** The updater of `reorderRoutines`: a listed routine's sortOrder becomes its first position in the list. */
  function ReorderedRoutines(routines: seq<Routine>, ids: seq<string>): (r: seq<Routine>)
    ensures |r| == |routines|
    ensures forall k :: 0 <= k < |r| ==>
      r[k] == if routines[k].id in ids then routines[k].(sortOrder := IndexOf(ids, routines[k].id)) else routines[k]
  {
    if routines == [] then []
    else
      var idx := IndexOf(ids, routines[0].id);
      [if idx >= 0 then routines[0].(sortOrder := idx) else routines[0]] + ReorderedRoutines(routines[1..], ids)
  }

  /** After a reorder, a listed routine's sortOrder is a position of the list that holds its id. */
  lemma ReorderByFullList(routines: seq<Routine>, ids: seq<string>, k: nat)
    requires k < |routines| && routines[k].id in ids
    ensures 0 <= ReorderedRoutines(routines, ids)[k].sortOrder < |ids|
    ensures ids[ReorderedRoutines(routines, ids)[k].sortOrder] == routines[k].id
  {
  }

  // ---------------------------------------------------------------------------
  // deleteRoutine
  // ---------------------------------------------------------------------------

  function IdIsNot(id: string): Routine -> bool {
    (r: Routine) => r.id != id
  }

  function LogNotOf(id: string): RoutineLog -> bool {
    (l: RoutineLog) => l.routineId != id
  }

  /** Delete removes the routine and all of its logs, and keeps every other routine and log. */
  lemma DeleteCascade(routines: seq<Routine>, logs: seq<RoutineLog>, id: string)
    ensures forall r :: r in Filter(routines, IdIsNot(id)) <==> r in routines && r.id != id
    ensures forall l :: l in Filter(logs, LogNotOf(id)) <==> l in logs && l.routineId != id
  {
    FilterMembers(routines, IdIsNot(id));
    FilterMembers(logs, LogNotOf(id));
  }

  // ---------------------------------------------------------------------------
  // completeRoutine / uncompleteRoutine
  // ---------------------------------------------------------------------------

  /** `logs.some(l => l.routineId === routineId && l.dateKey === key)`. */
  predicate HasLog(logs: seq<RoutineLog>, routineId: string, key: string) {
    exists k :: 0 <= k < |logs| && logs[k].routineId == routineId && logs[k].dateKey == key
  }

  /** At most one log per (routineId, dateKey). */
  predicate UniqueLogs(logs: seq<RoutineLog>) {
    forall i, j :: 0 <= i < j < |logs| ==> !(logs[i].routineId == logs[j].routineId && logs[i].dateKey == logs[j].dateKey)
  }

  /** The logs after `completeRoutine`: unchanged when a log for that day exists, else one new log appended. */
  function CompletedLogs(logs: seq<RoutineLog>, routineId: string, today: string, log: RoutineLog): seq<RoutineLog>
    requires log.routineId == routineId && log.dateKey == today
  {
    if HasLog(logs, routineId, today) then logs else logs + [log]
  }

  /** Completing keeps the one-log-per-day invariant, leaves the routine completed today, and a second completion changes nothing. */
  lemma CompleteProperties(logs: seq<RoutineLog>, routineId: string, today: string, log: RoutineLog, log2: RoutineLog)
    requires log.routineId == routineId && log.dateKey == today
    requires log2.routineId == routineId && log2.dateKey == today
    ensures UniqueLogs(logs) ==> UniqueLogs(CompletedLogs(logs, routineId, today, log))
    ensures HasLog(CompletedLogs(logs, routineId, today, log), routineId, today)
    ensures CompletedLogs(CompletedLogs(logs, routineId, today, log), routineId, today, log2)
         == CompletedLogs(logs, routineId, today, log)
  {
    var r := CompletedLogs(logs, routineId, today, log);
    if !HasLog(logs, routineId, today) {
      assert r[|logs|] == log;
    }
  }

  function NotLogFor(routineId: string, key: string): RoutineLog -> bool {
    (l: RoutineLog) => !(l.routineId == routineId && l.dateKey == key)
  }

  /** The logs after `uncompleteRoutine(routineId, key)`. */
  function UncompletedLogs(logs: seq<RoutineLog>, routineId: string, key: string): seq<RoutineLog> {
    Filter(logs, NotLogFor(routineId, key))
  }

  /** Filtering keeps the one-log-per-day invariant. */
  lemma {:induction false} FilterKeepsUnique(logs: seq<RoutineLog>, p: RoutineLog -> bool)
    requires UniqueLogs(logs)
    ensures UniqueLogs(Filter(logs, p))
  {
    if logs != [] {
      FilterKeepsUnique(logs[1..], p);
      FilterMembers(logs[1..], p);
      var t := Filter(logs[1..], p);
      if p(logs[0]) {
        assert Filter(logs, p) == [logs[0]] + t;
        forall x | x in t ensures !(x.routineId == logs[0].routineId && x.dateKey == logs[0].dateKey) {
          var m :| 0 <= m < |logs[1..]| && logs[1..][m] == x;
          assert logs[m + 1] == x;
        }
        UniqueCons(logs[0], t);
      }
    }
  }

  /** A log whose routine and day no later log shares can go in front of unique logs. */
  lemma UniqueCons(h: RoutineLog, t: seq<RoutineLog>)
    requires UniqueLogs(t)
    requires forall x :: x in t ==> !(x.routineId == h.routineId && x.dateKey == h.dateKey)
    ensures UniqueLogs([h] + t)
  {
    var r := [h] + t;
    forall i, j | 0 <= i < j < |r|
      ensures !(r[i].routineId == r[j].routineId && r[i].dateKey == r[j].dateKey)
    {
      assert r[j] == t[j - 1];
      if i > 0 { assert r[i] == t[i - 1]; }
    }
  }

  /** Uncompleting removes every log of that routine on that key and no other log. */
  lemma UncompleteProperties(logs: seq<RoutineLog>, routineId: string, key: string)
    ensures !HasLog(UncompletedLogs(logs, routineId, key), routineId, key)
    ensures forall l :: l in UncompletedLogs(logs, routineId, key) <==> l in logs && !(l.routineId == routineId && l.dateKey == key)
    ensures UniqueLogs(logs) ==> UniqueLogs(UncompletedLogs(logs, routineId, key))
  {
    FilterMembers(logs, NotLogFor(routineId, key));
    if UniqueLogs(logs) {
      FilterKeepsUnique(logs, NotLogFor(routineId, key));
    }
  }

  // ---------------------------------------------------------------------------
  // Selectors
  // ---------------------------------------------------------------------------

  function IsActiveRoutine(): Routine -> bool {
    (r: Routine) => r.isActive
  }

  /** `selectActiveRoutines`: the active routines, stably sorted by sortOrder. */
  function SelectActiveRoutines(routines: seq<Routine>): seq<Routine> {
    SortBy(Filter(routines, IsActiveRoutine()), BySortOrder())
  }

  /** The selector returns exactly the active routines, as a permutation, ordered by sortOrder. */
  lemma SelectActiveRoutinesSpec(routines: seq<Routine>)
    ensures SortedBy(SelectActiveRoutines(routines), BySortOrder())
    ensures multiset(SelectActiveRoutines(routines)) == multiset(Filter(routines, IsActiveRoutine()))
    ensures forall r :: r in SelectActiveRoutines(routines) <==> r in routines && r.isActive
  {
    var f := Filter(routines, IsActiveRoutine());
    BySortOrderIsPreorder();
    SortBySorted(f, BySortOrder());
    SortByPermutation(f, BySortOrder());
    FilterMembers(routines, IsActiveRoutine());
    forall r ensures r in SelectActiveRoutines(routines) <==> r in f {
      assert r in SelectActiveRoutines(routines) <==> r in multiset(SelectActiveRoutines(routines));
      assert r in f <==> r in multiset(f);
    }
  }

  function RoutineIds(logs: seq<RoutineLog>): (ids: seq<string>)
    ensures |ids| == |logs|
    ensures forall k :: 0 <= k < |logs| ==> ids[k] == logs[k].routineId
  {
    if logs == [] then [] else [logs[0].routineId] + RoutineIds(logs[1..])
  }

  function OnDay(key: string): RoutineLog -> bool {
    (l: RoutineLog) => l.dateKey == key
  }

  /** `selectTodayCompletedIds`: the routineIds of today's logs, in log order. */
  function SelectTodayCompletedIds(logs: seq<RoutineLog>, today: string): seq<string> {
    RoutineIds(Filter(logs, OnDay(today)))
  }

  lemma SelectTodayCompletedIdsSpec(logs: seq<RoutineLog>, today: string)
    ensures forall id :: id in SelectTodayCompletedIds(logs, today) <==> HasLog(logs, id, today)
  {
    var f := Filter(logs, OnDay(today));
    FilterMembers(logs, OnDay(today));
    forall id ensures id in SelectTodayCompletedIds(logs, today) <==> HasLog(logs, id, today) {
      if id in SelectTodayCompletedIds(logs, today) {
        var k :| 0 <= k < |f| && RoutineIds(f)[k] == id;
        assert f[k] in logs;
        var m :| 0 <= m < |logs| && logs[m] == f[k];
      }
      if HasLog(logs, id, today) {
        var m :| 0 <= m < |logs| && logs[m].routineId == id && logs[m].dateKey == today;
        assert logs[m] in f;
        var k :| 0 <= k < |f| && f[k] == logs[m];
        assert RoutineIds(f)[k] == id;
      }
    }
  }

  /** Whether a routine has a log on the day `key`: `completedIds.has(r.id)` for the ids of that day's logs. */
  function LoggedOn(logs: seq<RoutineLog>, key: string): Routine -> bool {
    (r: Routine) => HasLog(logs, r.id, key)
  }

  // ---------------------------------------------------------------------------
  // The store
  // ---------------------------------------------------------------------------

  /** `useRoutineStore`, with the module-level id counter kept beside the two lists. */
  class Store {
    var routines: seq<Routine>
    var logs: seq<RoutineLog>
    var idCounter: int

    /** The store as created: empty lists, counter at 0. */
    constructor ()
      ensures routines == [] && logs == [] && idCounter == 0
      ensures Valid()
    {
      routines := [];
      logs := [];
      idCounter := 0;
    }

    /** At most one log per (routineId, dateKey). */
    ghost predicate Valid()
      reads this
    {
      UniqueLogs(logs)
    }

    /** `addRoutine(input)` at time `now`: appends one routine, returns its id. */
    method AddRoutine(input: RoutineInput, now: int) returns (id: string)
      requires Valid()
      modifies this
      ensures Valid()
      ensures idCounter == old(idCounter) + 1
      ensures id == GeneratedId("routine", now, idCounter)
      ensures routines == old(routines) + [NewRoutine(input, id, MaxSortOrder(old(routines)) + 1)]
      ensures logs == old(logs)
    {
      idCounter := idCounter + 1;
      id := GeneratedId("routine", now, idCounter);
      var maxOrder := MaxSortOrder(routines);
      var routine := NewRoutine(input, id, maxOrder + 1);
      routines := routines + [routine];
    }

    /** `updateRoutine(id, updates)`. */
    method UpdateRoutine(id: string, updates: RoutinePatch)
      requires Valid()
      modifies this
      ensures Valid()
      ensures routines == UpdatedRoutines(old(routines), id, updates)
      ensures logs == old(logs) && idCounter == old(idCounter)
    {
      routines := UpdatedRoutines(routines, id, updates);
    }

    /** `deleteRoutine(id)`: the routine and, in cascade, its logs. */
    method DeleteRoutine(id: string)
      requires Valid()
      modifies this
      ensures Valid()
      ensures routines == Filter(old(routines), IdIsNot(id))
      ensures logs == Filter(old(logs), LogNotOf(id))
      ensures idCounter == old(idCounter)
    {
      routines := Filter(routines, IdIsNot(id));
      FilterKeepsUnique(logs, LogNotOf(id));
      logs := Filter(logs, LogNotOf(id));
    }

    /** `toggleRoutineActive(id)`. */
    method ToggleRoutineActive(id: string)
      requires Valid()
      modifies this
      ensures Valid()
      ensures routines == ToggledRoutines(old(routines), id)
      ensures logs == old(logs) && idCounter == old(idCounter)
    {
      routines := ToggledRoutines(routines, id);
    }

    /** `reorderRoutines(routineIds)`. */
    method ReorderRoutines(routineIds: seq<string>)
      requires Valid()
      modifies this
      ensures Valid()
      ensures routines == ReorderedRoutines(old(routines), routineIds)
      ensures logs == old(logs) && idCounter == old(idCounter)
    {
      routines := ReorderedRoutines(routines, routineIds);
    }

    /** `completeRoutine(routineId, note)` on day `today` at time `now`. */
    method CompleteRoutine(routineId: string, note: Option<string>, today: string, now: int)
      requires Valid()
      modifies this
      ensures Valid()
      ensures routines == old(routines)
      ensures old(HasLog(logs, routineId, today)) ==> logs == old(logs) && idCounter == old(idCounter)
      ensures !old(HasLog(logs, routineId, today)) ==>
        && idCounter == old(idCounter) + 1
        && logs == old(logs) + [RoutineLog(GeneratedId("log", now, idCounter), routineId, now, today, None, note)]
    {
      if HasLog(logs, routineId, today) {
        return;
      }
      idCounter := idCounter + 1;
      var log := RoutineLog(GeneratedId("log", now, idCounter), routineId, now, today, None, note);
      CompleteProperties(logs, routineId, today, log, log);
      logs := CompletedLogs(logs, routineId, today, log);
    }

    /** `uncompleteRoutine(routineId, dateKey)`: the key defaults to `today` when absent. */
    method UncompleteRoutine(routineId: string, dateKey: Option<string>, today: string)
      requires Valid()
      modifies this
      ensures Valid()
      ensures logs == UncompletedLogs(old(logs), routineId, if dateKey.Some? then dateKey.value else today)
      ensures routines == old(routines) && idCounter == old(idCounter)
    {
      var key := if dateKey.Some? then dateKey.value else today;
      UncompleteProperties(logs, routineId, key);
      logs := UncompletedLogs(logs, routineId, key);
    }
  }
}
