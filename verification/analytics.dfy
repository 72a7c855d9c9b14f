/**
 * The analytics calculator: the day-to-routine-ids index over the logs, the
 * today / weekly / monthly rates, per-category and per-slot tallies, the
 * 365-day streak scan and the capped insight list.
 */
module Analytics {
  import opened Text
  import opened Types
  import opened Seqs
  import opened Calendar
  import opened RoutineUtils
  import opened RoutineStore

  // ---------------------------------------------------------------------------
  // The date -> routine-id index
  // ---------------------------------------------------------------------------

  /** `logsByDate.get(key) ?? new Set()`. */
  function DaySet(index: map<string, set<string>>, key: string): set<string> {
    if key in index then index[key] else {}
  }

  /** The index after adding the logs in order. */
  function DayIndex(logs: seq<RoutineLog>): map<string, set<string>> {
    if logs == [] then map[]
    else
      var index := DayIndex(logs[..|logs| - 1]);
      var l := logs[|logs| - 1];
      index[l.dateKey := DaySet(index, l.dateKey) + {l.routineId}]
  }

  /** A routine id is in a day's set exactly when some log records that routine on that day. */
  lemma {:induction false} DayIndexSpec(logs: seq<RoutineLog>, key: string, id: string)
    ensures id in DaySet(DayIndex(logs), key) <==> HasLog(logs, id, key)
  {
    if logs != [] {
      var init := logs[..|logs| - 1];
      DayIndexSpec(init, key, id);
      if HasLog(init, id, key) {
        var k :| 0 <= k < |init| && init[k].routineId == id && init[k].dateKey == key;
        assert logs[k] == init[k];
      }
      if HasLog(logs, id, key) {
        var k :| 0 <= k < |logs| && logs[k].routineId == id && logs[k].dateKey == key;
        if k < |init| { assert init[k] == logs[k]; }
      }
    }
  }

  /** The first loop of `calculateAnalytics`: builds the index. */
  method BuildIndex(logs: seq<RoutineLog>) returns (index: map<string, set<string>>)
    ensures index == DayIndex(logs)
  {
    index := map[];
    for i := 0 to |logs|
      invariant index == DayIndex(logs[..i])
    {
      var l := logs[i];
      assert logs[..i + 1][..i] == logs[..i];
      index := index[l.dateKey := DaySet(index, l.dateKey) + {l.routineId}];
    }
    assert logs[..|logs|] == logs;
  }

  function IdIn(ids: set<string>): Routine -> bool {
    (r: Routine) => r.id in ids
  }

  /** `activeRoutines.filter((r) => set.has(r.id)).length`. */
  function CompletedCount(active: seq<Routine>, ids: set<string>): (c: nat)
    ensures c <= |active|
  {
    |Filter(active, IdIn(ids))|
  }

  /**
   * Duplicate logs collapse: a day's count is the number of active routines
   * having some log that day, never more than the number of active routines.
   */
  lemma CompletedCountFromLogs(active: seq<Routine>, logs: seq<RoutineLog>, key: string)
    ensures CompletedCount(active, DaySet(DayIndex(logs), key)) == |Filter(active, LoggedOn(logs, key))|
    ensures CompletedCount(active, DaySet(DayIndex(logs), key)) <= |active|
  {
    forall k | 0 <= k < |active|
      ensures IdIn(DaySet(DayIndex(logs), key))(active[k]) == LoggedOn(logs, key)(active[k])
    {
      DayIndexSpec(logs, key, active[k].id);
    }
    FilterExt(active, IdIn(DaySet(DayIndex(logs), key)), LoggedOn(logs, key));
  }

  // ---------------------------------------------------------------------------
  // getLast7Days / getLast30Days
  // ---------------------------------------------------------------------------

  /** The keys of the `n` days ending today, oldest first. */
  function WindowKeys(today: Date, n: nat): (keys: seq<string>)
    requires ValidDate(today)
    ensures |keys| == n
  {
    seq(n, k requires 0 <= k < n => DateKey(DaysBefore(today, n - 1 - k)))
  }

  /** `getLast7Days` (n = 7) and `getLast30Days` (n = 30): pushes the key of today minus i for i from n - 1 down to 0. */
  method LastDays(today: Date, n: nat) returns (keys: seq<string>)
    requires ValidDate(today)
    ensures keys == WindowKeys(today, n)
  {
    keys := [];
    for i := n downto 0
      invariant |keys| == n - i
      invariant forall k :: 0 <= k < |keys| ==> keys[k] == DateKey(DaysBefore(today, n - 1 - k))
    {
      keys := keys + [DateKey(DaysBefore(today, i))];
    }
  }

  /** The window ends today and runs oldest first: for four-digit years its keys increase (and differ, by `WindowKeysDistinct`). */
  lemma WindowKeysChronological(today: Date, n: nat, i: nat, j: nat)
    requires ValidDate(today) && i < j < n
    requires FourDigitYear(DaysBefore(today, n - 1 - i)) && FourDigitYear(DaysBefore(today, n - 1 - j))
    ensures WindowKeys(today, n)[n - 1] == DateKey(today)
    ensures LexLe(WindowKeys(today, n)[i], WindowKeys(today, n)[j])
  {
    WindowKeyAt(today, n, i);
    WindowKeyAt(today, n, j);
    WindowKeyAt(today, n, n - 1);
    EarlierKeyFirst(today, n - 1 - j, n - 1 - i);
  }

  lemma WindowKeyAt(today: Date, n: nat, k: nat)
    requires ValidDate(today) && k < n
    ensures WindowKeys(today, n)[k] == DateKey(DaysBefore(today, n - 1 - k))
  {
  }

  lemma EarlierKeyFirst(today: Date, i: nat, j: nat)
    requires ValidDate(today) && i < j
    requires FourDigitYear(DaysBefore(today, i)) && FourDigitYear(DaysBefore(today, j))
    ensures LexLe(DateKey(DaysBefore(today, j)), DateKey(DaysBefore(today, i)))
  {
    DaysBeforeOrder(today, i, j);
    DateKeyOrder(DaysBefore(today, j), DaysBefore(today, i));
  }

  // ---------------------------------------------------------------------------
  // Daily, weekly and monthly rates
  // ---------------------------------------------------------------------------

  datatype DailyStats = DailyStats(dateKey: string, completedCount: int, totalCount: int, rate: int)

  /** One weekly-trend entry: the day's completions over the number of active routines. */
  function DayStats(active: seq<Routine>, index: map<string, set<string>>, key: string): (d: DailyStats)
    ensures d.dateKey == key && d.totalCount == |active|
    ensures 0 <= d.completedCount <= d.totalCount && 0 <= d.rate <= 100
  {
    var c := CompletedCount(active, DaySet(index, key));
    DailyStats(key, c, |active|, CompletionRate(c, |active|))
  }

  /** `last7.map(...)`. */
  function Trend(active: seq<Routine>, index: map<string, set<string>>, keys: seq<string>): (t: seq<DailyStats>)
    ensures |t| == |keys|
    ensures forall k :: 0 <= k < |t| ==> t[k] == DayStats(active, index, keys[k])
  {
    seq(|keys|, k requires 0 <= k < |keys| => DayStats(active, index, keys[k]))
  }

  function SumRates(days: seq<DailyStats>): int {
    if days == [] then 0 else SumRates(days[..|days| - 1]) + days[|days| - 1].rate
  }

  lemma {:induction false} SumRatesBound(days: seq<DailyStats>)
    requires forall k :: 0 <= k < |days| ==> 0 <= days[k].rate <= 100
    ensures 0 <= SumRates(days) <= 100 * |days|
  {
    if days != [] {
      SumRatesBound(days[..|days| - 1]);
    }
  }

  /** `weeklyAvgRate`: the rounded mean of the rounded daily rates, 0 for an empty trend. */
  function AverageRate(days: seq<DailyStats>): (r: int)
    requires forall k :: 0 <= k < |days| ==> 0 <= days[k].rate <= 100
    ensures 0 <= r <= 100
    ensures |days| > 0 ==> 2 * |days| * r - |days| <= 2 * SumRates(days) < 2 * |days| * r + |days|
  {
    SumRatesBound(days);
    if |days| > 0 then RoundRatio(SumRates(days), |days|) else 0
  }

  function SumCompleted(active: seq<Routine>, index: map<string, set<string>>, keys: seq<string>): (s: int)
    ensures 0 <= s <= |keys| * |active|
  {
    if keys == [] then 0
    else
      var n := |keys| - 1;
      assert n * |active| + |active| == |keys| * |active|;
      SumCompleted(active, index, keys[..n]) + CompletedCount(active, DaySet(index, keys[n]))
  }

  /**
   * `monthlyAvgRate`: the rounded mean of the unrounded daily percentages
   * `100 * completed / total`, which is the rounded `100 * (sum of completions) / (days * total)`.
   */
  function MonthlyAverage(active: seq<Routine>, index: map<string, set<string>>, keys: seq<string>): (r: int)
    ensures 0 <= r <= 100
    ensures |active| == 0 || |keys| == 0 ==> r == 0
    ensures |active| > 0 && |keys| > 0 ==>
      var days := |keys| * |active|;
      2 * days * r - days <= 200 * SumCompleted(active, index, keys) < 2 * days * r + days
  {
    if |active| == 0 || |keys| == 0 then 0
    else
      var s := SumCompleted(active, index, keys);
      MulMono(|active|, 1, |keys|);
      assert 100 * s <= 100 * (|keys| * |active|);
      RoundRatio(100 * s, |keys| * |active|)
  }

  // ---------------------------------------------------------------------------
  // Streak
  // ---------------------------------------------------------------------------

  /** `rate >= 0.5` for `rate = completed / total`: exact, since 0.5 is a double and division rounds correctly. */
  predicate IsActiveDay(active: seq<Routine>, index: map<string, set<string>>, key: string) {
    2 * CompletedCount(active, DaySet(index, key)) >= |active|
  }

  /** The keys of today and the `n - 1` days before it, most recent first. */
  function BackKeys(today: Date, n: nat): (keys: seq<string>)
    requires ValidDate(today)
    ensures |keys| == n
  {
    seq(n, i requires 0 <= i < n => DateKey(DaysBefore(today, i)))
  }

  lemma BackKeyAt(today: Date, n: nat, i: nat)
    requires ValidDate(today) && i < n
    ensures BackKeys(today, n)[i] == DateKey(DaysBefore(today, i))
  {
  }

  /** Whether each of the days is active. */
  function ActiveFlags(active: seq<Routine>, index: map<string, set<string>>, keys: seq<string>): (a: seq<bool>)
    ensures |a| == |keys|
  {
    if keys == [] then []
    else ActiveFlags(active, index, keys[..|keys| - 1]) + [IsActiveDay(active, index, keys[|keys| - 1])]
  }

  lemma {:induction false} ActiveFlagAt(active: seq<Routine>, index: map<string, set<string>>, keys: seq<string>, i: nat)
    requires i < |keys|
    ensures ActiveFlags(active, index, keys)[i] == IsActiveDay(active, index, keys[i])
  {
    if i < |keys| - 1 {
      ActiveFlagAt(active, index, keys[..|keys| - 1], i);
    }
  }

  predicate AllTrue(a: seq<bool>) {
    forall k :: 0 <= k < |a| ==> a[k]
  }

  /** The number of consecutive `true` at the end of `a`. */
  function TrailingRun(a: seq<bool>): (t: nat)
    ensures t <= |a|
  {
    if a == [] || !a[|a| - 1] then 0 else TrailingRun(a[..|a| - 1]) + 1
  }

  function Max(x: int, y: int): int {
    if x >= y then x else y
  }

  /** The longest run of consecutive `true`, scanned left to right. */
  function LongestRun(a: seq<bool>): (m: nat)
    ensures TrailingRun(a) <= m <= |a|
  {
    if a == [] then 0
    else
      Max(LongestRun(a[..|a| - 1]), TrailingRun(a))
  }

  lemma {:induction false} TrailingRunSpec(a: seq<bool>)
    ensures AllTrue(a[|a| - TrailingRun(a)..])
    ensures TrailingRun(a) < |a| ==> !a[|a| - 1 - TrailingRun(a)]
  {
    if a != [] && a[|a| - 1] {
      var init := a[..|a| - 1];
      TrailingRunSpec(init);
      assert a[|a| - TrailingRun(a)..] == init[|init| - TrailingRun(init)..] + [a[|a| - 1]];
      if TrailingRun(a) < |a| {
        assert a[|a| - 1 - TrailingRun(a)] == init[|init| - 1 - TrailingRun(init)];
      }
    }
  }

  /** Every all-`true` stretch ending at the end of `a` is no longer than the trailing run. */
  lemma TrailingRunMax(a: seq<bool>, i: nat)
    requires i <= |a| && AllTrue(a[i..])
    ensures |a| - i <= TrailingRun(a)
  {
    TrailingRunSpec(a);
  }

  /** `a` holds `len` consecutive `true` from position `i`. */
  predicate RunAt(a: seq<bool>, i: nat, len: nat) {
    i + len <= |a| && AllTrue(a[i..i + len])
  }

  /** `LongestRun` is the length of a longest stretch of consecutive `true`: one exists, and none is longer. */
  lemma LongestRunSpec(a: seq<bool>)
    ensures forall i, j :: 0 <= i <= j <= |a| && AllTrue(a[i..j]) ==> j - i <= LongestRun(a)
    ensures exists i: nat :: RunAt(a, i, LongestRun(a))
  {
    LongestRunBound(a);
    LongestRunAttained(a);
  }

  lemma {:induction false} LongestRunBound(a: seq<bool>)
    ensures forall i, j :: 0 <= i <= j <= |a| && AllTrue(a[i..j]) ==> j - i <= LongestRun(a)
  {
    if a != [] {
      var init := a[..|a| - 1];
      LongestRunBound(init);
      forall i, j | 0 <= i <= j <= |a| && AllTrue(a[i..j]) ensures j - i <= LongestRun(a) {
        if j == |a| {
          TrailingRunMax(a, i);
        } else {
          assert a[i..j] == init[i..j];
        }
      }
    }
  }

  lemma {:induction false} LongestRunAttained(a: seq<bool>)
    ensures exists i: nat :: RunAt(a, i, LongestRun(a))
  {
    if a == [] {
      assert a[0..0] == [];
      assert RunAt(a, 0, LongestRun(a));
    } else {
      var init := a[..|a| - 1];
      if LongestRun(init) >= TrailingRun(a) {
        LongestRunAttained(init);
        var i: nat :| RunAt(init, i, LongestRun(init));
        assert a[i..i + LongestRun(a)] == init[i..i + LongestRun(init)];
        assert RunAt(a, i, LongestRun(a));
      } else {
        TrailingRunSpec(a);
        assert a[|a| - TrailingRun(a)..|a| - TrailingRun(a) + LongestRun(a)] == a[|a| - TrailingRun(a)..];
        assert RunAt(a, |a| - TrailingRun(a), LongestRun(a));
      }
    }
  }

  /** The position of the first `true`. */
  function FirstTrue(a: seq<bool>): (r: Option<nat>)
    ensures r.Some? ==> r.value < |a| && a[r.value] && forall j :: 0 <= j < r.value ==> !a[j]
    ensures r.None? ==> forall j :: 0 <= j < |a| ==> !a[j]
  {
    if a == [] then None
    else
      var r := FirstTrue(a[..|a| - 1]);
      if r.Some? then r
      else if a[|a| - 1] then Some(|a| - 1)
      else None
  }

  /** The number of days the streak scan looks at: today and the 364 before it. */
  const SCAN_DAYS: nat := 365

  datatype StreakInfo = StreakInfo(current: int, longest: int, lastActiveDate: string)

  /** The streak the scan reports, stated on the active-day flags of the window. */
  function StreakOf(active: seq<Routine>, index: map<string, set<string>>, today: Date): StreakInfo
    requires ValidDate(today)
  {
    if |active| == 0 then StreakInfo(0, 0, "")
    else
      var keys := BackKeys(today, SCAN_DAYS);
      var a := ActiveFlags(active, index, keys);
      StreakInfo(
        if a[0] || a[1] then 1 else 0,
        LongestRun(a),
        match FirstTrue(a) case None => "" case Some(i) => keys[i])
  }

  /** `current` is at most 1, and never above `longest`. */
  lemma StreakBounds(active: seq<Routine>, index: map<string, set<string>>, today: Date)
    requires ValidDate(today)
    ensures 0 <= StreakOf(active, index, today).current <= 1
    ensures StreakOf(active, index, today).current <= StreakOf(active, index, today).longest
  {
    if |active| > 0 {
      var a := ActiveFlags(active, index, BackKeys(today, SCAN_DAYS));
      LongestRunBound(a);
      if a[0] { assert AllTrue(a[0..1]); }
      if a[1] { assert AllTrue(a[1..2]); }
    }
  }

  /** `lastActiveDate` is the key of the most recent active day, and empty when there is none. */
  lemma LastActiveDateSpec(active: seq<Routine>, index: map<string, set<string>>, today: Date)
    requires ValidDate(today)
    ensures StreakOf(active, index, today).lastActiveDate == "" <==>
      |active| == 0 || forall i: nat :: i < SCAN_DAYS ==> !IsActiveDay(active, index, DateKey(DaysBefore(today, i)))
    ensures StreakOf(active, index, today).lastActiveDate != "" ==>
      exists i: nat :: i < SCAN_DAYS && IsActiveDay(active, index, DateKey(DaysBefore(today, i)))
        && StreakOf(active, index, today).lastActiveDate == DateKey(DaysBefore(today, i))
        && forall j: nat :: j < i ==> !IsActiveDay(active, index, DateKey(DaysBefore(today, j)))
  {
    if |active| > 0 {
      var keys := BackKeys(today, SCAN_DAYS);
      var a := ActiveFlags(active, index, keys);
      match FirstTrue(a) {
        case None =>
          forall i: nat | i < SCAN_DAYS ensures !IsActiveDay(active, index, DateKey(DaysBefore(today, i))) {
            DayFlag(active, index, today, i);
          }
        case Some(i) =>
          DayFlag(active, index, today, i);
          DateKeyNonEmpty(DaysBefore(today, i));
          forall j: nat | j < i ensures !IsActiveDay(active, index, DateKey(DaysBefore(today, j))) {
            DayFlag(active, index, today, j);
          }
      }
    }
  }

  /** The `i`-th flag of the scan is whether the day `i` days back is active, and its key is that day's. */
  lemma DayFlag(active: seq<Routine>, index: map<string, set<string>>, today: Date, i: nat)
    requires ValidDate(today) && i < SCAN_DAYS
    ensures BackKeys(today, SCAN_DAYS)[i] == DateKey(DaysBefore(today, i))
    ensures ActiveFlags(active, index, BackKeys(today, SCAN_DAYS))[i] == IsActiveDay(active, index, DateKey(DaysBefore(today, i)))
  {
    BackKeyAt(today, SCAN_DAYS, i);
    ActiveFlagAt(active, index, BackKeys(today, SCAN_DAYS), i);
  }

  lemma DateKeyNonEmpty(d: Date)
    ensures DateKey(d) != ""
  {
    assert DateKey(d) == IntToString(d.year) + "-" + Pad2(d.month) + "-" + Pad2(d.day);
    assert |IntToString(d.year) + "-"| >= 1;
  }

  /** How the run lengths and the first `true` change when the scan takes one more flag. */
  lemma ScanStep(a: seq<bool>, i: nat)
    requires i < |a|
    ensures TrailingRun(a[..i + 1]) == if a[i] then TrailingRun(a[..i]) + 1 else 0
    ensures LongestRun(a[..i + 1]) == Max(LongestRun(a[..i]), TrailingRun(a[..i + 1]))
    ensures FirstTrue(a[..i + 1]) == if FirstTrue(a[..i]).Some? then FirstTrue(a[..i]) else if a[i] then Some(i) else None
  {
    assert a[..i + 1][..i] == a[..i];
  }

  /** The `current` value after scanning `i` flags: 1 once today or yesterday was active. */
  function CurrentAfter(a: seq<bool>, i: nat): int
    requires i <= |a|
  {
    if i >= 1 && a[0] then 1 else if i >= 2 && a[1] then 1 else 0
  }

  lemma CurrentStep(a: seq<bool>, i: nat)
    requires i < |a|
    ensures CurrentAfter(a, i + 1) ==
      if a[i] && (i == 0 || (i == 1 && CurrentAfter(a, i) == 0)) then TrailingRun(a[..i + 1]) else CurrentAfter(a, i)
  {
    if i == 1 && a[1] && !a[0] {
      assert a[..2][..1] == a[..1];
    }
  }

  /** One day of the streak scan: its key, and whether at least half of the active routines were done. */
  method CheckDay(active: seq<Routine>, index: map<string, set<string>>, d: Date) returns (key: string, isActive: bool)
    ensures key == DateKey(d) && key != ""
    ensures isActive == IsActiveDay(active, index, key)
  {
    key := DateKey(d);
    DateKeyNonEmpty(d);
    var completed := CompletedCount(active, DaySet(index, key));
    isActive := 2 * completed >= |active|;
  }

  /** The scan's variables after `i` days: the day under the cursor and the runs, `current` and last active key so far. */
  ghost predicate ScanInv(a: seq<bool>, keys: seq<string>, today: Date, i: nat, d: Date,
                          tempStreak: int, longest: int, current: int, lastActive: string)
    requires ValidDate(today)
  {
    && i <= |a| && |keys| == |a|
    && d == DaysBefore(today, i)
    && tempStreak == TrailingRun(a[..i])
    && Max(longest, tempStreak) == LongestRun(a[..i])
    && current == CurrentAfter(a, i)
    && (FirstTrue(a[..i]).None? ==> lastActive == "")
    && (FirstTrue(a[..i]).Some? ==> lastActive == keys[FirstTrue(a[..i]).value] != "")
  }

  /**
   * One day of the scan: given the day's key and whether it is active, the
   * updates of both branches keep the scan's invariant.
   */
  lemma ScanAdvance(active: seq<Routine>, index: map<string, set<string>>, a: seq<bool>, keys: seq<string>,
                    today: Date, i: nat, d: Date, key: string, isActive: bool,
                    t0: int, l0: int, c0: int, la0: string, t1: int, l1: int, c1: int, la1: string)
    requires ValidDate(today) && i < SCAN_DAYS
    requires keys == BackKeys(today, SCAN_DAYS) && a == ActiveFlags(active, index, keys)
    requires ScanInv(a, keys, today, i, d, t0, l0, c0, la0)
    requires key == DateKey(d) && key != "" && isActive == IsActiveDay(active, index, key)
    requires t1 == if isActive then t0 + 1 else 0
    requires l1 == if isActive then l0 else Max(l0, t0)
    requires c1 == if isActive && (i == 0 || (i == 1 && c0 == 0)) then t1 else c0
    requires la1 == if isActive && la0 == "" then key else la0
    ensures ScanInv(a, keys, today, i + 1, PrevDay(d), t1, l1, c1, la1)
  {
    BackKeyAt(today, SCAN_DAYS, i);
    ActiveFlagAt(active, index, keys, i);
    ScanStep(a, i);
    CurrentStep(a, i);
  }

  /** After the whole window the scan's variables are the streak the window defines. */
  lemma ScanDone(active: seq<Routine>, index: map<string, set<string>>, today: Date,
                 tempStreak: int, longest: int, current: int, lastActive: string, d: Date)
    requires ValidDate(today) && |active| > 0
    requires ScanInv(ActiveFlags(active, index, BackKeys(today, SCAN_DAYS)), BackKeys(today, SCAN_DAYS), today, SCAN_DAYS, d,
                     tempStreak, longest, current, lastActive)
    ensures StreakInfo(current, Max(longest, tempStreak), lastActive) == StreakOf(active, index, today)
  {
    var a := ActiveFlags(active, index, BackKeys(today, SCAN_DAYS));
    assert a[..SCAN_DAYS] == a;
  }

  /** `calculateStreak`: scans today and the 364 days before it. */
  method CalculateStreak(active: seq<Routine>, index: map<string, set<string>>, today: Date) returns (streak: StreakInfo)
    requires ValidDate(today)
    ensures streak == StreakOf(active, index, today)
  {
    var total := |active|;
    if total == 0 {
      return StreakInfo(0, 0, "");
    }
    ghost var keys := BackKeys(today, SCAN_DAYS);
    ghost var a := ActiveFlags(active, index, keys);
    var current, longest, tempStreak := 0, 0, 0;
    var lastActive := "";
    var d := today;
    for i := 0 to SCAN_DAYS
      invariant ScanInv(a, keys, today, i, d, tempStreak, longest, current, lastActive)
    {
      var key, isActive := CheckDay(active, index, d);
      ghost var t0, l0, c0, la0 := tempStreak, longest, current, lastActive;
      if isActive {
        tempStreak := tempStreak + 1;
        if i == 0 || (i == 1 && current == 0) {
          current := tempStreak;
        }
        if lastActive == "" {
          lastActive := key;
        }
      } else {
        longest := Max(longest, tempStreak);
        tempStreak := 0;
      }
      ScanAdvance(active, index, a, keys, today, i, d, key, isActive, t0, l0, c0, la0, tempStreak, longest, current, lastActive);
      d := PrevDay(d);
    }
    ScanDone(active, index, today, tempStreak, longest, current, lastActive, d);
    longest := Max(longest, tempStreak);
    streak := StreakInfo(current, longest, lastActive);
  }

  // ---------------------------------------------------------------------------
  // Per-category and per-slot tallies
  // ---------------------------------------------------------------------------

  /** One entry of `categoryMap` / `slotMap`: how many active routines have the key, and how many of them are done today. */
  datatype Tally<K> = Tally(key: K, count: int, completed: int)

  function TallyRate<K>(t: Tally<K>): int {
    CompletionRate(t.completed, t.count)
  }

  /** The position of `key` among the entries, if any. */
  function FindKey<K(==)>(entries: seq<Tally<K>>, key: K): (r: Option<nat>)
    ensures r.Some? ==> r.value < |entries| && entries[r.value].key == key
    ensures r.None? ==> forall k :: 0 <= k < |entries| ==> entries[k].key != key
  {
    if entries == [] then None
    else if entries[|entries| - 1].key == key then Some(|entries| - 1)
    else FindKey(entries[..|entries| - 1], key)
  }

  /** One step of the tally loop: `get ?? {0, 0}`, increment, `set` (a JavaScript Map keeps a key's first position). */
  function AddToTally<K(==)>(entries: seq<Tally<K>>, key: K, done: bool): seq<Tally<K>> {
    match FindKey(entries, key)
    case None => entries + [Bump(EntryOf(entries, key), done)]
    case Some(i) => entries[i := Bump(EntryOf(entries, key), done)]
  }

  /** `map.get(key) ?? { total: 0, completed: 0 }`. */
  function EntryOf<K(==)>(entries: seq<Tally<K>>, key: K): Tally<K> {
    match FindKey(entries, key)
    case None => Tally(key, 0, 0)
    case Some(i) => entries[i]
  }

  /** `entry.total++; if (done) entry.completed++`. */
  function Bump<K>(t: Tally<K>, done: bool): Tally<K> {
    Tally(t.key, t.count + 1, t.completed + (if done then 1 else 0))
  }

  /** The tally of a sequence of (key, done-today) observations, in order. */
  function TallyOf<K(==)>(keys: seq<K>, done: seq<bool>): seq<Tally<K>>
    requires |keys| == |done|
  {
    if keys == [] then []
    else AddToTally(TallyOf(keys[..|keys| - 1], done[..|done| - 1]), keys[|keys| - 1], done[|done| - 1])
  }

  /** How many observations have `key`. */
  function Occurrences<K(==)>(keys: seq<K>, key: K): nat {
    if keys == [] then 0
    else Occurrences(keys[..|keys| - 1], key) + (if keys[|keys| - 1] == key then 1 else 0)
  }

  lemma {:induction false} OccurrencesSpec<K>(keys: seq<K>, key: K)
    ensures Occurrences(keys, key) == multiset(keys)[key]
    ensures Occurrences(keys, key) > 0 <==> key in keys
  {
    if keys != [] {
      var init := keys[..|keys| - 1];
      OccurrencesSpec(init, key);
      assert keys == init + [keys[|keys| - 1]];
    }
  }

  /** The number of observations with `key` that are done. */
  function CountDone<K(==)>(keys: seq<K>, done: seq<bool>, key: K): (c: nat)
    requires |keys| == |done|
    ensures c <= Occurrences(keys, key)
  {
    if keys == [] then 0
    else CountDone(keys[..|keys| - 1], done[..|done| - 1], key) + (if keys[|keys| - 1] == key && done[|done| - 1] then 1 else 0)
  }

  function SumCounts<K>(entries: seq<Tally<K>>): int {
    if entries == [] then 0 else SumCounts(entries[..|entries| - 1]) + entries[|entries| - 1].count
  }

  lemma {:induction false} SumCountsUpdate<K>(entries: seq<Tally<K>>, i: nat, t: Tally<K>)
    requires i < |entries|
    ensures SumCounts(entries[i := t]) == SumCounts(entries) - entries[i].count + t.count
  {
    if i < |entries| - 1 {
      SumCountsUpdate(entries[..|entries| - 1], i, t);
      assert entries[i := t][..|entries| - 1] == entries[..|entries| - 1][i := t];
    } else {
      assert entries[i := t][..|entries| - 1] == entries[..|entries| - 1];
    }
  }

  lemma FindKeyAppend<K>(entries: seq<Tally<K>>, t: Tally<K>, key: K)
    ensures FindKey(entries + [t], key) == if t.key == key then Some(|entries|) else FindKey(entries, key)
  {
    assert (entries + [t])[..|entries|] == entries;
  }

  lemma {:induction false} FindKeyUpdate<K>(entries: seq<Tally<K>>, p: nat, t: Tally<K>, key: K)
    requires p < |entries| && t.key == entries[p].key
    ensures FindKey(entries[p := t], key) == FindKey(entries, key)
  {
    var n := |entries| - 1;
    if p < n && entries[n].key != key {
      FindKeyUpdate(entries[..n], p, t, key);
      assert entries[p := t][..n] == entries[..n][p := t];
    }
  }

  /** One tally step changes the entry of its own key only, by one more observation. */
  lemma AddToTallyEntry<K>(entries: seq<Tally<K>>, k: K, dn: bool, key: K)
    ensures FindKey(AddToTally(entries, k, dn), key).Some? <==> k == key || FindKey(entries, key).Some?
    ensures EntryOf(AddToTally(entries, k, dn), key) == if k == key then Bump(EntryOf(entries, key), dn) else EntryOf(entries, key)
  {
    match FindKey(entries, k) {
      case None =>
        FindKeyAppend(entries, Bump(EntryOf(entries, k), dn), key);
      case Some(p) =>
        FindKeyUpdate(entries, p, Bump(EntryOf(entries, k), dn), key);
    }
  }

  /** Looking a key up in the tally finds it exactly when it was observed. */
  lemma {:induction false} TallyFound<K>(keys: seq<K>, done: seq<bool>, key: K)
    requires |keys| == |done|
    ensures FindKey(TallyOf(keys, done), key).Some? <==> Occurrences(keys, key) > 0
  {
    if keys != [] {
      var n := |keys| - 1;
      TallyFound(keys[..n], done[..n], key);
      AddToTallyEntry(TallyOf(keys[..n], done[..n]), keys[n], done[n], key);
    }
  }

  /** The entry of a key counts its observations and the done ones among them. */
  lemma {:induction false} TallyCounts<K>(keys: seq<K>, done: seq<bool>, key: K)
    requires |keys| == |done|
    ensures EntryOf(TallyOf(keys, done), key) == Tally(key, Occurrences(keys, key), CountDone(keys, done, key))
  {
    if keys != [] {
      var n := |keys| - 1;
      TallyCounts(keys[..n], done[..n], key);
      AddToTallyEntry(TallyOf(keys[..n], done[..n]), keys[n], done[n], key);
    }
  }

  /** Each key has one entry. */
  lemma {:induction false} TallyDistinct<K>(keys: seq<K>, done: seq<bool>)
    requires |keys| == |done|
    ensures forall i, j :: 0 <= i < j < |TallyOf(keys, done)| ==> TallyOf(keys, done)[i].key != TallyOf(keys, done)[j].key
  {
    if keys != [] {
      var n := |keys| - 1;
      TallyDistinct(keys[..n], done[..n]);
    }
  }

  /** The counts add up to the number of observations. */
  lemma {:induction false} TallySum<K>(keys: seq<K>, done: seq<bool>)
    requires |keys| == |done|
    ensures SumCounts(TallyOf(keys, done)) == |keys|
  {
    if keys != [] {
      var n := |keys| - 1;
      var prev := TallyOf(keys[..n], done[..n]);
      var k, dn := keys[n], done[n];
      TallySum(keys[..n], done[..n]);
      match FindKey(prev, k) {
        case None =>
          assert (prev + [Bump(EntryOf(prev, k), dn)])[..|prev|] == prev;
        case Some(p) =>
          SumCountsUpdate(prev, p, Bump(EntryOf(prev, k), dn));
      }
    }
  }

  /**
   * Every entry is for an observed key, counts every observation of that key
   * and the done ones among them, so never more done than observed.
   */
  lemma TallyEntries<K>(keys: seq<K>, done: seq<bool>)
    requires |keys| == |done|
    ensures forall i :: 0 <= i < |TallyOf(keys, done)| ==>
      var e := TallyOf(keys, done)[i];
      e.key in keys && e.count == multiset(keys)[e.key] && e.completed == CountDone(keys, done, e.key)
      && 0 <= e.completed <= e.count
  {
    var t := TallyOf(keys, done);
    TallyDistinct(keys, done);
    forall i | 0 <= i < |t|
      ensures t[i].key in keys && t[i].count == multiset(keys)[t[i].key] && t[i].completed == CountDone(keys, done, t[i].key)
      ensures 0 <= t[i].completed <= t[i].count
    {
      TallyCounts(keys, done, t[i].key);
      TallyFound(keys, done, t[i].key);
      OccurrencesSpec(keys, t[i].key);
    }
  }

  /** Every observed key has an entry. */
  lemma TallyCovers<K>(keys: seq<K>, done: seq<bool>)
    requires |keys| == |done|
    ensures forall j :: 0 <= j < |keys| ==> FindKey(TallyOf(keys, done), keys[j]).Some?
  {
    forall j | 0 <= j < |keys| ensures FindKey(TallyOf(keys, done), keys[j]).Some? {
      TallyFound(keys, done, keys[j]);
      OccurrencesSpec(keys, keys[j]);
    }
  }

  /** The loops that fill `categoryMap` and `slotMap`. */
  method BuildTally<K(==)>(keys: seq<K>, done: seq<bool>) returns (entries: seq<Tally<K>>)
    requires |keys| == |done|
    ensures entries == TallyOf(keys, done)
  {
    entries := [];
    for i := 0 to |keys|
      invariant entries == TallyOf(keys[..i], done[..i])
    {
      ghost var prev := entries;
      var found := FindKey(entries, keys[i]);
      var entry := if found.Some? then entries[found.value] else Tally(keys[i], 0, 0);
      entry := entry.(count := entry.count + 1);
      if done[i] {
        entry := entry.(completed := entry.completed + 1);
      }
      if found.Some? {
        entries := entries[found.value := entry];
      } else {
        entries := entries + [entry];
      }
      TallyOfStep(keys, done, i, prev, entries);
    }
    assert keys[..|keys|] == keys && done[..|done|] == done;
  }

  /** One more observation adds itself to the tally of the ones before it. */
  lemma TallyOfStep<K>(keys: seq<K>, done: seq<bool>, i: nat, prev: seq<Tally<K>>, next: seq<Tally<K>>)
    requires |keys| == |done| && i < |keys|
    requires prev == TallyOf(keys[..i], done[..i])
    requires next == AddToTally(prev, keys[i], done[i])
    ensures next == TallyOf(keys[..i + 1], done[..i + 1])
  {
    assert keys[..i + 1][..i] == keys[..i] && done[..i + 1][..i] == done[..i];
  }

  function CategoryKeys(active: seq<Routine>): (keys: seq<Category>)
    ensures |keys| == |active| && forall k :: 0 <= k < |active| ==> keys[k] == active[k].category
  {
    seq(|active|, k requires 0 <= k < |active| => active[k].category)
  }

  function SlotKeys(active: seq<Routine>): (keys: seq<TimeSlot>)
    ensures |keys| == |active| && forall k :: 0 <= k < |active| ==> keys[k] == active[k].timeSlot
  {
    seq(|active|, k requires 0 <= k < |active| => active[k].timeSlot)
  }

  function DoneFlags(active: seq<Routine>, ids: set<string>): (done: seq<bool>)
    ensures |done| == |active| && forall k :: 0 <= k < |active| ==> done[k] == (active[k].id in ids)
  {
    seq(|active|, k requires 0 <= k < |active| => active[k].id in ids)
  }

  /** Every tally entry has a rate in [0, 100]. */
  lemma TallyRates<K>(keys: seq<K>, done: seq<bool>)
    requires |keys| == |done|
    ensures forall i :: 0 <= i < |TallyOf(keys, done)| ==> 0 <= TallyRate(TallyOf(keys, done)[i]) <= 100
  {
    TallyEntries(keys, done);
  }

  // ---------------------------------------------------------------------------
  // Insights
  // ---------------------------------------------------------------------------

  /** The insight messages, by rule (their display text is not modelled). */
  datatype Insight =
    | AddRoutinePrompt
    | AllDoneToday
    | AlmostDoneToday
    | GoodStartToday
    | StreakWeek(days: int)
    | StreakBuilding(days: int)
    | AboveWeeklyAverage
    | BestSlot(slot: TimeSlot, rate: int)
    | BestCategory(category: Category, rate: int)

  predicate IsTodayTier(x: Insight) {
    x.AllDoneToday? || x.AlmostDoneToday? || x.GoodStartToday?
  }

  predicate IsStreakInsight(x: Insight) {
    x.StreakWeek? || x.StreakBuilding?
  }

  /** `stats.reduce((best, cur) => cur.rate > best.rate ? cur : best, stats[0])`: the first entry of highest rate. */
  function BestIndex<K>(stats: seq<Tally<K>>): (b: nat)
    requires |stats| > 0
    ensures b < |stats|
    ensures forall j :: 0 <= j < |stats| ==> TallyRate(stats[j]) <= TallyRate(stats[b])
    ensures forall j :: 0 <= j < b ==> TallyRate(stats[j]) < TallyRate(stats[b])
  {
    if |stats| == 1 then 0
    else
      var b := BestIndex(stats[..|stats| - 1]);
      if TallyRate(stats[|stats| - 1]) > TallyRate(stats[b]) then |stats| - 1 else b
  }

  datatype InsightInput = InsightInput(
    todayRate: int,
    weeklyAvgRate: int,
    streak: int,
    categoryStats: seq<Tally<Category>>,
    timeSlotStats: seq<Tally<TimeSlot>>,
    totalRoutines: int)

  /** The completion-today message: at most one of the three tiers. */
  function TierInsight(todayRate: int): seq<Insight> {
    if todayRate == 100 then [AllDoneToday]
    else if todayRate >= 70 then [AlmostDoneToday]
    else if todayRate > 0 then [GoodStartToday]
    else []
  }

  function StreakInsight(streak: int): seq<Insight> {
    if streak >= 7 then [StreakWeek(streak)]
    else if streak >= 3 then [StreakBuilding(streak)]
    else []
  }

  function AboveAverageInsight(todayRate: int, weeklyAvgRate: int): seq<Insight> {
    if weeklyAvgRate > 0 && todayRate > weeklyAvgRate then [AboveWeeklyAverage] else []
  }

  function BestSlotInsight(stats: seq<Tally<TimeSlot>>): seq<Insight> {
    if |stats| == 0 then []
    else
      var best := stats[BestIndex(stats)];
      if TallyRate(best) > 0 then [BestSlot(best.key, TallyRate(best))] else []
  }

  function BestCategoryInsight(stats: seq<Tally<Category>>): seq<Insight> {
    if |stats| == 0 then []
    else
      var best := stats[BestIndex(stats)];
      if TallyRate(best) > 0 then [BestCategory(best.key, TallyRate(best))] else []
  }

  /** `generateInsights`: the prompt alone when there is no routine, else the rules in order, cut to the first four. */
  function GenerateInsights(data: InsightInput): (r: seq<Insight>)
    ensures |r| <= 4
  {
    if data.totalRoutines == 0 then [AddRoutinePrompt]
    else
      var all := AllInsights(data);
      if |all| > 4 then all[..4] else all
  }

  /** All the rules' messages in push order, before the cut to four. */
  function AllInsights(data: InsightInput): seq<Insight> {
    TierInsight(data.todayRate) + (StreakInsight(data.streak)
      + AboveAverageInsight(data.todayRate, data.weeklyAvgRate)
      + BestSlotInsight(data.timeSlotStats) + BestCategoryInsight(data.categoryStats))
  }

  /** With routines, the list is a prefix of the rules' messages that keeps the today message. */
  lemma InsightsPrefix(data: InsightInput)
    requires data.totalRoutines != 0
    ensures forall x :: x in GenerateInsights(data) ==> x in AllInsights(data)
    ensures TierInsight(data.todayRate) <= GenerateInsights(data)
  {
    var all := AllInsights(data);
    assert all == TierInsight(data.todayRate) + StreakInsight(data.streak)
      + AboveAverageInsight(data.todayRate, data.weeklyAvgRate)
      + BestSlotInsight(data.timeSlotStats) + BestCategoryInsight(data.categoryStats);
    assert GenerateInsights(data) <= all;
  }

  /**
   * With routines, exactly one of the three today messages appears, chosen by
   * the rate tiers 100, [70, 100) and (0, 70), and none at rate 0; the prompt
   * to add routines appears only when there are none.
   */
  lemma GenerateInsightsTiers(data: InsightInput)
    ensures data.totalRoutines == 0 ==> GenerateInsights(data) == [AddRoutinePrompt]
    ensures data.totalRoutines != 0 ==>
      && AddRoutinePrompt !in GenerateInsights(data)
      && (AllDoneToday in GenerateInsights(data) <==> data.todayRate == 100)
      && (AlmostDoneToday in GenerateInsights(data) <==> 70 <= data.todayRate != 100)
      && (GoodStartToday in GenerateInsights(data) <==> 0 < data.todayRate < 70)
  {
    if data.totalRoutines != 0 {
      InsightsPrefix(data);
      var tier := TierInsight(data.todayRate);
      var r := GenerateInsights(data);
      OnlyTierIsToday(data);
      if |tier| == 1 {
        assert r[0] == tier[0];
      }
    }
  }

  /** Among the rules' messages, only the tier message is a today message, and none is the prompt to add routines. */
  lemma OnlyTierIsToday(data: InsightInput)
    ensures forall x :: x in AllInsights(data) ==>
      x in TierInsight(data.todayRate) || (!IsTodayTier(x) && x != AddRoutinePrompt)
  {
  }

  /** Every message in the list is backed by the data: a streak of at least 3, or the best slot or category by rate, with a positive rate. */
  lemma GenerateInsightsJustified(data: InsightInput, x: Insight)
    requires x in GenerateInsights(data)
    ensures IsStreakInsight(x) ==> data.streak >= 3
    ensures x.BestSlot? ==>
      |data.timeSlotStats| > 0 && x.rate > 0
      && x.slot == data.timeSlotStats[BestIndex(data.timeSlotStats)].key
      && x.rate == TallyRate(data.timeSlotStats[BestIndex(data.timeSlotStats)])
    ensures x.BestCategory? ==>
      |data.categoryStats| > 0 && x.rate > 0
      && x.category == data.categoryStats[BestIndex(data.categoryStats)].key
      && x.rate == TallyRate(data.categoryStats[BestIndex(data.categoryStats)])
  {
    if data.totalRoutines != 0 {
      InsightsPrefix(data);
    }
  }

  // ---------------------------------------------------------------------------
  // calculateAnalytics
  // ---------------------------------------------------------------------------

  datatype AnalyticsOverview = AnalyticsOverview(
    todayRate: int,
    todayCompleted: int,
    todayTotal: int,
    weeklyAvgRate: int,
    monthlyAvgRate: int,
    currentStreak: int,
    longestStreak: int,
    totalCompletions: int,
    weeklyTrend: seq<DailyStats>,
    categoryStats: seq<Tally<Category>>,
    timeSlotStats: seq<Tally<TimeSlot>>,
    insights: seq<Insight>)

  /** `calculateAnalytics(routines, logs)` on day `today`: every figure is the one its definition above gives. */
  method CalculateAnalytics(routines: seq<Routine>, logs: seq<RoutineLog>, today: Date) returns (o: AnalyticsOverview)
    requires ValidDate(today)
    ensures var active := Filter(routines, IsActiveRoutine());
      var index := DayIndex(logs);
      var todaySet := DaySet(index, DateKey(today));
      var streak := StreakOf(active, index, today);
      && o.todayTotal == |active|
      && o.todayCompleted == |Filter(active, LoggedOn(logs, DateKey(today)))|
      && o.todayRate == CompletionRate(o.todayCompleted, o.todayTotal)
      && o.weeklyTrend == Trend(active, index, WindowKeys(today, 7))
      && o.monthlyAvgRate == MonthlyAverage(active, index, WindowKeys(today, 30))
      && o.currentStreak == streak.current && o.longestStreak == streak.longest
      && o.totalCompletions == |logs|
      && o.categoryStats == TallyOf(CategoryKeys(active), DoneFlags(active, todaySet))
      && o.timeSlotStats == TallyOf(SlotKeys(active), DoneFlags(active, todaySet))
      && o.insights == GenerateInsights(InsightInput(o.todayRate, o.weeklyAvgRate, o.currentStreak,
           o.categoryStats, o.timeSlotStats, o.todayTotal))
    ensures 0 <= o.todayCompleted <= o.todayTotal && 0 <= o.todayRate <= 100
    ensures 0 <= o.weeklyAvgRate <= 100 && 0 <= o.monthlyAvgRate <= 100
    ensures |o.weeklyTrend| == 7 && o.weeklyAvgRate == AverageRate(o.weeklyTrend)
  {
    var active := Filter(routines, IsActiveRoutine());
    var todayKey := DateKey(today);
    var index := BuildIndex(logs);
    var todaySet := DaySet(index, todayKey);
    var todayCompleted := CompletedCount(active, todaySet);
    CompletedCountFromLogs(active, logs, todayKey);
    var todayTotal := |active|;
    var todayRate := CompletionRate(todayCompleted, todayTotal);

    var last7 := LastDays(today, 7);
    var weeklyTrend := Trend(active, index, last7);
    var weeklyAvgRate := AverageRate(weeklyTrend);

    var last30 := LastDays(today, 30);
    var monthlyAvgRate := MonthlyAverage(active, index, last30);

    var streak := CalculateStreak(active, index, today);

    var done := DoneFlags(active, todaySet);
    var categoryStats := BuildTally(CategoryKeys(active), done);
    var timeSlotStats := BuildTally(SlotKeys(active), done);

    var insights := GenerateInsights(InsightInput(todayRate, weeklyAvgRate, streak.current, categoryStats, timeSlotStats, todayTotal));

    o := AnalyticsOverview(todayRate, todayCompleted, todayTotal, weeklyAvgRate, monthlyAvgRate,
      streak.current, streak.longest, |logs|, weeklyTrend, categoryStats, timeSlotStats, insights);
  }

  /**
   * The overview's aggregates agree: the per-category and per-slot counts
   * each add up to the number of active routines, the current streak is at
   * most 1 and at most the longest, and so no streak message is ever shown.
   */
  lemma OverviewConsistent(routines: seq<Routine>, logs: seq<RoutineLog>, today: Date, o: AnalyticsOverview)
    requires ValidDate(today)
    requires var active := Filter(routines, IsActiveRoutine());
      var index := DayIndex(logs);
      var todaySet := DaySet(index, DateKey(today));
      var streak := StreakOf(active, index, today);
      && o.todayTotal == |active|
      && o.currentStreak == streak.current && o.longestStreak == streak.longest
      && o.categoryStats == TallyOf(CategoryKeys(active), DoneFlags(active, todaySet))
      && o.timeSlotStats == TallyOf(SlotKeys(active), DoneFlags(active, todaySet))
      && o.insights == GenerateInsights(InsightInput(o.todayRate, o.weeklyAvgRate, o.currentStreak,
           o.categoryStats, o.timeSlotStats, o.todayTotal))
    ensures SumCounts(o.categoryStats) == o.todayTotal && SumCounts(o.timeSlotStats) == o.todayTotal
    ensures 0 <= o.currentStreak <= 1 && o.currentStreak <= o.longestStreak
    ensures forall x :: x in o.insights ==> !IsStreakInsight(x)
  {
    var active := Filter(routines, IsActiveRoutine());
    var todaySet := DaySet(DayIndex(logs), DateKey(today));
    TallySum(CategoryKeys(active), DoneFlags(active, todaySet));
    TallySum(SlotKeys(active), DoneFlags(active, todaySet));
    StreakBounds(active, DayIndex(logs), today);
    forall x | x in o.insights ensures !IsStreakInsight(x) {
      GenerateInsightsJustified(InsightInput(o.todayRate, o.weeklyAvgRate, o.currentStreak,
        o.categoryStats, o.timeSlotStats, o.todayTotal), x);
    }
  }
}
