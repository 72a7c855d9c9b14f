/**
 * The retention rules: the nudges the app proposes from a snapshot of the
 * routine store and the companion's health, the streak milestones, the
 * comeback nudge, and the activity metrics with their risk level.
 *
 * Message texts are not modelled: a nudge carries the index of its message
 * in the table of its kind. Every `Math.random()` pick is a `draw` parameter,
 * reduced modulo the table size, which is the index the pick would give for
 * the random value `draw / size`.
 */
module Retention {
  import opened Text
  import opened Types
  import opened Seqs
  import opened RoutineStore
  import opened Calendar

  datatype NudgeType =
    MorningReminder | StreakAtRisk | BloomNeedsCare | WeeklyReport | MilestoneCelebration | Comeback | TimeSlotReminder

  datatype Priority = Low | Medium | High

  /** The message of a nudge: an entry of its kind's table, prefixed by the pending count for a streak warning. */
  datatype NudgeBody = Message(index: nat) | PendingMessage(pending: nat, index: nat) | MilestoneMessage(days: int)

  datatype Nudge = Nudge(kind: NudgeType, body: NudgeBody, priority: Priority)

  const MORNING_MESSAGE_COUNT: nat := 3
  const STREAK_RISK_MESSAGE_COUNT: nat := 2
  const BLOOM_CARE_MESSAGE_COUNT: nat := 2
  const COMEBACK_MESSAGE_COUNT: nat := 2

  /** The streak lengths `MILESTONE_MESSAGES` has an entry for. */
  const MILESTONE_DAYS: set<int> := {3, 7, 14, 21, 30, 50, 100}

  /** The hour from which a partly done day counts as a streak at risk. */
  const STREAK_RISK_HOUR: int := 18
  /** The health under which the companion asks for care. */
  const BLOOM_CARE_HEALTH: int := 40
  /** The number of idle days from which a comeback nudge is offered. */
  const COMEBACK_DAYS: int := 3

  /** The priority each kind of nudge is created with. */
  function NudgePriority(kind: NudgeType): Priority {
    match kind
    case MorningReminder => Medium
    case StreakAtRisk => High
    case BloomNeedsCare => Medium
    case WeeklyReport => Low
    case MilestoneCelebration => Low
    case Comeback => High
    case TimeSlotReminder => Low
  }

  function Kinds(nudges: seq<Nudge>): (kinds: seq<NudgeType>)
    ensures |kinds| == |nudges|
    ensures forall i :: 0 <= i < |nudges| ==> kinds[i] == nudges[i].kind
  {
    if nudges == [] then [] else Kinds(nudges[..|nudges| - 1]) + [nudges[|nudges| - 1].kind]
  }

  /** The active routines of the snapshot and how many of them have a log for `key`. */
  function ActiveCount(routines: seq<Routine>): nat {
    |Filter(routines, IsActiveRoutine())|
  }

  function DoneCount(routines: seq<Routine>, logs: seq<RoutineLog>, key: string): nat {
    |Filter(Filter(routines, IsActiveRoutine()), LoggedOn(logs, key))|
  }

  lemma DoneAtMostActive(routines: seq<Routine>, logs: seq<RoutineLog>, key: string)
    ensures DoneCount(routines, logs, key) <= ActiveCount(routines)
  {
    FilterMultiset(Filter(routines, IsActiveRoutine()), LoggedOn(logs, key));
  }

  /**
   * `generateNudges` for the store snapshot, the day key, the clock hour and
   * the companion's health: each rule that fires contributes one nudge, in
   * the order morning reminder, streak warning, care request.
   */
  function GenerateNudges(routines: seq<Routine>, logs: seq<RoutineLog>, key: string, hour: int, health: int,
                          morningDraw: nat, riskDraw: nat, careDraw: nat): (nudges: seq<Nudge>)
    ensures |nudges| <= 3
  {
    var total := ActiveCount(routines);
    var completedCount := DoneCount(routines, logs, key);
    DoneAtMostActive(routines, logs, key);
    var pendingCount := total - completedCount;
    MorningNudge(completedCount, total, morningDraw)
      + StreakNudge(completedCount, pendingCount, hour, riskDraw)
      + CareNudge(health, careDraw)
  }

  function MorningNudge(completedCount: int, total: int, draw: nat): seq<Nudge> {
    if completedCount == 0 && total > 0
    then [Nudge(MorningReminder, Message(draw % MORNING_MESSAGE_COUNT), Medium)] else []
  }

  function StreakNudge(completedCount: int, pendingCount: nat, hour: int, draw: nat): seq<Nudge> {
    if pendingCount > 0 && completedCount > 0 && hour >= STREAK_RISK_HOUR
    then [Nudge(StreakAtRisk, PendingMessage(pendingCount, draw % STREAK_RISK_MESSAGE_COUNT), High)] else []
  }

  function CareNudge(health: int, draw: nat): seq<Nudge> {
    if health < BLOOM_CARE_HEALTH
    then [Nudge(BloomNeedsCare, Message(draw % BLOOM_CARE_MESSAGE_COUNT), Medium)] else []
  }

  /**
   * The rules: a morning reminder iff nothing is done yet and some routine is
   * active; a streak warning iff the day is partly done and it is 18:00 or
   * later; a care request iff health is below 40; in this order. The first
   * two never fire together, and every nudge has its kind's priority, a
   * message of its kind's table and, for a streak warning, the pending count.
   */
  lemma NudgeRules(routines: seq<Routine>, logs: seq<RoutineLog>, key: string, hour: int, health: int,
                   morningDraw: nat, riskDraw: nat, careDraw: nat)
    ensures var nudges := GenerateNudges(routines, logs, key, hour, health, morningDraw, riskDraw, careDraw);
      var total, done := ActiveCount(routines), DoneCount(routines, logs, key);
      && Kinds(nudges) == (if done == 0 && total > 0 then [MorningReminder] else [])
                        + (if 0 < done < total && hour >= STREAK_RISK_HOUR then [StreakAtRisk] else [])
                        + (if health < BLOOM_CARE_HEALTH then [BloomNeedsCare] else [])
      && (MorningReminder in Kinds(nudges) <==> done == 0 && total > 0)
      && (StreakAtRisk in Kinds(nudges) <==> 0 < done < total && hour >= STREAK_RISK_HOUR)
      && (BloomNeedsCare in Kinds(nudges) <==> health < BLOOM_CARE_HEALTH)
      && !(MorningReminder in Kinds(nudges) && StreakAtRisk in Kinds(nudges))
      && AllWellFormed(nudges, total - done)
  {
    var total, done := ActiveCount(routines), DoneCount(routines, logs, key);
    DoneAtMostActive(routines, logs, key);
    NudgePlanRules(total, done, hour, health, morningDraw, riskDraw, careDraw);
  }

  lemma NudgePlanRules(total: nat, done: nat, hour: int, health: int, morningDraw: nat, riskDraw: nat, careDraw: nat)
    requires done <= total
    ensures var nudges := MorningNudge(done, total, morningDraw) + StreakNudge(done, total - done, hour, riskDraw)
                        + CareNudge(health, careDraw);
      && Kinds(nudges) == (if done == 0 && total > 0 then [MorningReminder] else [])
                        + (if 0 < done < total && hour >= STREAK_RISK_HOUR then [StreakAtRisk] else [])
                        + (if health < BLOOM_CARE_HEALTH then [BloomNeedsCare] else [])
      && (MorningReminder in Kinds(nudges) <==> done == 0 && total > 0)
      && (StreakAtRisk in Kinds(nudges) <==> 0 < done < total && hour >= STREAK_RISK_HOUR)
      && (BloomNeedsCare in Kinds(nudges) <==> health < BLOOM_CARE_HEALTH)
      && !(MorningReminder in Kinds(nudges) && StreakAtRisk in Kinds(nudges))
      && AllWellFormed(nudges, total - done)
  {
    var m, s, c := MorningNudge(done, total, morningDraw), StreakNudge(done, total - done, hour, riskDraw), CareNudge(health, careDraw);
    MorningNudgeFacts(done, total, morningDraw);
    StreakNudgeFacts(done, total - done, hour, riskDraw);
    CareNudgeFacts(health, careDraw);
    NudgeKinds(m, s, c, done == 0 && total > 0, 0 < done < total && hour >= STREAK_RISK_HOUR, health < BLOOM_CARE_HEALTH);
    AllWellFormedConcat(m, s, total - done);
    AllWellFormedConcat(m + s, c, total - done);
  }

  /** The kinds of three rule outputs, each present exactly when its rule fires. */
  lemma NudgeKinds(m: seq<Nudge>, s: seq<Nudge>, c: seq<Nudge>, morning: bool, risk: bool, care: bool)
    requires Kinds(m) == (if morning then [MorningReminder] else [])
    requires Kinds(s) == (if risk then [StreakAtRisk] else [])
    requires Kinds(c) == (if care then [BloomNeedsCare] else [])
    requires !(morning && risk)
    ensures Kinds(m + s + c) == (if morning then [MorningReminder] else []) + (if risk then [StreakAtRisk] else [])
                              + (if care then [BloomNeedsCare] else [])
    ensures MorningReminder in Kinds(m + s + c) <==> morning
    ensures StreakAtRisk in Kinds(m + s + c) <==> risk
    ensures BloomNeedsCare in Kinds(m + s + c) <==> care
    ensures !(MorningReminder in Kinds(m + s + c) && StreakAtRisk in Kinds(m + s + c))
  {
    KindsConcat(m, s);
    KindsConcat(m + s, c);
    RuleMembership(Kinds(m + s + c), morning, risk, care);
  }

  lemma MorningNudgeFacts(done: int, total: int, draw: nat)
    ensures Kinds(MorningNudge(done, total, draw)) == if done == 0 && total > 0 then [MorningReminder] else []
    ensures AllWellFormed(MorningNudge(done, total, draw), total - done)
  {
  }

  lemma StreakNudgeFacts(done: int, pending: nat, hour: int, draw: nat)
    ensures Kinds(StreakNudge(done, pending, hour, draw)) == if pending > 0 && done > 0 && hour >= STREAK_RISK_HOUR then [StreakAtRisk] else []
    ensures AllWellFormed(StreakNudge(done, pending, hour, draw), pending)
  {
  }

  lemma CareNudgeFacts(health: int, draw: nat)
    ensures Kinds(CareNudge(health, draw)) == if health < BLOOM_CARE_HEALTH then [BloomNeedsCare] else []
    ensures forall pending :: AllWellFormed(CareNudge(health, draw), pending)
  {
  }

  lemma RuleMembership(ks: seq<NudgeType>, morning: bool, risk: bool, care: bool)
    requires ks == (if morning then [MorningReminder] else []) + (if risk then [StreakAtRisk] else [])
                 + (if care then [BloomNeedsCare] else [])
    ensures MorningReminder in ks <==> morning
    ensures StreakAtRisk in ks <==> risk
    ensures BloomNeedsCare in ks <==> care
  {
    var a, b, c := if morning then [MorningReminder] else [], if risk then [StreakAtRisk] else [],
                   if care then [BloomNeedsCare] else [];
    assert forall k :: k in ks <==> k in a || k in b || k in c;
  }

  /** Every nudge of the list is well formed. */
  predicate AllWellFormed(nudges: seq<Nudge>, pending: int) {
    forall i :: 0 <= i < |nudges| ==> WellFormedNudge(nudges[i], pending)
  }

  lemma AllWellFormedConcat(a: seq<Nudge>, b: seq<Nudge>, pending: int)
    requires AllWellFormed(a, pending) && AllWellFormed(b, pending)
    ensures AllWellFormed(a + b, pending)
  {
    forall i | 0 <= i < |a + b| ensures WellFormedNudge((a + b)[i], pending) {
      if i >= |a| { assert (a + b)[i] == b[i - |a|]; }
    }
  }

  lemma {:induction false} KindsConcat(a: seq<Nudge>, b: seq<Nudge>)
    ensures Kinds(a + b) == Kinds(a) + Kinds(b)
  {
    assert |Kinds(a + b)| == |Kinds(a) + Kinds(b)|;
    forall k | 0 <= k < |a + b| ensures Kinds(a + b)[k] == (Kinds(a) + Kinds(b))[k] {
      if k >= |a| { assert (a + b)[k] == b[k - |a|]; }
    }
  }

  /** Created with its kind's priority, from its kind's table, and a streak warning carries the pending count. */
  predicate WellFormedNudge(n: Nudge, pending: int) {
    && n.priority == NudgePriority(n.kind)
    && MessageInTable(n)
    && (n.kind == StreakAtRisk ==> n.body.PendingMessage? && n.body.pending == pending > 0)
  }

  /** The message of a nudge is an entry of the table of its kind. */
  predicate MessageInTable(n: Nudge) {
    match n.body
    case Message(i) => i < MessageCount(n.kind)
    case PendingMessage(_, i) => i < MessageCount(n.kind)
    case MilestoneMessage(days) => n.kind == MilestoneCelebration && days in MILESTONE_DAYS
  }

  /** The size of the message table of each kind of nudge. */
  function MessageCount(kind: NudgeType): nat {
    match kind
    case MorningReminder => MORNING_MESSAGE_COUNT
    case StreakAtRisk => STREAK_RISK_MESSAGE_COUNT
    case BloomNeedsCare => BLOOM_CARE_MESSAGE_COUNT
    case Comeback => COMEBACK_MESSAGE_COUNT
    case _ => 0
  }

  /** `checkMilestone`: a celebration exactly for the streak lengths with a message. */
  function CheckMilestone(streakDays: int): (n: Option<Nudge>)
    ensures n.Some? <==> streakDays in MILESTONE_DAYS
    ensures n.Some? ==> n.value.kind == MilestoneCelebration && n.value.priority == Low
    ensures n.Some? ==> n.value.body == MilestoneMessage(streakDays)
  {
    if streakDays in MILESTONE_DAYS then Some(Nudge(MilestoneCelebration, MilestoneMessage(streakDays), Low)) else None
  }

  /** `generateComebackNudge`: nothing below three idle days, otherwise a high-priority comeback nudge. */
  function GenerateComebackNudge(daysSinceLastActive: int, draw: nat): (n: Option<Nudge>)
    ensures n.None? <==> daysSinceLastActive < COMEBACK_DAYS
    ensures n.Some? ==> n.value.kind == Comeback && n.value.priority == NudgePriority(Comeback)
    ensures n.Some? ==> n.value.body.Message? && n.value.body.index < COMEBACK_MESSAGE_COUNT
  {
    if daysSinceLastActive < COMEBACK_DAYS then None
    else Some(Nudge(Comeback, Message(draw % COMEBACK_MESSAGE_COUNT), High))
  }

  // ---------------------------------------------------------------------------
  // Activity metrics
  // ---------------------------------------------------------------------------

  datatype RiskLevel = NoRisk | LowRisk | MediumRisk | HighRisk

  datatype RetentionMetrics = RetentionMetrics(
    daysActive: nat,
    lastActiveDate: string,
    daysSinceLastActive: int,
    isAtRisk: bool,
    riskLevel: RiskLevel)

  const MS_PER_DAY: int := 86400000
  /** The idle-day count reported when there is no log at all. */
  const NO_ACTIVITY_DAYS: int := 999

  /** The risk grading of the number of idle days. */
  function RiskLevelFor(daysSince: int): RiskLevel {
    if daysSince >= 7 then HighRisk
    else if daysSince >= 3 then MediumRisk
    else if daysSince >= 2 then LowRisk
    else NoRisk
  }

  /** More idle days never lower the risk. */
  lemma RiskLevelMonotone(a: int, b: int)
    requires a <= b
    ensures RiskRank(RiskLevelFor(a)) <= RiskRank(RiskLevelFor(b))
  {
  }

  function RiskRank(level: RiskLevel): nat {
    match level
    case NoRisk => 0
    case LowRisk => 1
    case MediumRisk => 2
    case HighRisk => 3
  }

  /** A comeback nudge is offered exactly when the idle days grade as medium or high risk. */
  lemma ComebackMatchesRisk(daysSince: int, draw: nat)
    ensures GenerateComebackNudge(daysSince, draw).Some? <==> RiskLevelFor(daysSince) in {MediumRisk, HighRisk}
  {
  }

  /** The distinct day keys of the logs, in order of first appearance (`Array.from(new Set(...))`). */
  function DistinctKeys(logs: seq<RoutineLog>): (keys: seq<string>)
    ensures forall i, j :: 0 <= i < j < |keys| ==> keys[i] != keys[j]
    ensures forall k :: k in keys <==> exists i :: 0 <= i < |logs| && logs[i].dateKey == k
  {
    if logs == [] then []
    else
      var init := DistinctKeys(logs[..|logs| - 1]);
      var k := logs[|logs| - 1].dateKey;
      if k in init then init else init + [k]
  }

  /** The set of day keys that carry a log. */
  function ActiveKeys(logs: seq<RoutineLog>): set<string> {
    set i | 0 <= i < |logs| :: logs[i].dateKey
  }

  /** A sequence without repetitions has as many elements as its set. */
  lemma {:induction false} DistinctCard(s: seq<string>)
    requires forall i, j :: 0 <= i < j < |s| ==> s[i] != s[j]
    ensures |set k | k in s| == |s|
  {
    if s != [] {
      var init := s[..|s| - 1];
      DistinctCard(init);
      assert (set k | k in s) == (set k | k in init) + {s[|s| - 1]};
    }
  }

  /** The default `sort()` comparator on strings. */
  function ByKey(): (string, string) -> bool {
    (a: string, b: string) => LexLe(a, b)
  }

  lemma ByKeyIsPreorder()
    ensures TotalPreorder(ByKey())
  {
    forall a: string, b: string ensures TotalAt(ByKey(), a, b) {
      LexLeTotal(a, b);
    }
    forall a: string, b: string, c: string ensures TransAt(ByKey(), a, b, c) {
      if LexLe(a, b) && LexLe(b, c) {
        LexLeTrans(a, b, c);
      }
    }
  }

  /**
   * `calculateRetentionMetrics` for the logs of the store, the current time
   * `now` in milliseconds and `midnightOf`, the local-midnight timestamp of a
   * day key as the platform's date parser gives it.
   */
  function CalculateRetentionMetrics(logs: seq<RoutineLog>, now: int, midnightOf: string -> int): RetentionMetrics {
    if |logs| == 0 then RetentionMetrics(0, "", NO_ACTIVITY_DAYS, false, NoRisk)
    else
      var activeDates := DistinctKeys(logs);
      var sortedDates := SortBy(activeDates, ByKey());
      var lastActiveDate := sortedDates[|sortedDates| - 1];
      var daysSince := (now - midnightOf(lastActiveDate)) / MS_PER_DAY;
      var riskLevel := RiskLevelFor(daysSince);
      RetentionMetrics(|activeDates|, lastActiveDate, daysSince, riskLevel != NoRisk, riskLevel)
  }

  /** With no log, the metrics are the fixed "never active" values. */
  lemma NoLogsMetrics(now: int, midnightOf: string -> int)
    ensures CalculateRetentionMetrics([], now, midnightOf) == RetentionMetrics(0, "", 999, false, NoRisk)
  {
  }

  /**
   * With logs, daysActive is the number of distinct day keys, lastActiveDate is
   * the greatest of them in string order, daysSinceLastActive is the whole
   * number of days from that day's midnight to now (rounded down), and the
   * risk level and flag follow from it.
   */
  lemma RetentionMetricsSpec(logs: seq<RoutineLog>, now: int, midnightOf: string -> int)
    requires |logs| > 0
    ensures var m := CalculateRetentionMetrics(logs, now, midnightOf);
      && m.daysActive == |ActiveKeys(logs)|
      && m.lastActiveDate in ActiveKeys(logs)
      && (forall k :: k in ActiveKeys(logs) ==> LexLe(k, m.lastActiveDate))
      && MS_PER_DAY * m.daysSinceLastActive <= now - midnightOf(m.lastActiveDate) < MS_PER_DAY * (m.daysSinceLastActive + 1)
      && m.riskLevel == RiskLevelFor(m.daysSinceLastActive)
      && (m.isAtRisk <==> m.daysSinceLastActive >= 2)
  {
    var keys := DistinctKeys(logs);
    var sorted := SortBy(keys, ByKey());
    var m := CalculateRetentionMetrics(logs, now, midnightOf);
    DistinctCard(keys);
    assert (set k | k in keys) == ActiveKeys(logs) by {
      forall k ensures k in keys <==> k in ActiveKeys(logs) {
        if k in keys {
          var i :| 0 <= i < |logs| && logs[i].dateKey == k;
        }
      }
    }
    assert logs[0].dateKey in keys;
    ByKeyIsPreorder();
    SortBySorted(keys, ByKey());
    SortByMember(keys, ByKey(), m.lastActiveDate);
    forall k | k in ActiveKeys(logs) ensures LexLe(k, m.lastActiveDate) {
      SortByMember(keys, ByKey(), k);
      var j :| 0 <= j < |sorted| && sorted[j] == k;
      if j < |sorted| - 1 {
        assert ByKey()(sorted[j], sorted[|sorted| - 1]);
      } else {
        LexLeRefl(k);
      }
    }
  }

  /**
   * When every log's key is the key of a valid day with a four-digit year,
   * the last active date is the key of the latest of those days: string order
   * picks the most recent day.
   */
  lemma LastActiveIsLatestDay(logs: seq<RoutineLog>, days: seq<Date>, now: int, midnightOf: string -> int)
    requires |logs| > 0 && |days| == |logs|
    requires forall i :: 0 <= i < |logs| ==> ValidDate(days[i]) && FourDigitYear(days[i]) && logs[i].dateKey == DateKey(days[i])
    ensures exists i :: (0 <= i < |logs| && CalculateRetentionMetrics(logs, now, midnightOf).lastActiveDate == DateKey(days[i])
                         && forall j :: 0 <= j < |logs| ==> DateLe(days[j], days[i]))
  {
    var last := CalculateRetentionMetrics(logs, now, midnightOf).lastActiveDate;
    RetentionMetricsSpec(logs, now, midnightOf);
    var i :| 0 <= i < |logs| && logs[i].dateKey == last;
    forall j | 0 <= j < |logs| ensures DateLe(days[j], days[i]) {
      assert logs[j].dateKey in ActiveKeys(logs);
      DateKeyOrder(days[j], days[i]);
    }
  }
}
