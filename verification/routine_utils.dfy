/**
 * The day and slot helpers of the routine engine: the hour-to-slot map, the
 * completion rate, the daily order of the slots and the grouping of routines
 * by slot. The day key is `Calendar.DateKey`.
 */
module RoutineUtils {
  import opened Text
  import opened Types
  import opened Seqs

  /** `getCurrentTimeSlot` for the current hour. */
  function CurrentTimeSlot(hour: int): TimeSlot {
    if 5 <= hour < 12 then Morning
    else if 12 <= hour < 17 then Afternoon
    else if 17 <= hour < 21 then Evening
    else Night
  }

  /**
   * The hour map agrees with the slot windows of the configuration: every
   * time of day lies in the window of exactly the slot its hour maps to.
   */
  lemma CurrentTimeSlotMatchesWindows(hour: int, minute: int)
    requires 0 <= hour < 24 && 0 <= minute < 60
    ensures forall s: TimeSlot :: InWindow(TimeSlotWindow(s), hour, minute) <==> s == CurrentTimeSlot(hour)
  {
  }

  lemma CurrentTimeSlotSamples()
    ensures CurrentTimeSlot(12) == Afternoon && CurrentTimeSlot(4) == Night && CurrentTimeSlot(23) == Night
    ensures CurrentTimeSlot(5) == Morning && CurrentTimeSlot(17) == Evening && CurrentTimeSlot(21) == Night
  {
  }

  /** `Math.round(num / den)` on exact rationals: the nearest integer, halves rounded up. */
  function RoundRatio(num: int, den: int): (r: int)
    requires den > 0
    ensures 2 * den * r - den <= 2 * num < 2 * den * r + den
    ensures 0 <= num <= 100 * den ==> 0 <= r <= 100
  {
    var r := (2 * num + den) / (2 * den);
    DivBounds(2 * num + den, 2 * den);
    if 0 <= num <= 100 * den then RoundRatioPercent(num, den, r); r else r
  }

  lemma DivBounds(a: int, q: int)
    requires q > 0
    ensures q * (a / q) <= a < q * (a / q) + q
  {
  }

  lemma RoundRatioPercent(num: int, den: int, r: int)
    requires den > 0 && 0 <= num <= 100 * den
    requires 2 * den * r - den <= 2 * num < 2 * den * r + den
    ensures 0 <= r <= 100
  {
    if r < 0 {
      MulMono(2 * den, r, -1);
    }
    if r > 100 {
      MulMono(2 * den, 101, r);
    }
  }

  lemma MulMono(q: int, x: int, y: int)
    requires q > 0 && x <= y
    ensures q * x <= q * y
  {
    assert q * y - q * x == q * (y - x);
  }

  /** `getCompletionRate`: 0 for an empty day, otherwise the rounded percentage. */
  function CompletionRate(completed: int, total: int): (r: int)
    ensures total == 0 ==> r == 0
    ensures total > 0 ==> 2 * total * r - total <= 200 * completed < 2 * total * r + total
    ensures 0 <= completed <= total ==> 0 <= r <= 100
  {
    if total == 0 then 0
    else if total < 0 then (2 * 100 * completed + total) / (2 * total)
    else RoundRatio(100 * completed, total)
  }

  lemma CompletionRateSamples()
    ensures CompletionRate(0, 0) == 0 && CompletionRate(3, 3) == 100
    ensures CompletionRate(1, 3) == 33 && CompletionRate(2, 3) == 67 && CompletionRate(1, 8) == 13
  {
  }

  lemma SlotCases(s: TimeSlot)
    ensures s == Morning || s == Afternoon || s == Evening || s == Night
  {
  }

  /** `TIME_SLOT_ORDER`. */
  const TIME_SLOT_ORDER: seq<TimeSlot> := [Morning, Afternoon, Evening, Night]

  lemma TimeSlotOrderListsEachOnce()
    ensures forall s: TimeSlot :: multiset(TIME_SLOT_ORDER)[s] == 1
    ensures TIME_SLOT_ORDER[0] == Morning && TIME_SLOT_ORDER[3] == Night
  {
    assert TIME_SLOT_ORDER == [Morning] + [Afternoon] + [Evening] + [Night];
    assert multiset(TIME_SLOT_ORDER) == multiset{Morning} + multiset{Afternoon} + multiset{Evening} + multiset{Night};
    forall s: TimeSlot ensures multiset(TIME_SLOT_ORDER)[s] == 1 {
      SlotCases(s);
    }
  }

  /** A slot of the order does not occur before its own position. */
  lemma SlotNotBefore(j: nat)
    requires j < |TIME_SLOT_ORDER|
    ensures TIME_SLOT_ORDER[j] !in TIME_SLOT_ORDER[..j]
  {
  }

  lemma TimeSlotOrderDistinct()
    ensures forall i, j :: 0 <= i < j < |TIME_SLOT_ORDER| ==> TIME_SLOT_ORDER[i] != TIME_SLOT_ORDER[j]
  {
  }

  /** The comparator `(a, b) => a.sortOrder - b.sortOrder`, as "a may precede b". */
  function BySortOrder(): (Routine, Routine) -> bool {
    (a: Routine, b: Routine) => a.sortOrder <= b.sortOrder
  }

  lemma BySortOrderIsPreorder()
    ensures TotalPreorder(BySortOrder())
  {
    forall a: Routine, b: Routine ensures TotalAt(BySortOrder(), a, b) { }
    forall a: Routine, b: Routine, c: Routine ensures TransAt(BySortOrder(), a, b, c) { }
  }

  function InSlot(slot: TimeSlot): Routine -> bool {
    (r: Routine) => r.timeSlot == slot
  }

  /** The group of one slot: the routines of that slot, stably sorted by sortOrder. */
  function SlotGroup(routines: seq<Routine>, slot: TimeSlot): seq<Routine> {
    SortBy(Filter(routines, InSlot(slot)), BySortOrder())
  }

  /** The `Record<TimeSlot, RoutineData[]>` that grouping returns: one list per slot, so every key is present. */
  datatype SlotGroups = SlotGroups(morning: seq<Routine>, afternoon: seq<Routine>, evening: seq<Routine>, night: seq<Routine>)
  {
    function Get(slot: TimeSlot): seq<Routine> {
      match slot
      case Morning => morning
      case Afternoon => afternoon
      case Evening => evening
      case Night => night
    }

    function Set(slot: TimeSlot, list: seq<Routine>): (g: SlotGroups)
      ensures g.Get(slot) == list
      ensures forall other: TimeSlot :: other != slot ==> g.Get(other) == Get(other)
    {
      match slot
      case Morning => this.(morning := list)
      case Afternoon => this.(afternoon := list)
      case Evening => this.(evening := list)
      case Night => this.(night := list)
    }
  }

  /** Every group holds the routines of its slot among `rs`, in order. */
  ghost predicate Pushed(groups: SlotGroups, rs: seq<Routine>) {
    forall s: TimeSlot :: groups.Get(s) == Filter(rs, InSlot(s))
  }

  /** The slots before position `j` of TIME_SLOT_ORDER hold their `pushed` list sorted; the rest are as pushed. */
  ghost predicate SortedUpTo(groups: SlotGroups, pushed: SlotGroups, j: nat)
    requires j <= |TIME_SLOT_ORDER|
  {
    forall s: TimeSlot :: groups.Get(s) == if s in TIME_SLOT_ORDER[..j] then SortBy(pushed.Get(s), BySortOrder()) else pushed.Get(s)
  }

  lemma PushStep(groups: SlotGroups, rs: seq<Routine>, r: Routine)
    requires Pushed(groups, rs)
    ensures Pushed(groups.Set(r.timeSlot, groups.Get(r.timeSlot) + [r]), rs + [r])
  {
    forall s: TimeSlot ensures Filter(rs + [r], InSlot(s)) == Filter(rs, InSlot(s)) + (if r.timeSlot == s then [r] else []) {
      FilterAppend(rs, r, InSlot(s));
    }
  }

  lemma SortStep(groups: SlotGroups, pushed: SlotGroups, j: nat)
    requires j < |TIME_SLOT_ORDER| && SortedUpTo(groups, pushed, j)
    ensures SortedUpTo(groups.Set(TIME_SLOT_ORDER[j], SortBy(groups.Get(TIME_SLOT_ORDER[j]), BySortOrder())), pushed, j + 1)
  {
    assert TIME_SLOT_ORDER[..j + 1] == TIME_SLOT_ORDER[..j] + [TIME_SLOT_ORDER[j]];
    SlotNotBefore(j);
  }

  lemma SortedAll(groups: SlotGroups, pushed: SlotGroups, routines: seq<Routine>)
    requires SortedUpTo(groups, pushed, |TIME_SLOT_ORDER|) && Pushed(pushed, routines)
    ensures forall s: TimeSlot :: groups.Get(s) == SlotGroup(routines, s)
  {
    assert TIME_SLOT_ORDER[..|TIME_SLOT_ORDER|] == TIME_SLOT_ORDER;
    forall s: TimeSlot ensures groups.Get(s) == SlotGroup(routines, s) {
      SlotCases(s);
    }
  }

  /**
   * `groupByTimeSlot`: pushes each routine onto the list of its slot, then
   * sorts each list in TIME_SLOT_ORDER.
   */
  method GroupByTimeSlot(routines: seq<Routine>) returns (groups: SlotGroups)
    ensures forall s: TimeSlot :: groups.Get(s) == SlotGroup(routines, s)
  {
    groups := SlotGroups([], [], [], []);
    assert routines[..0] == [];
    for i := 0 to |routines|
      invariant Pushed(groups, routines[..i])
    {
      var r := routines[i];
      assert routines[..i + 1] == routines[..i] + [r];
      PushStep(groups, routines[..i], r);
      groups := groups.Set(r.timeSlot, groups.Get(r.timeSlot) + [r]);
    }
    assert routines[..|routines|] == routines;
    ghost var pushed := groups;
    for j := 0 to |TIME_SLOT_ORDER|
      invariant SortedUpTo(groups, pushed, j)
    {
      var slot := TIME_SLOT_ORDER[j];
      SortStep(groups, pushed, j);
      groups := groups.Set(slot, SortBy(groups.Get(slot), BySortOrder()));
    }
    SortedAll(groups, pushed, routines);
  }

  /** Each routine lands in the group of its own slot: the group holds exactly the routines of that slot. */
  lemma SlotGroupContents(routines: seq<Routine>, slot: TimeSlot)
    ensures multiset(SlotGroup(routines, slot)) == multiset(Filter(routines, InSlot(slot)))
    ensures forall k :: 0 <= k < |SlotGroup(routines, slot)| ==> SlotGroup(routines, slot)[k].timeSlot == slot
    ensures forall r :: r in routines && r.timeSlot == slot ==> r in SlotGroup(routines, slot)
  {
    var g := SlotGroup(routines, slot);
    SortByPermutation(Filter(routines, InSlot(slot)), BySortOrder());
    FilterMembers(routines, InSlot(slot));
    forall k | 0 <= k < |g| ensures g[k].timeSlot == slot {
      assert g[k] in multiset(Filter(routines, InSlot(slot)));
    }
    forall r | r in routines && r.timeSlot == slot ensures r in g {
      var k :| 0 <= k < |routines| && routines[k] == r;
      assert r in Filter(routines, InSlot(slot));
      assert r in multiset(g);
    }
  }

  /** The four groups together hold every routine once. */
  lemma {:induction false} SlotGroupSizes(routines: seq<Routine>)
    ensures |SlotGroup(routines, Morning)| + |SlotGroup(routines, Afternoon)|
          + |SlotGroup(routines, Evening)| + |SlotGroup(routines, Night)| == |routines|
  {
    FilterSizes(routines);
  }

  lemma {:induction false} FilterSizes(routines: seq<Routine>)
    ensures |Filter(routines, InSlot(Morning))| + |Filter(routines, InSlot(Afternoon))|
          + |Filter(routines, InSlot(Evening))| + |Filter(routines, InSlot(Night))| == |routines|
  {
    if routines != [] {
      FilterSizes(routines[1..]);
    }
  }

  /** Each group is ordered by sortOrder, and routines with equal sortOrder keep their input order. */
  lemma SlotGroupOrdered(routines: seq<Routine>, slot: TimeSlot, c: Routine)
    ensures SortedBy(SlotGroup(routines, slot), BySortOrder())
    ensures Filter(SlotGroup(routines, slot), SameClass(BySortOrder(), c))
         == Filter(Filter(routines, InSlot(slot)), SameClass(BySortOrder(), c))
  {
    BySortOrderIsPreorder();
    SortBySorted(Filter(routines, InSlot(slot)), BySortOrder());
    SortByStable(Filter(routines, InSlot(slot)), BySortOrder(), c);
  }
}
