/**
 * The routine templates offered when adding a routine, and their grouping by
 * time of day.
 */
module Templates {
  import opened Types
  import opened Seqs

  /** A routine template; its title, description and icon are display text and not modelled. */
  datatype RoutineTemplate = RoutineTemplate(
    id: string,
    category: Category,
    timeSlot: TimeSlot,
    durationMinutes: int,
    color: string,
    frequencyType: FrequencyType,
    frequencyValue: string)

  /** `ROUTINE_TEMPLATES`. */
  const ROUTINE_TEMPLATES: seq<RoutineTemplate> := [
    RoutineTemplate("tpl_morning_water", Water, Morning, 1, "#42A5F5", Daily, "1"),
    RoutineTemplate("tpl_morning_stretch", Exercise, Morning, 10, "#EF5350", Daily, "1"),
    RoutineTemplate("tpl_morning_meditation", Meditation, Morning, 5, "#AB47BC", Daily, "1"),
    RoutineTemplate("tpl_morning_skincare", Skincare, Morning, 5, "#EC407A", Daily, "1"),
    RoutineTemplate("tpl_lunch_walk", Exercise, Afternoon, 15, "#66BB6A", Daily, "1"),
    RoutineTemplate("tpl_afternoon_water", Water, Afternoon, 1, "#42A5F5", Daily, "1"),
    RoutineTemplate("tpl_evening_exercise", Exercise, Evening, 30, "#EF5350", Daily, "1"),
    RoutineTemplate("tpl_evening_journal", Journal, Evening, 5, "#FFB300", Daily, "1"),
    RoutineTemplate("tpl_night_skincare", Skincare, Night, 10, "#EC407A", Daily, "1"),
    RoutineTemplate("tpl_night_no_phone", Sleep, Night, 30, "#5C6BC0", Daily, "1"),
    RoutineTemplate("tpl_night_meditation", Meditation, Night, 10, "#AB47BC", Daily, "1")
  ]

  /** Every template is a daily routine done once, lasts at least a minute, and has its own id. */
  lemma TemplateTableFacts()
    ensures forall k :: 0 <= k < |ROUTINE_TEMPLATES| ==>
      ROUTINE_TEMPLATES[k].frequencyType == Daily && ROUTINE_TEMPLATES[k].frequencyValue == "1"
      && ROUTINE_TEMPLATES[k].durationMinutes > 0
    ensures forall j, k :: 0 <= j < k < |ROUTINE_TEMPLATES| ==> ROUTINE_TEMPLATES[j].id != ROUTINE_TEMPLATES[k].id
  {
  }

  function TemplateInSlot(slot: TimeSlot): RoutineTemplate -> bool {
    (t: RoutineTemplate) => t.timeSlot == slot
  }

  /** The group under `slot`, empty when the slot is not a key. */
  function GroupOf(groups: map<TimeSlot, seq<RoutineTemplate>>, slot: TimeSlot): seq<RoutineTemplate> {
    if slot in groups then groups[slot] else []
  }

  /**
   * `getTemplatesByTimeSlot` over the table `templates`: a slot is a key
   * exactly when some template has it, and its group is the slot's templates
   * in table order.
   */
  method TemplatesByTimeSlot(templates: seq<RoutineTemplate>) returns (groups: map<TimeSlot, seq<RoutineTemplate>>)
    ensures forall s: TimeSlot :: s in groups <==> exists k :: 0 <= k < |templates| && templates[k].timeSlot == s
    ensures forall s: TimeSlot :: s in groups ==> groups[s] == Filter(templates, TemplateInSlot(s))
  {
    groups := map[];
    assert templates[..0] == [];
    for i := 0 to |templates|
      invariant forall s: TimeSlot :: s in groups <==> exists k :: 0 <= k < i && templates[k].timeSlot == s
      invariant forall s: TimeSlot :: GroupOf(groups, s) == Filter(templates[..i], TemplateInSlot(s))
    {
      var t := templates[i];
      assert templates[..i + 1] == templates[..i] + [t];
      forall s: TimeSlot
        ensures Filter(templates[..i + 1], TemplateInSlot(s)) == Filter(templates[..i], TemplateInSlot(s)) + (if t.timeSlot == s then [t] else [])
      {
        FilterAppend(templates[..i], t, TemplateInSlot(s));
      }
      if t.timeSlot !in groups {
        groups := groups[t.timeSlot := []];
      }
      groups := groups[t.timeSlot := groups[t.timeSlot] + [t]];
    }
    assert templates[..|templates|] == templates;
  }

  /** A slot some template has gets a non-empty group. */
  lemma {:induction false} SlotGroupNonEmpty(templates: seq<RoutineTemplate>, s: TimeSlot, k: nat)
    requires k < |templates| && templates[k].timeSlot == s
    ensures |Filter(templates, TemplateInSlot(s))| > 0
  {
    if k > 0 {
      SlotGroupNonEmpty(templates[1..], s, k - 1);
    }
  }

  /** The four groups together hold every template once: their sizes add up to the table's. */
  lemma {:induction false} GroupSizesSum(templates: seq<RoutineTemplate>)
    ensures |Filter(templates, TemplateInSlot(Morning))| + |Filter(templates, TemplateInSlot(Afternoon))|
          + |Filter(templates, TemplateInSlot(Evening))| + |Filter(templates, TemplateInSlot(Night))| == |templates|
  {
    if templates != [] {
      GroupSizesSum(templates[1..]);
    }
  }

  /** `sub` is `s` with some elements removed, the rest kept in order. */
  predicate IsSubsequence<T(==)>(sub: seq<T>, s: seq<T>) {
    if sub == [] then true
    else if s == [] then false
    else (sub[0] == s[0] && IsSubsequence(sub[1..], s[1..])) || IsSubsequence(sub, s[1..])
  }

  /** Each group keeps the templates of its slot in their table order. */
  lemma {:induction false} GroupKeepsOrder(templates: seq<RoutineTemplate>, s: TimeSlot)
    ensures IsSubsequence(Filter(templates, TemplateInSlot(s)), templates)
    ensures forall t :: t in templates && t.timeSlot == s <==> t in Filter(templates, TemplateInSlot(s))
  {
    FilterMembers(templates, TemplateInSlot(s));
    if templates != [] {
      GroupKeepsOrder(templates[1..], s);
      var group := Filter(templates, TemplateInSlot(s));
      var rest := Filter(templates[1..], TemplateInSlot(s));
      if templates[0].timeSlot == s {
        assert group == [templates[0]] + rest;
        assert group[1..] == rest;
      } else {
        assert group == rest;
      }
    }
  }
}
