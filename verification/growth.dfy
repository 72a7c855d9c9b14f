/**
 * The growth helpers: deep links and universal links built from the route
 * table with `:name` placeholders filled in, the analytics event queue, and
 * the A/B-test variant lookup.
 */
module Growth {
  import opened Text
  import opened Seqs

  // ---------------------------------------------------------------------------
  // Deep links
  // ---------------------------------------------------------------------------

  /** The keys of `DEEP_LINK_CONFIG.routes`. */
  datatype Route = Home | RoutineRoute | CoachRoute | ChallengeRoute | InviteRoute | ProfileRoute | PaywallRoute

  const DEEP_LINK_SCHEME: string := "routineflow"
  const UNIVERSAL_LINK_DOMAIN: string := "routineflow.app"

  /** The path of each route, with `:name` placeholders. */
  function RoutePath(route: Route): string {
    match route
    case Home => "/"
    case RoutineRoute => "/routine/:id"
    case CoachRoute => "/coach"
    case ChallengeRoute => "/challenge/:id"
    case InviteRoute => "/invite/:code"
    case ProfileRoute => "/profile"
    case PaywallRoute => "/premium"
  }

  /** The placeholder a parameter named `key` fills. */
  function Placeholder(key: string): string {
    ":" + key
  }

  /** The path after replacing, entry by entry in order, the first `:key` with its value. */
  function Substituted(path: string, entries: seq<(string, string)>): string {
    if entries == [] then path
    else
      var last := entries[|entries| - 1];
      ReplaceFirst(Substituted(path, entries[..|entries| - 1]), Placeholder(last.0), last.1)
  }

  /** The path of a link: the route's path, substituted when parameters are given. */
  function LinkPath(route: Route, params: Option<seq<(string, string)>>): string {
    if params.Some? then Substituted(RoutePath(route), params.value) else RoutePath(route)
  }

  /**
   * The loop both link builders run: every entry of the parameter record,
   * in iteration order, replaces the first occurrence of its placeholder.
   */
  method SubstituteParams(route: Route, params: Option<seq<(string, string)>>) returns (path: string)
    ensures path == LinkPath(route, params)
  {
    path := RoutePath(route);
    if params.Some? {
      var entries := params.value;
      for i := 0 to |entries|
        invariant path == Substituted(RoutePath(route), entries[..i])
      {
        assert entries[..i + 1][..i] == entries[..i];
        path := ReplaceFirst(path, Placeholder(entries[i].0), entries[i].1);
      }
      assert entries[..|entries|] == entries;
    }
  }

  /** `buildDeepLink`: the scheme, `://`, then the substituted path. */
  method BuildDeepLink(route: Route, params: Option<seq<(string, string)>>) returns (link: string)
    ensures link == DEEP_LINK_SCHEME + "://" + LinkPath(route, params)
  {
    var path := SubstituteParams(route, params);
    link := DEEP_LINK_SCHEME + "://" + path;
  }

  /** `buildUniversalLink`: `https://`, the domain, then the same substituted path. */
  method BuildUniversalLink(route: Route, params: Option<seq<(string, string)>>) returns (link: string)
    ensures link == "https://" + UNIVERSAL_LINK_DOMAIN + LinkPath(route, params)
  {
    var path := SubstituteParams(route, params);
    link := "https://" + UNIVERSAL_LINK_DOMAIN + path;
  }

  /**
   * `replace` with a string pattern touches only the first occurrence: with
   * no occurrence the string is unchanged, otherwise the text before the first
   * occurrence and after it is kept.
   */
  lemma ReplaceFirstSpec(s: string, pat: string, rep: string)
    ensures (forall i: nat :: !OccursAt(s, pat, i)) ==> ReplaceFirst(s, pat, rep) == s
    ensures forall i: nat :: OccursAt(s, pat, i) && (forall j: nat :: j < i ==> !OccursAt(s, pat, j)) ==>
      ReplaceFirst(s, pat, rep) == s[..i] + rep + s[i + |pat|..]
  {
    var r := IndexOfFrom(s, pat, 0);
    forall i: nat | OccursAt(s, pat, i) && (forall j: nat :: j < i ==> !OccursAt(s, pat, j))
      ensures ReplaceFirst(s, pat, rep) == s[..i] + rep + s[i + |pat|..]
    {
      assert r.Some?;
      assert !(r.value < i) && !(i < r.value);
    }
  }

  /** Without parameters, or with an empty record, the placeholders stay in the path. */
  lemma NoParamsKeepPath(route: Route)
    ensures LinkPath(route, None) == RoutePath(route)
    ensures LinkPath(route, Some([])) == RoutePath(route)
  {
  }

  /** Parameters whose placeholder does not occur in the path leave it unchanged. */
  lemma {:induction false} UnmatchedParamsNoEffect(path: string, entries: seq<(string, string)>)
    requires forall k, i: nat :: 0 <= k < |entries| ==> !OccursAt(path, Placeholder(entries[k].0), i)
    ensures Substituted(path, entries) == path
  {
    if entries != [] {
      var init := entries[..|entries| - 1];
      var last := entries[|entries| - 1];
      UnmatchedParamsNoEffect(path, init);
      ReplaceFirstSpec(path, Placeholder(last.0), last.1);
    }
  }

  /** The link for the coach screen, which has no placeholder. */
  lemma CoachLinkSample()
    ensures DEEP_LINK_SCHEME + "://" + LinkPath(CoachRoute, None) == "routineflow:///coach"
  {
  }

  /** The path of a routine with id 42. */
  lemma RoutineLinkSample()
    ensures LinkPath(RoutineRoute, Some([("id", "42")])) == "/routine/42"
  {
    var s := RoutePath(RoutineRoute);
    FirstOccurrenceAt(s, ":id", "42", 9);
    var entries := [("id", "42")];
    assert entries[..|entries| - 1] == [];
    assert Placeholder(entries[0].0) == ":id";
    assert s[..9] + "42" + s[12..] == "/routine/42";
  }

  /** A pattern whose first character does not occur before `i` is replaced at `i`. */
  lemma FirstOccurrenceAt(s: string, pat: string, rep: string, i: nat)
    requires OccursAt(s, pat, i) && |pat| > 0
    requires forall j :: 0 <= j < i ==> s[j] != pat[0]
    ensures ReplaceFirst(s, pat, rep) == s[..i] + rep + s[i + |pat|..]
  {
    forall j: nat | j < i ensures !OccursAt(s, pat, j) {
      if j + |pat| <= |s| {
        assert s[j..j + |pat|][0] == s[j] != pat[0];
      }
    }
    ReplaceFirstSpec(s, pat, rep);
  }

  // ---------------------------------------------------------------------------
  // Analytics events
  // ---------------------------------------------------------------------------

  datatype FunnelStage = Acquisition | Activation | Retention | Referral | Revenue

  datatype PropertyValue = Str(s: string) | Num(n: int) | Flag(b: bool)

  datatype AnalyticsEvent = AnalyticsEvent(name: string, stage: FunnelStage, properties: Option<map<string, PropertyValue>>)

  /** The module's `EVENT_QUEUE`. */
  class EventQueue {
    var events: seq<AnalyticsEvent>

    constructor()
      ensures events == []
    {
      events := [];
    }

    /** `trackEvent`: the event joins the end of the queue. */
    method TrackEvent(event: AnalyticsEvent)
      modifies this
      ensures events == old(events) + [event]
      ensures |events| == |old(events)| + 1 && events[|events| - 1] == event
    {
      events := events + [event];
    }
  }

  // ---------------------------------------------------------------------------
  // A/B tests
  // ---------------------------------------------------------------------------

  datatype ABTest = ABTest(id: string, name: string, variants: seq<string>, activeVariant: string, isActive: bool)

  const CONTROL: string := "control"

  /** `AB_TESTS`. */
  const AB_TESTS: seq<ABTest> := [
    ABTest("onboarding_flow", "온보딩 플로우 테스트", ["control", "short_flow", "video_intro"], "control", true),
    ABTest("paywall_design", "페이월 디자인 테스트", ["control", "comparison_table", "social_proof"], "control", true),
    ABTest("push_timing", "푸시 알림 시간 테스트", ["7am", "8am", "9am"], "7am", false)
  ]

  function HasId(testId: string): ABTest -> bool {
    (t: ABTest) => t.id == testId
  }

  /** `getVariant` over the test table `tests`: the first test with the id, if active, gives its variant. */
  function GetVariant(tests: seq<ABTest>, testId: string): string {
    var found := FindIndex(tests, HasId(testId));
    if found.None? || !tests[found.value].isActive then CONTROL else tests[found.value].activeVariant
  }

  /** The variant is the control for an unknown id or an inactive test, and the first matching test's otherwise. */
  lemma GetVariantSpec(tests: seq<ABTest>, testId: string)
    ensures (forall k :: 0 <= k < |tests| ==> tests[k].id != testId) ==> GetVariant(tests, testId) == CONTROL
    ensures forall k :: 0 <= k < |tests| && tests[k].id == testId && (forall j :: 0 <= j < k ==> tests[j].id != testId) ==>
      GetVariant(tests, testId) == if tests[k].isActive then tests[k].activeVariant else CONTROL
  {
    var found := FindIndex(tests, HasId(testId));
    forall k | 0 <= k < |tests| && tests[k].id == testId && (forall j :: 0 <= j < k ==> tests[j].id != testId)
      ensures found == Some(k)
    {
      assert HasId(testId)(tests[k]);
    }
    if forall k :: 0 <= k < |tests| ==> tests[k].id != testId {
      forall k | 0 <= k < |tests| ensures !HasId(testId)(tests[k]) { }
    }
  }

  /** In the test table every active variant is one of its test's variants, and the ids are distinct. */
  lemma ABTestsWellFormed()
    ensures forall k :: 0 <= k < |AB_TESTS| ==> AB_TESTS[k].activeVariant in AB_TESTS[k].variants
    ensures forall j, k :: 0 <= j < k < |AB_TESTS| ==> AB_TESTS[j].id != AB_TESTS[k].id
  {
  }

  /** So every variant handed out is the control or a declared variant of the test asked for. */
  lemma GetVariantDeclared(testId: string)
    ensures GetVariant(AB_TESTS, testId) == CONTROL
         || exists k :: 0 <= k < |AB_TESTS| && AB_TESTS[k].id == testId && GetVariant(AB_TESTS, testId) in AB_TESTS[k].variants
  {
    ABTestsWellFormed();
    var found := FindIndex(AB_TESTS, HasId(testId));
    if found.Some? && AB_TESTS[found.value].isActive {
      assert HasId(testId)(AB_TESTS[found.value]);
    }
  }
}
