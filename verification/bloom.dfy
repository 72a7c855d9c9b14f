/**
 * The companion plant ("Bloom"): growth points decide the growth stage by
 * fixed thresholds, completing a routine feeds it, neglect degrades its
 * health, and three flags trigger the growth animations.
 */
module Bloom {
  import opened Types

  datatype BloomMood = Happy | Neutral | Sad | Excited | Sleepy

  /** `GROWTH_THRESHOLDS`: the growth points at which each stage 0..4 begins. */
  const GROWTH_THRESHOLDS: seq<int> := [0, 10, 30, 60, 100]
  const MAX_STAGE: nat := 4

  /** The health the companion starts with. */
  const INITIAL_HEALTH: int := 80
  /** The health gained per completed routine, before the cap. */
  const HEALTH_PER_ROUTINE: int := 3
  /** The moods a completed routine may put the companion in. */
  const HAPPY_MOODS: set<BloomMood> := {Happy, Excited}

  /** `calculateStage`: the largest stage whose threshold the points reach. */
  function CalculateStage(points: int): (stage: nat)
    ensures stage <= MAX_STAGE
    ensures stage == 0 || GROWTH_THRESHOLDS[stage] <= points
    ensures forall s :: stage < s <= MAX_STAGE ==> points < GROWTH_THRESHOLDS[s]
  {
    if points >= GROWTH_THRESHOLDS[4] then 4
    else if points >= GROWTH_THRESHOLDS[3] then 3
    else if points >= GROWTH_THRESHOLDS[2] then 2
    else if points >= GROWTH_THRESHOLDS[1] then 1
    else 0
  }

  /** More growth points never give a lower stage. */
  lemma CalculateStageMonotone(a: int, b: int)
    requires a <= b
    ensures CalculateStage(a) <= CalculateStage(b)
  {
  }

  /** Once the points reach a threshold, the stage is at least that threshold's stage. */
  lemma CalculateStageReaches(points: int, s: nat)
    requires s <= MAX_STAGE && GROWTH_THRESHOLDS[s] <= points
    ensures s <= CalculateStage(points)
  {
  }

  /** The state of `useBloomStore`. */
  class BloomStore {
    var name: string
    var species: string
    var growthStage: nat
    var growthPoints: int
    var waterDrops: int
    var sunlight: int
    var health: int
    var mood: BloomMood
    var isActive: bool
    var isGrowing: bool
    var showParticles: bool
    var showLevelUp: bool

    /** Health within [0, BLOOM_MAX_HEALTH] and the stage the points call for. */
    ghost predicate Valid()
      reads this
    {
      0 <= health <= BLOOM_MAX_HEALTH && growthStage == CalculateStage(growthPoints)
    }

    /** The initial state of the store. */
    constructor()
      ensures name == "Bloom" && species == "default"
      ensures growthStage == 0 && growthPoints == 0 && waterDrops == 0 && sunlight == 50
      ensures health == INITIAL_HEALTH && mood == Neutral && isActive
      ensures !isGrowing && !showParticles && !showLevelUp
      ensures Valid()
    {
      name := "Bloom";
      species := "default";
      growthStage := 0;
      growthPoints := 0;
      waterDrops := 0;
      sunlight := 50;
      health := INITIAL_HEALTH;
      mood := Neutral;
      isActive := true;
      isGrowing := false;
      showParticles := false;
      showLevelUp := false;
    }

    /**
     * `addGrowthPoints`: adds the points, recomputes the stage, starts the
     * growth animation and shows the level-up exactly when the stage rose.
     */
    method AddGrowthPoints(points: int)
      modifies this
      ensures growthPoints == old(growthPoints) + points
      ensures growthStage == CalculateStage(growthPoints)
      ensures isGrowing && showParticles
      ensures showLevelUp <==> growthStage > old(growthStage)
      ensures health == old(health) && waterDrops == old(waterDrops) && mood == old(mood)
      ensures name == old(name) && species == old(species) && sunlight == old(sunlight) && isActive == old(isActive)
      ensures old(Valid()) ==> Valid()
      ensures old(Valid()) && points >= 0 ==> growthStage >= old(growthStage)
    {
      var newPoints := growthPoints + points;
      var newStage := CalculateStage(newPoints);
      var leveledUp := newStage > growthStage;
      if points >= 0 {
        CalculateStageMonotone(growthPoints, newPoints);
      }
      growthPoints := newPoints;
      growthStage := newStage;
      isGrowing := true;
      showParticles := true;
      showLevelUp := leveledUp;
    }

    /**
     * `completeRoutine`: five growth points, two water drops, three health up
     * to the cap, a happy or excited mood (picked at random), and the growth
     * animation; the stage never drops.
     */
    method CompleteRoutine()
      modifies this
      ensures growthPoints == old(growthPoints) + BLOOM_GROWTH_PER_ROUTINE
      ensures waterDrops == old(waterDrops) + BLOOM_WATER_PER_ROUTINE
      ensures health == HealthAfterRoutine(old(health))
      ensures growthStage == CalculateStage(growthPoints)
      ensures mood in HAPPY_MOODS
      ensures isGrowing && showParticles
      ensures showLevelUp <==> growthStage > old(growthStage)
      ensures name == old(name) && species == old(species) && sunlight == old(sunlight) && isActive == old(isActive)
      ensures old(Valid()) ==> Valid() && growthStage >= old(growthStage)
    {
      var newPoints := growthPoints + BLOOM_GROWTH_PER_ROUTINE;
      var newWater := waterDrops + BLOOM_WATER_PER_ROUTINE;
      var newHealth := HealthAfterRoutine(health);
      var newStage := CalculateStage(newPoints);
      var leveledUp := newStage > growthStage;
      CalculateStageMonotone(growthPoints, newPoints);
      var newMood :| newMood in HAPPY_MOODS;
      growthPoints := newPoints;
      waterDrops := newWater;
      health := newHealth;
      growthStage := newStage;
      mood := newMood;
      isGrowing := true;
      showParticles := true;
      showLevelUp := leveledUp;
    }

    /** `updateMood`. */
    method UpdateMood(newMood: BloomMood)
      modifies this
      ensures mood == newMood
      ensures growthPoints == old(growthPoints) && growthStage == old(growthStage) && health == old(health)
      ensures waterDrops == old(waterDrops) && sunlight == old(sunlight) && isActive == old(isActive)
      ensures name == old(name) && species == old(species)
      ensures isGrowing == old(isGrowing) && showParticles == old(showParticles) && showLevelUp == old(showLevelUp)
      ensures old(Valid()) ==> Valid()
    {
      mood := newMood;
    }

    /**
     * `degradeHealth`: health drops by the amount, not below 0; the mood turns
     * sad below 30 and neutral below 60, and is kept otherwise.
     */
    method DegradeHealth(amount: int)
      modifies this
      ensures health == HealthAfterDegrade(old(health), amount)
      ensures mood == if health < 30 then Sad else if health < 60 then Neutral else old(mood)
      ensures growthPoints == old(growthPoints) && growthStage == old(growthStage) && waterDrops == old(waterDrops)
      ensures name == old(name) && species == old(species) && sunlight == old(sunlight) && isActive == old(isActive)
      ensures isGrowing == old(isGrowing) && showParticles == old(showParticles) && showLevelUp == old(showLevelUp)
      ensures old(Valid()) && amount >= 0 ==> Valid() && health <= old(health)
    {
      var newHealth := HealthAfterDegrade(health, amount);
      var newMood := if newHealth < 30 then Sad else if newHealth < 60 then Neutral else mood;
      health := newHealth;
      mood := newMood;
    }

    /** `resetAnimations`: clears the three animation flags and nothing else. */
    method ResetAnimations()
      modifies this
      ensures !isGrowing && !showParticles && !showLevelUp
      ensures growthPoints == old(growthPoints) && growthStage == old(growthStage) && health == old(health)
      ensures waterDrops == old(waterDrops) && sunlight == old(sunlight) && mood == old(mood)
      ensures name == old(name) && species == old(species) && isActive == old(isActive)
      ensures old(Valid()) ==> Valid()
    {
      isGrowing := false;
      showParticles := false;
      showLevelUp := false;
    }
  }

  /** `Math.min(health + 3, BLOOM_MAX_HEALTH)`: the health a completed routine leaves. */
  function HealthAfterRoutine(health: int): (h: int)
    ensures h <= BLOOM_MAX_HEALTH
    ensures health <= BLOOM_MAX_HEALTH - HEALTH_PER_ROUTINE ==> h == health + HEALTH_PER_ROUTINE
    ensures 0 <= health <= BLOOM_MAX_HEALTH ==> health <= h
  {
    if health + HEALTH_PER_ROUTINE < BLOOM_MAX_HEALTH then health + HEALTH_PER_ROUTINE else BLOOM_MAX_HEALTH
  }

  /** `Math.max(health - amount, 0)`: the health a degradation leaves. */
  function HealthAfterDegrade(health: int, amount: int): (h: int)
    ensures h >= 0
    ensures amount >= 0 ==> h <= health || h == 0
    ensures health - amount >= 0 ==> h == health - amount
  {
    if health - amount > 0 then health - amount else 0
  }

  /** A health-changing action: a completed routine, or a degradation by a non-negative amount. */
  datatype HealthStep = Completed | Degraded(amount: nat)

  /** The health after a sequence of actions, applied first to last. */
  function HealthAfter(health: int, steps: seq<HealthStep>): int {
    if steps == [] then health
    else
      var h := HealthAfter(health, steps[..|steps| - 1]);
      match steps[|steps| - 1]
      case Completed => HealthAfterRoutine(h)
      case Degraded(amount) => HealthAfterDegrade(h, amount)
  }

  /** From the initial health, any sequence of completions and degradations keeps health within [0, 100]. */
  lemma {:induction false} HealthStaysInRange(steps: seq<HealthStep>)
    ensures 0 <= HealthAfter(INITIAL_HEALTH, steps) <= BLOOM_MAX_HEALTH
  {
    if steps != [] {
      HealthStaysInRange(steps[..|steps| - 1]);
    }
  }
}
