/**
 * The onboarding stepper: five screens walked forwards and backwards with
 * clamping at both ends, the name and goals the user enters, and the flag
 * that marks onboarding as done.
 */
module Onboarding {

  /** The screens of `ONBOARDING_STEPS`, in order. */
  datatype OnboardingStep = Welcome | Name | Goals | MeetBloom | Ready

  const ONBOARDING_STEPS: seq<OnboardingStep> := [Welcome, Name, Goals, MeetBloom, Ready]

  /** `TOTAL_ONBOARDING_STEPS`. */
  const TOTAL_ONBOARDING_STEPS: nat := |ONBOARDING_STEPS|

  /** `Math.min(step + 1, TOTAL_ONBOARDING_STEPS - 1)`. */
  function NextStepIndex(step: int): (next: int)
    ensures next <= TOTAL_ONBOARDING_STEPS - 1
    ensures step < TOTAL_ONBOARDING_STEPS - 1 ==> next == step + 1
    ensures step >= TOTAL_ONBOARDING_STEPS - 1 ==> next == TOTAL_ONBOARDING_STEPS - 1
  {
    if step + 1 < TOTAL_ONBOARDING_STEPS - 1 then step + 1 else TOTAL_ONBOARDING_STEPS - 1
  }

  /** `Math.max(step - 1, 0)`. */
  function PrevStepIndex(step: int): (prev: int)
    ensures prev >= 0
    ensures step > 0 ==> prev == step - 1
    ensures step <= 0 ==> prev == 0
  {
    if step - 1 > 0 then step - 1 else 0
  }

  /** Stepping back after stepping forward returns to the step, except from the last one. */
  lemma NextThenPrev(step: int)
    requires 0 <= step < TOTAL_ONBOARDING_STEPS - 1
    ensures PrevStepIndex(NextStepIndex(step)) == step
  {
  }

  /** Stepping forward after stepping back returns to the step, except from the first one. */
  lemma PrevThenNext(step: int)
    requires 0 < step <= TOTAL_ONBOARDING_STEPS - 1
    ensures NextStepIndex(PrevStepIndex(step)) == step
  {
  }

  /** The state of `useOnboardingStore`. */
  class OnboardingStore {
    var hasCompletedOnboarding: bool
    var currentStep: int
    var userName: string
    var selectedGoals: seq<string>

    /** The current step is a screen of the stepper. */
    ghost predicate Valid()
      reads this
    {
      0 <= currentStep < TOTAL_ONBOARDING_STEPS
    }

    /** The screen the current step shows. */
    function Screen(): OnboardingStep
      reads this
      requires Valid()
    {
      ONBOARDING_STEPS[currentStep]
    }

    constructor()
      ensures !hasCompletedOnboarding && currentStep == 0 && userName == "" && selectedGoals == []
      ensures Valid() && Screen() == Welcome
    {
      hasCompletedOnboarding := false;
      currentStep := 0;
      userName := "";
      selectedGoals := [];
    }

    method SetUserName(name: string)
      modifies this
      ensures userName == name
      ensures hasCompletedOnboarding == old(hasCompletedOnboarding) && currentStep == old(currentStep)
      ensures selectedGoals == old(selectedGoals)
    {
      userName := name;
    }

    method SetSelectedGoals(goals: seq<string>)
      modifies this
      ensures selectedGoals == goals
      ensures hasCompletedOnboarding == old(hasCompletedOnboarding) && currentStep == old(currentStep)
      ensures userName == old(userName)
    {
      selectedGoals := goals;
    }

    /** `nextStep`: one screen forward, staying on the last screen. */
    method NextStep()
      modifies this
      ensures currentStep == NextStepIndex(old(currentStep))
      ensures hasCompletedOnboarding == old(hasCompletedOnboarding) && userName == old(userName)
      ensures selectedGoals == old(selectedGoals)
      ensures old(Valid()) ==> Valid()
      ensures old(currentStep) == TOTAL_ONBOARDING_STEPS - 1 ==> currentStep == old(currentStep)
    {
      currentStep := NextStepIndex(currentStep);
    }

    /** `prevStep`: one screen back, staying on the first screen. */
    method PrevStep()
      modifies this
      ensures currentStep == PrevStepIndex(old(currentStep))
      ensures hasCompletedOnboarding == old(hasCompletedOnboarding) && userName == old(userName)
      ensures selectedGoals == old(selectedGoals)
      ensures old(Valid()) ==> Valid()
      ensures old(currentStep) == 0 ==> currentStep == 0
    {
      currentStep := PrevStepIndex(currentStep);
    }

    /** `completeOnboarding`: sets the flag and nothing else. */
    method CompleteOnboarding()
      modifies this
      ensures hasCompletedOnboarding
      ensures currentStep == old(currentStep) && userName == old(userName) && selectedGoals == old(selectedGoals)
    {
      hasCompletedOnboarding := true;
    }

    /** `resetOnboarding`: back to the initial state. */
    method ResetOnboarding()
      modifies this
      ensures !hasCompletedOnboarding && currentStep == 0 && userName == "" && selectedGoals == []
      ensures Valid() && Screen() == Welcome
    {
      hasCompletedOnboarding := false;
      currentStep := 0;
      userName := "";
      selectedGoals := [];
    }
  }

  /** A move of the stepper. */
  datatype Move = Forward | Back

  /** The step reached from `step` by the moves, first to last. */
  function StepAfter(step: int, moves: seq<Move>): int {
    if moves == [] then step
    else
      var s := StepAfter(step, moves[..|moves| - 1]);
      match moves[|moves| - 1]
      case Forward => NextStepIndex(s)
      case Back => PrevStepIndex(s)
  }

  /** From the first screen, any walk of the stepper stays within the five screens. */
  lemma {:induction false} StepStaysInRange(moves: seq<Move>)
    ensures 0 <= StepAfter(0, moves) < TOTAL_ONBOARDING_STEPS
  {
    if moves != [] {
      StepStaysInRange(moves[..|moves| - 1]);
    }
  }

  /** Enough forward moves reach the last screen from anywhere in the stepper. */
  lemma {:induction false} ForwardReachesReady(step: int, n: nat)
    requires 0 <= step < TOTAL_ONBOARDING_STEPS && n >= TOTAL_ONBOARDING_STEPS - 1 - step
    ensures StepAfter(step, seq(n, _ => Forward)) == TOTAL_ONBOARDING_STEPS - 1
  {
    if n > 0 {
      var moves := seq(n, _ => Forward);
      assert moves[..n - 1] == seq(n - 1, _ => Forward);
      if n - 1 >= TOTAL_ONBOARDING_STEPS - 1 - step {
        ForwardReachesReady(step, n - 1);
      } else {
        ForwardSteps(step, n - 1);
      }
    }
  }

  /** Fewer forward moves than screens ahead advance one screen each. */
  lemma {:induction false} ForwardSteps(step: int, n: nat)
    requires 0 <= step && step + n <= TOTAL_ONBOARDING_STEPS - 1
    ensures StepAfter(step, seq(n, _ => Forward)) == step + n
  {
    if n > 0 {
      assert seq(n, _ => Forward)[..n - 1] == seq(n - 1, _ => Forward);
      ForwardSteps(step, n - 1);
    }
  }
}
