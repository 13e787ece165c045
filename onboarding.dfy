/** `hooks/useOnboarding.ts`: a guided tour that steps through a list, persists a "seen" key
    when dismissed, and starts by itself only while that key is absent. `localStorage` is a
    map field; the start delay, DOM measurement and scrolling are not modelled. */
module Onboarding {
  import opened PromptTypes

  datatype OnboardingStep = OnboardingStep(targetId: string, title: string, content: string)

  class Tour {
    const key: string
    const steps: seq<OnboardingStep>
    var isActive: bool
    var currentStepIndex: nat
    /** `localStorage` */
    var storage: map<string, string>

    /** The step index stays within the steps (or at 0 when there are none). */
    ghost predicate Valid()
      reads this
    {
      currentStepIndex == 0 || currentStepIndex < |steps|
    }

    /** `localStorage.getItem(key)` is truthy. */
    predicate Seen()
      reads this
    {
      key in storage && storage[key] != ""
    }

    /** The part of the state the tour's actions change: active, index, seen. */
    function State(): (bool, nat, bool)
      reads this
    {
      (isActive, currentStepIndex, Seen())
    }

    /** `currentStep`: `steps[currentStepIndex]`, undefined when there are no steps. */
    function CurrentStep(): (r: Option<OnboardingStep>)
      reads this
      requires Valid()
      ensures r.Some? <==> |steps| > 0
      ensures r.Some? ==> r.value == steps[currentStepIndex]
    {
      if |steps| > 0 then Some(steps[currentStepIndex]) else None
    }

    constructor (key: string, steps: seq<OnboardingStep>, storage: map<string, string>)
      ensures Valid() && this.key == key && this.steps == steps && this.storage == storage
      ensures !isActive && currentStepIndex == 0
    {
      this.key := key;
      this.steps := steps;
      this.storage := storage;
      isActive := false;
      currentStepIndex := 0;
    }

    /** `start`: the tour is active at its first step. */
    method Start()
      requires Valid()
      modifies this`isActive, this`currentStepIndex
      ensures Valid() && isActive && currentStepIndex == 0
      ensures State() == Step(|steps|, old(State()), StartAction)
    {
      isActive := true;
      currentStepIndex := 0;
    }

    /** `dismiss`: the tour ends and the seen-key is stored. */
    method Dismiss()
      requires Valid()
      modifies this`isActive, this`storage
      ensures Valid() && !isActive && Seen()
      ensures storage == old(storage)[key := "true"]
      ensures State() == Step(|steps|, old(State()), DismissAction)
    {
      isActive := false;
      storage := storage[key := "true"];
    }

    /** `next`: one step on, or a dismissal on the last step. */
    method Next()
      requires Valid()
      modifies this`isActive, this`currentStepIndex, this`storage
      ensures Valid()
      ensures old(currentStepIndex) < |steps| - 1 ==>
        currentStepIndex == old(currentStepIndex) + 1 && isActive == old(isActive)
        && storage == old(storage)
      ensures old(currentStepIndex) >= |steps| - 1 ==>
        currentStepIndex == old(currentStepIndex) && !isActive
        && storage == old(storage)[key := "true"]
      ensures old(Seen()) ==> Seen()
      ensures State() == Step(|steps|, old(State()), NextAction)
    {
      if currentStepIndex < |steps| - 1 {
        currentStepIndex := currentStepIndex + 1;
      } else {
        Dismiss();
      }
    }

    /** The first-visit check: start unless the seen-key is stored. */
    method AutoStart()
      requires Valid()
      modifies this`isActive, this`currentStepIndex
      ensures Valid()
      ensures Seen() ==> isActive == old(isActive) && currentStepIndex == old(currentStepIndex)
      ensures !Seen() ==> isActive && currentStepIndex == 0
    {
      if Seen() {
        return;
      }
      Start();
    }
  }

  datatype TourAction = StartAction | NextAction | DismissAction

  /** The tour after one action; the state is (active, index, seen). */
  function Step(steps: nat, s: (bool, nat, bool), a: TourAction): (bool, nat, bool) {
    match a
    case StartAction => (true, 0, s.2)
    case DismissAction => (false, s.1, true)
    case NextAction => if s.1 < steps - 1 then (s.0, s.1 + 1, s.2) else (false, s.1, true)
  }

  function Run(steps: nat, s: (bool, nat, bool), actions: seq<TourAction>): (bool, nat, bool)
    decreases actions
  {
    if actions == [] then s else Run(steps, Step(steps, s, actions[0]), actions[1..])
  }

  /** With at least one step, any sequence of start/next/dismiss keeps the index in range,
      and once the tour has been dismissed it stays seen. */
  lemma {:induction false} RunKeepsIndexInRange(steps: nat, s: (bool, nat, bool), actions: seq<TourAction>)
    requires steps > 0 && s.1 < steps
    ensures Run(steps, s, actions).1 < steps
    ensures s.2 ==> Run(steps, s, actions).2
    decreases actions
  {
    if actions != [] {
      RunKeepsIndexInRange(steps, Step(steps, s, actions[0]), actions[1..]);
    }
  }
}
