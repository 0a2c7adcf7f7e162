/**
  The analyzing screen's step list: a timer advances the active step one
  tick at a time until the last step, and then stops itself. Each step is
  drawn as complete, active or pending relative to the active step.
*/
module AnalyzingScreen {

  const STEPS: seq<string> := [
    "Reading bill contents...",
    "Identifying line items...",
    "Checking for overcharges...",
    "Analyzing hidden fees...",
    "Calculating potential savings..."]

  const LAST_STEP: int := |STEPS| - 1

  /** The state updater passed to `setActiveStep` on each tick: it never
      moves the step back, moves it by at most one, and leaves the step
      where it is exactly at or past the last step. */
  function Updater(prev: int): (next: int)
    ensures prev <= next <= prev + 1
    ensures next == prev <==> prev >= LAST_STEP
  {
    if prev >= LAST_STEP then prev else prev + 1
  }

  /** Whether the tick that sees `prev` clears the interval. */
  predicate StopsAt(prev: int) {
    prev >= LAST_STEP
  }

  /** The active step after `n` ticks from the initial step 0. */
  function AfterTicks(n: nat): int {
    if n == 0 then 0 else Updater(AfterTicks(n - 1))
  }

  /** After `n` ticks the active step is `n`, capped at the last step. */
  lemma {:induction false} AfterTicksSaturates(n: nat)
    ensures AfterTicks(n) == if n < LAST_STEP then n else LAST_STEP
  {
    if n > 0 {
      AfterTicksSaturates(n - 1);
    }
  }

  /** The active step stays within the list and never decreases. */
  lemma {:induction false} AfterTicksMonotone(m: nat, n: nat)
    requires m <= n
    ensures 0 <= AfterTicks(m) <= AfterTicks(n) <= LAST_STEP
  {
    AfterTicksSaturates(m);
    AfterTicksSaturates(n);
  }

  /** The screen's `activeStep` state and its interval. `ticks` counts the
      ticks that have fired. */
  class StepCounter {
    var activeStep: int
    var ticking: bool
    ghost var ticks: nat

    ghost predicate Valid()
      reads this
    {
      && activeStep == AfterTicks(ticks)
      && (ticking ==> ticks <= LAST_STEP)
    }

    /** Mounting: step 0, interval running. */
    constructor ()
      ensures Valid() && activeStep == 0 && ticking && ticks == 0
    {
      activeStep := 0;
      ticking := true;
      ticks := 0;
    }

    /** One firing of the interval: the updater runs, and the interval is
        cleared on the tick that finds the last step already active. */
    method Tick()
      requires Valid() && ticking
      modifies this
      ensures Valid()
      ensures activeStep == Updater(old(activeStep))
      ensures ticking == !StopsAt(old(activeStep))
      ensures ticks == old(ticks) + 1
      ensures 0 <= old(activeStep) <= activeStep <= LAST_STEP
    {
      AfterTicksSaturates(ticks);
      AfterTicksSaturates(ticks + 1);
      var prev := activeStep;
      if StopsAt(prev) {
        ticking := false;
        activeStep := prev;
      } else {
        activeStep := prev + 1;
      }
      ticks := ticks + 1;
    }

    /** Unmounting clears the interval. */
    method Unmount()
      requires Valid()
      modifies this
      ensures Valid() && !ticking && activeStep == old(activeStep) && ticks == old(ticks)
    {
      ticking := false;
    }
  }

  datatype StepState = Complete | Active | Pending

  /** How step `index` is drawn while `activeStep` is active: complete
      before it, active at it, pending after it. */
  function StepStateOf(index: int, activeStep: int): (st: StepState)
    ensures st == Complete <==> index < activeStep
    ensures st == Active <==> index == activeStep
    ensures st == Pending <==> index > activeStep
  {
    if index < activeStep then Complete else if index == activeStep then Active else Pending
  }

  /** While the active step is one of the list's, exactly that step is
      active, the ones before it are complete and the ones after it are
      pending. */
  lemma ExactlyOneActive(activeStep: int)
    requires 0 <= activeStep < |STEPS|
    ensures exists i :: 0 <= i < |STEPS| && StepStateOf(i, activeStep) == Active
    ensures forall i :: 0 <= i < |STEPS| ==> (StepStateOf(i, activeStep) == Active <==> i == activeStep)
    ensures forall i :: 0 <= i < |STEPS| ==> (StepStateOf(i, activeStep) == Complete <==> i < activeStep)
  {
    assert StepStateOf(activeStep, activeStep) == Active;
  }
}
