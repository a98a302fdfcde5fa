/** The onboarding popup: three steps walked through with Back and Next, the
    last step offering "Go to Map" instead of Next. */
module Onboarding {

  /** `steps.length`. */
  const StepCount: nat := 3

  /** The progress label `current + 1`. */
  function Label(current: nat): (r: nat)
    requires current < StepCount
    ensures 1 <= r <= StepCount
    ensures r - 1 == current
  {
    current + 1
  }

  /** The progress dots: dot `i` is highlighted exactly when `i == current`. */
  function ProgressDots(current: nat): (r: seq<bool>)
    requires current < StepCount
    ensures |r| == StepCount
    ensures r[current] && forall i :: 0 <= i < |r| && i != current ==> !r[i]
  {
    seq(StepCount, i requires 0 <= i < StepCount => i == current)
  }

  /** A button press of the popup. */
  datatype Press = Back | Next

  /** Where the popup is: on a step, or closed. */
  datatype Shown = Step(step: nat) | Closed

  /** The step shown after a press, or Closed once the popup asks to close: Back does
      nothing on the first step, and the button in Next's place closes on the last. */
  function StepAfter(current: nat, press: Press): (r: Shown)
    requires current < StepCount
    ensures r.Step? ==> r.step < StepCount
    ensures press == Back ==> r == Step(if current == 0 then 0 else current - 1)
    ensures press == Next ==> (r.Closed? <==> current == StepCount - 1)
    ensures press == Next && r.Step? ==> r.step == current + 1
  {
    match press
    case Back => Step(if current == 0 then current else current - 1)
    case Next => if current == StepCount - 1 then Closed else Step(current + 1)
  }

  /** The outcome of a run of presses from step `current`. */
  function Walk(current: nat, presses: seq<Press>): Shown
    requires current < StepCount
    decreases |presses|
  {
    if presses == [] then Step(current)
    else match StepAfter(current, presses[0])
      case Closed => Closed
      case Step(n) => Walk(n, presses[1..])
  }

  /** However the buttons are pressed, the popup is on a valid step or closed. */
  lemma {:induction false} WalkInBounds(current: nat, presses: seq<Press>)
    requires current < StepCount
    ensures Walk(current, presses).Step? ==> Walk(current, presses).step < StepCount
    decreases |presses|
  {
    if presses != [] {
      match StepAfter(current, presses[0])
      case Closed =>
      case Step(n) => WalkInBounds(n, presses[1..]);
    }
  }

  /** `k` presses of Next from step `current` land on step `current + k` while that is a
      step, and the next press after the last step closes the popup. */
  lemma {:induction false} NextRun(current: nat, k: nat)
    requires current < StepCount
    ensures current + k < StepCount ==> Walk(current, seq(k, _ => Next)) == Step(current + k)
    ensures current + k == StepCount ==> Walk(current, seq(k, _ => Next)) == Closed
    decreases k
  {
    if k > 0 {
      var presses := seq(k, _ => Next);
      assert presses[0] == Next;
      assert presses[1..] == seq(k - 1, _ => Next);
      if current < StepCount - 1 {
        NextRun(current + 1, k - 1);
      }
    }
  }

  /** From any step, a Back press undoes a Next press that did not close. */
  lemma BackUndoesNext(current: nat)
    requires current < StepCount - 1
    ensures Walk(current, [Next, Back]) == Step(current)
  {
    assert [Next, Back][1..] == [Back];
  }

  class OnboardingPopup {
    var current: nat
    /** Calls of `onClose`. */
    var closeRequests: nat

    predicate Valid()
      reads this`current
    {
      current < StepCount
    }

    predicate IsFirst()
      reads this`current
    {
      current == 0
    }

    predicate IsLast()
      reads this`current
    {
      current == StepCount - 1
    }

    /** `useState(0)`. */
    constructor ()
      ensures Valid() && current == 0 && closeRequests == 0
    {
      current := 0;
      closeRequests := 0;
    }

    /** The Back button: nothing on the first step, otherwise one step back. */
    method PressBack()
      requires Valid()
      modifies this`current
      ensures Valid()
      ensures Step(current) == StepAfter(old(current), Back)
      ensures old(IsFirst()) ==> current == old(current)
      ensures !old(IsFirst()) ==> current == old(current) - 1
    {
      if !IsFirst() {
        current := current - 1;
      }
    }

    /** The button in Next's place: Next moves one step on; on the last step it is
        "Go to Map", which closes. */
    method PressNext()
      requires Valid()
      modifies this`current, this`closeRequests
      ensures Valid()
      ensures old(IsLast()) ==> StepAfter(old(current), Next) == Closed
                                && current == old(current) && closeRequests == old(closeRequests) + 1
      ensures !old(IsLast()) ==> Step(current) == StepAfter(old(current), Next)
                                 && current == old(current) + 1 && closeRequests == old(closeRequests)
    {
      if IsLast() {
        closeRequests := closeRequests + 1;
      } else {
        current := current + 1;
      }
    }

    /** The close button and the backdrop: both call `onClose`. */
    method Close()
      modifies this`closeRequests
      ensures closeRequests == old(closeRequests) + 1
    {
      closeRequests := closeRequests + 1;
    }
  }
}
