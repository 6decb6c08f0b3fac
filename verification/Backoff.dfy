// The exponential backoff behind both wait loops (pkg/constants/const.go).
module Backoff {

  const INIT_DELAY: real := 1.0
  const FACTOR: real := 1.2
  const ACTIVE_STEPS: nat := 25
  const DELETE_STEPS: nat := 12
  const DELETION_TIMEOUT: real := 120.0
  const OPERATING_TIMEOUT: nat := 900

  function Power(x: real, n: nat): real {
    if n == 0 then 1.0 else x * Power(x, n - 1)
  }

  /** Time slept by a loop that polled `polls` times: one pause between two polls, each 6/5 of the last. */
  function Slept(polls: nat): real {
    if polls <= 1 then 0.0 else Slept(polls - 1) + INIT_DELAY * Power(FACTOR, polls - 2)
  }

  /** The geometric sum in closed form. */
  lemma {:induction false} SleptClosedForm(polls: nat)
    requires polls >= 1
    ensures Slept(polls) == 5.0 * (Power(6.0 / 5.0, polls - 1) - 1.0)
  {
    if polls > 1 {
      SleptClosedForm(polls - 1);
    }
  }

  lemma {:induction false} PowerMonotone(m: nat, n: nat)
    requires m <= n
    ensures 1.0 <= Power(FACTOR, m) <= Power(FACTOR, n)
  {
    if n > 0 {
      if m < n {
        PowerMonotone(m, n - 1);
      } else {
        PowerMonotone(m - 1, n - 1);
      }
    }
  }

  /** Waiting for ACTIVE stays below the operating timeout, waiting for a deletion below the deletion timeout. */
  lemma WaitsStayBelowTimeouts(polls: nat)
    requires polls >= 1
    ensures polls <= ACTIVE_STEPS ==> Slept(polls) < OPERATING_TIMEOUT as real
    ensures polls <= DELETE_STEPS ==> Slept(polls) < DELETION_TIMEOUT
  {
    SleptClosedForm(polls);
    assert Power(FACTOR, 4) == 2.0736;
    assert Power(FACTOR, 8) == 2.0736 * 2.0736;
    assert Power(FACTOR, 11) == 2.0736 * 2.0736 * 1.728;
    assert Power(FACTOR, 12) == 2.0736 * 2.0736 * 2.0736;
    assert Power(FACTOR, 16) == 2.0736 * 2.0736 * 2.0736 * 2.0736;
    assert Power(FACTOR, 20) < 40.0;
    assert Power(FACTOR, 24) < 81.0;
    if polls <= DELETE_STEPS {
      PowerMonotone(polls - 1, 11);
    } else if polls <= ACTIVE_STEPS {
      PowerMonotone(polls - 1, 24);
    }
    if polls <= ACTIVE_STEPS {
      PowerMonotone(polls - 1, 24);
    }
  }

  /** The backoff of one wait: how long it pauses next, how often it may still poll, how long it has slept. */
  datatype Timer = Timer(duration: real, steps: nat, slept: real) {

    /** After so many pauses. */
    ghost predicate At(pauses: nat) {
      duration == INIT_DELAY * Power(FACTOR, pauses) && slept == Slept(pauses + 1)
    }

    function Pause(ghost pauses: nat): (t: Timer)
      requires At(pauses) && steps > 0
      ensures t.At(pauses + 1) && t.steps == steps - 1
    {
      Timer(duration * FACTOR, steps - 1, slept + duration)
    }
  }

  function NewTimer(steps: nat): (t: Timer)
    ensures t.At(0) && t.steps == steps
  {
    Timer(INIT_DELAY, steps, 0.0)
  }
}
