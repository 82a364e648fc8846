/**
 * The page-wide cancellation flag (a `threading.Event`) and the "Generate"
 * handler that clears it and then runs the executor.
 *
 * The out-of-band "Cancel" action is the function `presses`: `presses(k)`
 * holds when the action ran after the flag was cleared and before the
 * checkpoint of attempt k. Since the flag is level-triggered, the
 * executor sees it set at checkpoint k exactly when some press happened
 * at or before k.
 */
module Cancellation {
  import opened Responses
  import opened Executor

  /** A level-triggered boolean signal: set stays set until cleared. */
  class CancelFlag {
    var isSet: bool

    /** A new event starts cleared. */
    constructor ()
      ensures !isSet
    {
      isSet := false;
    }

    /** What the "Cancel" button does. */
    method Set()
      modifies this
      ensures isSet
    {
      isSet := true;
    }

    /** What the "Generate" button does before each call. */
    method Clear()
      modifies this
      ensures !isSet
    {
      isSet := false;
    }

    method IsSet() returns (b: bool)
      ensures b == isSet
    {
      b := isSet;
    }
  }

  /** Some press happened at or before checkpoint `k`: the flag as seen there. */
  function PressedBy(presses: nat -> bool, k: nat): (b: bool)
    ensures b <==> exists j: nat :: j <= k && presses(j)
  {
    presses(k) || (k > 0 && PressedBy(presses, k - 1))
  }

  /**
   * The "Generate" handler: clear the flag, then run `generate_image` with
   * the default policy. A cancel pressed before the click (a stale set
   * flag) never cancels this call; only a press after the clear can, and
   * then no request follows the press.
   */
  method Generate(flag: CancelFlag, transport: nat -> Response, presses: nat -> bool) returns (run: Run)
    modifies flag
    ensures Explains(DefaultPolicy, transport, (k: nat) => PressedBy(presses, k), run)
    ensures run.requests <= DefaultPolicy.maxRetries
    ensures run.outcome.Cancelled? ==> PressedBy(presses, run.requests)
    ensures forall k :: 0 <= k < run.requests ==> !PressedBy(presses, k)
    ensures (forall j: nat :: !presses(j)) ==> !run.outcome.Cancelled?
  {
    flag.Clear();
    var stale := flag.IsSet();
    var seen := (k: nat) => stale || PressedBy(presses, k);
    run := GenerateImage(DefaultPolicy, transport, seen);
    assert forall k: nat :: seen(k) == PressedBy(presses, k);
    forall k | 0 <= k < run.requests
      ensures !PressedBy(presses, k)
    {
      if k < |run.sleeps| {
        assert RetriedAt(DefaultPolicy, transport, seen, k, run.sleeps[k], run.notices[k]);
      } else {
        assert !run.outcome.Cancelled? && !run.outcome.RetriesExhausted?;
        assert !seen(k);
      }
    }
  }
}
