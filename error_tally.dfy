/**
 * How `track_input` turns per-keystroke mismatch counts into the session's
 * `error_count`: only an increase of the mismatch count over the previous
 * keystroke's (`current_errors`) is added, so fixing a typo never removes an
 * error and retyping the same wrong text never adds one twice.
 */
module ErrorTally {

  /** What one keystroke adds to `error_count`, given the previous and the new mismatch count. */
  function Rise(previous: nat, current: nat): nat {
    if current > previous then current - previous else 0
  }

  /** `error_count` after keystrokes whose mismatch counts are `counts`, starting from
      `errors` with `baseline` as the `current_errors` left by the previous keystroke. */
  function Tally(errors: nat, baseline: nat, counts: seq<nat>): nat
    decreases counts
  {
    if counts == [] then errors
    else Tally(errors + Rise(baseline, counts[0]), counts[0], counts[1..])
  }

  /** `error_count` never decreases. */
  lemma {:induction false} TallyMonotone(errors: nat, baseline: nat, counts: seq<nat>)
    ensures Tally(errors, baseline, counts) >= errors
    decreases counts
  {
    if counts != [] {
      TallyMonotone(errors + Rise(baseline, counts[0]), counts[0], counts[1..]);
    }
  }

  /** Every mismatch count reached during the run is covered: the errors added are at
      least how far any keystroke's mismatch count rose above the starting baseline. */
  lemma {:induction false} TallyCoversEveryCount(errors: nat, baseline: nat, counts: seq<nat>, j: nat)
    requires j < |counts|
    ensures Tally(errors, baseline, counts) >= errors + counts[j] - baseline
    decreases counts
  {
    var next := errors + Rise(baseline, counts[0]);
    if j == 0 {
      TallyMonotone(next, counts[0], counts[1..]);
    } else {
      TallyCoversEveryCount(next, counts[0], counts[1..], j - 1);
    }
  }

  /** Appending one more keystroke adds exactly its rise over the last count. */
  lemma {:induction false} TallySnoc(errors: nat, baseline: nat, counts: seq<nat>, c: nat)
    ensures Tally(errors, baseline, counts + [c]) ==
            Tally(errors, baseline, counts) + Rise(if counts == [] then baseline else counts[|counts| - 1], c)
    decreases counts
  {
    if counts != [] {
      assert (counts + [c])[1..] == counts[1..] + [c];
      TallySnoc(errors + Rise(baseline, counts[0]), counts[0], counts[1..], c);
    }
  }

  /** Example: `current_errors` is not reset when a session starts, so a stale baseline of 3
      from the previous session hides the new session's first mismatch, which a baseline of 0 counts. */
  lemma StaleBaselineHidesErrors()
    ensures Tally(0, 3, [1]) == 0
    ensures Tally(0, 0, [1]) == 1
  {
  }
}
