/**
 * The error measure of one keystroke: how many positions of the typed text
 * differ from the training text, compared pairwise over `zip(input, sample)`,
 * i.e. over the shorter of the two.
 */
module Mismatch {

  function Min(x: int, y: int): int {
    if x <= y then x else y
  }

  /** Differing positions among the first k pairs. */
  function MismatchesBefore(input: string, sample: string, k: nat): (n: nat)
    requires k <= |input| && k <= |sample|
    ensures n <= k
    ensures n == 0 <==> forall i :: 0 <= i < k ==> input[i] == sample[i]
  {
    if k == 0 then 0
    else MismatchesBefore(input, sample, k - 1) + (if input[k - 1] != sample[k - 1] then 1 else 0)
  }

  /** The `new_errors` of `track_input`. */
  function MismatchCount(input: string, sample: string): (n: nat)
    ensures n <= Min(|input|, |sample|)
    ensures n == 0 <==> forall i :: 0 <= i < |input| && i < |sample| ==> input[i] == sample[i]
  {
    MismatchesBefore(input, sample, Min(|input|, |sample|))
  }

  /** The positions the count counts. */
  ghost function MismatchIndices(input: string, sample: string, k: nat): set<nat>
    requires k <= |input| && k <= |sample|
  {
    set i: nat | i < k && input[i] != sample[i]
  }

  lemma {:induction false} MismatchesBeforeIsCardinality(input: string, sample: string, k: nat)
    requires k <= |input| && k <= |sample|
    ensures MismatchesBefore(input, sample, k) == |MismatchIndices(input, sample, k)|
  {
    if k == 0 {
      assert MismatchIndices(input, sample, 0) == {};
    } else {
      MismatchesBeforeIsCardinality(input, sample, k - 1);
      if input[k - 1] != sample[k - 1] {
        assert MismatchIndices(input, sample, k) == MismatchIndices(input, sample, k - 1) + {k - 1};
      } else {
        assert MismatchIndices(input, sample, k) == MismatchIndices(input, sample, k - 1);
      }
    }
  }

  /** The count is exactly the number of indices i < min(|input|, |sample|) with input[i] != sample[i]. */
  lemma MismatchCountIsCardinality(input: string, sample: string)
    ensures MismatchCount(input, sample) == |MismatchIndices(input, sample, Min(|input|, |sample|))|
  {
    MismatchesBeforeIsCardinality(input, sample, Min(|input|, |sample|));
  }

  /** The counting loop of `track_input`. */
  method CountMismatches(input: string, sample: string) returns (newErrors: nat)
    ensures newErrors == MismatchCount(input, sample)
  {
    newErrors := 0;
    var i := 0;
    while i < |input| && i < |sample|
      invariant 0 <= i <= Min(|input|, |sample|)
      invariant newErrors == MismatchesBefore(input, sample, i)
    {
      if input[i] != sample[i] {
        newErrors := newErrors + 1;
      }
      i := i + 1;
    }
  }
}
