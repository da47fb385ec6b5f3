/**
 * The background `track_input` gives every character typed into the editor:
 * green where it matches the training text at the same position, red
 * otherwise, including every character typed past the end of the sample.
 */
module EditorHighlight {
  import opened Mismatch
  import opened TrainingLabel

  datatype Mark = Green | Red

  /** `marks` is the editor's colouring of `input` against `sample`. */
  predicate Highlights(marks: seq<Mark>, input: string, sample: string) {
    |marks| == |input| &&
    forall i :: 0 <= i < |input| ==> (marks[i] == Green <==> i < |sample| && input[i] == sample[i])
  }

  /** The formatting loop of `track_input`, one mark per typed character. */
  method HighlightEditor(input: string, sample: string) returns (marks: seq<Mark>)
    ensures Highlights(marks, input, sample)
  {
    marks := [];
    var i := 0;
    while i < |input|
      invariant 0 <= i <= |input|
      invariant Highlights(marks, input[..i], sample)
    {
      if i < |sample| && input[i] == sample[i] {
        marks := marks + [Green];
      } else {
        marks := marks + [Red];
      }
      i := i + 1;
    }
    assert input[..|input|] == input;
  }

  function RedCount(marks: seq<Mark>): nat {
    if marks == [] then 0 else RedCount(marks[..|marks| - 1]) + (if marks[|marks| - 1] == Red then 1 else 0)
  }

  lemma {:induction false} RedPrefix(marks: seq<Mark>, input: string, sample: string, k: nat)
    requires Highlights(marks, input, sample) && k <= |input|
    ensures RedCount(marks[..k]) ==
            MismatchesBefore(input, sample, Min(k, |sample|)) + (if k > |sample| then k - |sample| else 0)
  {
    if k > 0 {
      RedPrefix(marks, input, sample, k - 1);
      assert marks[..k][..k - 1] == marks[..k - 1];
    }
  }

  /** The red characters in the editor are the counted mismatches plus everything typed past the sample. */
  lemma RedMarksCountErrors(marks: seq<Mark>, input: string, sample: string)
    requires Highlights(marks, input, sample)
    ensures RedCount(marks) == MismatchCount(input, sample) + (if |input| > |sample| then |input| - |sample| else 0)
  {
    RedPrefix(marks, input, sample, |input|);
    assert marks[..|input|] == marks;
  }

  /** Where both exist, the editor and the label agree on which characters are right. */
  lemma EditorAgreesWithLabel(marks: seq<Mark>, input: string, sample: string, maxWords: int)
    requires Highlights(marks, input, sample)
    ensures forall i :: 0 <= i < |input| && i < |sample| ==>
              (marks[i] == Green <==> Cells(sample, input, maxWords)[i].style == Correct)
  {
  }
}
