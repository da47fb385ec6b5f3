/**
 * The three string builtins the typing trainer leans on: `str.strip()` (trimming
 * the training text), `len(str.split())` (counting words) and `str.find(sub, start)`
 * (the editor's Find dialog). Strings are sequences of Unicode scalar values, as
 * Python's `str` is a sequence of code points.
 */
module Text {

  /** Python's `str.isspace()` for one character: the separators that `strip()`
      and `split()` without arguments remove or split on. */
  predicate IsSpace(c: char) {
    c == ' ' || ('\t' <= c <= '\r') || ('\U{1c}' <= c <= '\U{1f}') ||
    c == '\U{85}' || c == '\U{a0}' || c == '\U{1680}' || ('\U{2000}' <= c <= '\U{200a}') ||
    c == '\U{2028}' || c == '\U{2029}' || c == '\U{202f}' || c == '\U{205f}' || c == '\U{3000}'
  }

  predicate AllSpace(s: string) {
    forall i :: 0 <= i < |s| ==> IsSpace(s[i])
  }

  /** Length of the run of whitespace at the front of `s`. */
  function LeadLen(s: string): (n: nat)
    ensures n <= |s|
    ensures forall i :: 0 <= i < n ==> IsSpace(s[i])
    ensures n < |s| ==> !IsSpace(s[n])
  {
    if s == [] || !IsSpace(s[0]) then 0 else 1 + LeadLen(s[1..])
  }

  /** Length of the run of whitespace at the back of `s`. */
  function TrailLen(s: string): (n: nat)
    ensures n <= |s|
    ensures forall i :: |s| - n <= i < |s| ==> IsSpace(s[i])
    ensures n < |s| ==> !IsSpace(s[|s| - 1 - n])
  {
    if s == [] || !IsSpace(s[|s| - 1]) then 0 else 1 + TrailLen(s[..|s| - 1])
  }

  /** `s.strip()`: `s` without its leading and trailing whitespace. */
  function Strip(s: string): (r: string)
    ensures |r| <= |s|
    ensures r == [] <==> AllSpace(s)
    ensures r != [] ==> !IsSpace(r[0]) && !IsSpace(r[|r| - 1])
    // r is the infix of s that starts after the leading whitespace, and what follows it is whitespace
    ensures LeadLen(s) + |r| <= |s| && r == s[LeadLen(s)..LeadLen(s) + |r|]
    ensures forall i :: LeadLen(s) + |r| <= i < |s| ==> IsSpace(s[i])
  {
    var lo := LeadLen(s);
    if lo == |s| then []
    else
      var n := TrailLen(s);
      assert !IsSpace(s[lo]);
      s[lo..|s| - n]
  }

  lemma StripIdempotent(s: string)
    ensures Strip(Strip(s)) == Strip(s)
  {
    var r := Strip(s);
    if r != [] {
      assert LeadLen(r) == 0;
      assert TrailLen(r) == 0;
      assert r[0..|r|] == r;
    }
  }

  /** A word of `s.split()` begins at index i. */
  predicate StartsWord(s: string, i: nat)
    requires i < |s|
  {
    !IsSpace(s[i]) && (i == 0 || IsSpace(s[i - 1]))
  }

  /** `len(s.split())`: the number of maximal runs of non-whitespace characters. */
  function WordCount(s: string): (n: nat)
    ensures n <= |s|
    ensures n == 0 <==> AllSpace(s)
  {
    if s == [] then 0
    else
      var init := s[..|s| - 1];
      assert forall i :: 0 <= i < |init| ==> init[i] == s[i];
      WordCount(init) + (if StartsWord(s, |s| - 1) then 1 else 0)
  }

  /** The indices below k where a word of `s.split()` begins. */
  ghost function WordStarts(s: string, k: nat): set<nat>
    requires k <= |s|
  {
    set i: nat | i < k && StartsWord(s, i)
  }

  lemma {:induction false} WordStartsPrefix(s: string, k: nat)
    requires k <= |s|
    ensures WordCount(s[..k]) == |WordStarts(s, k)|
  {
    if k > 0 {
      WordStartsPrefix(s, k - 1);
      WordCountStep(s, k);
      WordStartsStep(s, k);
    } else {
      assert WordStarts(s, 0) == {};
    }
  }

  lemma WordCountStep(s: string, k: nat)
    requires 0 < k <= |s|
    ensures WordCount(s[..k]) == WordCount(s[..k - 1]) + (if StartsWord(s, k - 1) then 1 else 0)
  {
    assert s[..k][..k - 1] == s[..k - 1];
    assert StartsWord(s[..k], k - 1) == StartsWord(s, k - 1);
  }

  lemma WordStartsStep(s: string, k: nat)
    requires 0 < k <= |s|
    ensures |WordStarts(s, k)| == |WordStarts(s, k - 1)| + (if StartsWord(s, k - 1) then 1 else 0)
  {
    if StartsWord(s, k - 1) {
      assert WordStarts(s, k) == WordStarts(s, k - 1) + {k - 1};
    } else {
      assert WordStarts(s, k) == WordStarts(s, k - 1);
    }
  }

  /** `len(s.split())` is the number of indices where a word begins. */
  lemma WordCountIsCardinality(s: string)
    ensures WordCount(s) == |WordStarts(s, |s|)|
  {
    WordStartsPrefix(s, |s|);
    assert s[..|s|] == s;
  }

  /** `needle` occurs in `content` starting at index k. */
  predicate OccursAt(content: string, needle: string, k: int) {
    0 <= k && k + |needle| <= |content| && content[k..k + |needle|] == needle
  }

  /** `content.find(needle, start)` for a non-negative start: the first index at or
      after `start` where `needle` occurs, or -1 when there is none. */
  function Find(content: string, needle: string, start: nat): (r: int)
    ensures r == -1 || (start <= r && OccursAt(content, needle, r))
    ensures r != -1 ==> forall k :: start <= k < r ==> !OccursAt(content, needle, k)
    ensures r == -1 <==> forall k :: start <= k ==> !OccursAt(content, needle, k)
    decreases |content| - start
  {
    if start + |needle| > |content| then -1
    else if content[start..start + |needle|] == needle then start
    else Find(content, needle, start + 1)
  }
}
