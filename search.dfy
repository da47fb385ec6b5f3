/**
 * "Find Next" and "Replace Next" of the Find dialog: search the editor's text
 * for the first occurrence at or after the cursor's anchor, select it, and
 * optionally overwrite the selection with the replacement text.
 */
module Search {
  import opened Text

  /** Where a search leaves the editor: its text and the cursor's anchor and position. */
  datatype SearchOutcome =
    | NotFound
    | Found(content: string, anchor: nat, position: nat)

  function SearchText(content: string, anchor: nat, needle: string, replace: bool, replacement: string): (o: SearchOutcome)
    ensures o.NotFound? <==> forall k :: anchor <= k ==> !OccursAt(content, needle, k)
    // the match is the first one at or after the anchor
    ensures o.Found? ==> var k := Find(content, needle, anchor);
      anchor <= k && OccursAt(content, needle, k) &&
      (forall j :: anchor <= j < k ==> !OccursAt(content, needle, j))
    // Find Next selects the match, with the anchor at its end, where the next search starts
    ensures o.Found? && !replace ==>
      o.content == content && o.position <= o.anchor <= |content| &&
      o.position == Find(content, needle, anchor) && content[o.position..o.anchor] == needle
    // Replace Next overwrites the match and leaves the cursor just after the replacement
    ensures o.Found? && replace ==> var k := Find(content, needle, anchor);
      o.content == content[..k] + replacement + content[k + |needle|..] &&
      o.anchor == o.position == k + |replacement| &&
      o.content[k..o.position] == replacement
  {
    var index := Find(content, needle, anchor);
    if index == -1 then NotFound
    else
      var length := |needle|;
      if replace then
        Found(content[..index] + replacement + content[index + length..], index + |replacement|, index + |replacement|)
      else
        Found(content, index + length, index)
  }

  /** Repeating Find Next with a non-empty needle moves strictly forward through the text. */
  lemma FindNextAdvances(content: string, anchor: nat, needle: string)
    requires needle != []
    ensures var o := SearchText(content, anchor, needle, false, "");
      o.Found? ==> o.anchor > anchor && o.anchor >= o.position + 1
  {
  }

  /** An empty needle matches at the anchor itself, so Find Next stays where it is. */
  lemma EmptyNeedleStaysPut(content: string, anchor: nat)
    requires anchor <= |content|
    ensures SearchText(content, anchor, "", false, "") == Found(content, anchor, anchor)
  {
    assert OccursAt(content, "", anchor);
  }
}
