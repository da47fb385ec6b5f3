/**
 * The rich-text label shown under the editor during training: the training text,
 * one coloured `<span>` per character, green where the typed character matches,
 * red where it does not, yellow on the next character to type, grey on the
 * spaces still ahead, and a `<br>` after every `max_words_per_line` spaces.
 */
module TrainingLabel {
  import opened Mismatch

  /** The default `max_words_per_line` every caller uses. */
  const MaxWordsPerLine: int := 10

  /** The five backgrounds a character can get. */
  datatype Style = Correct | Wrong | Cursor | PendingSpace | Pending

  /** One character of the label: its style, the character, and whether a line break precedes it. */
  datatype Cell = Cell(style: Style, ch: char, breakBefore: bool)

  /** The style of sample character i once `input` has been typed. */
  function StyleAt(sample: string, input: string, i: nat): (st: Style)
    requires i < |sample|
    ensures st == Cursor <==> i == |input|
    ensures (st == Correct || st == Wrong) <==> i < |input|
    ensures st == Correct <==> i < |input| && input[i] == sample[i]
    ensures st == PendingSpace <==> i > |input| && sample[i] == ' '
  {
    if i >= |input| then
      if i == |input| then Cursor
      else if sample[i] == ' ' then PendingSpace else Pending
    else if input[i] == sample[i] then Correct
    else Wrong
  }

  /** The loop's `word_count` once it has visited `sample[..k]`. */
  function SpaceCounter(sample: string, k: nat, maxWords: int): nat
    requires k <= |sample|
  {
    if k == 0 then 0
    else
      var c := SpaceCounter(sample, k - 1, maxWords);
      if sample[k - 1] == ' ' then (if c + 1 >= maxWords then 0 else c + 1) else c
  }

  /** A `<br>` is emitted just before the space that brings the counter to `maxWords`. */
  predicate BreakBefore(sample: string, i: nat, maxWords: int)
    requires i < |sample|
  {
    sample[i] == ' ' && SpaceCounter(sample, i, maxWords) + 1 >= maxWords
  }

  /** The label cell of sample character i. */
  function CellAt(sample: string, input: string, maxWords: int, i: nat): Cell
    requires i < |sample|
  {
    Cell(StyleAt(sample, input, i), sample[i], BreakBefore(sample, i, maxWords))
  }

  /** The label as cells, one per sample character, in order. */
  function Cells(sample: string, input: string, maxWords: int): seq<Cell> {
    seq(|sample|, i requires 0 <= i < |sample| => CellAt(sample, input, maxWords, i))
  }

  function Css(st: Style): string {
    match st
    case Correct => "background-color: green;"
    case Wrong => "background-color: red;"
    case Cursor => "background-color: rgba(255, 255, 0, 0.5);"
    case PendingSpace => "background-color: rgba(128, 128, 128, 0.3);"
    case Pending => ""
  }

  /** A space becomes `&nbsp;` and a newline `<br>`; nothing else is escaped. */
  function Escape(c: char): string {
    if c == ' ' then "&nbsp;" else if c == '\n' then "<br>" else [c]
  }

  function SpanHtml(css: string, c: char): string {
    "<span style='" + css + "'>" + Escape(c) + "</span>"
  }

  function CellHtml(c: Cell): string {
    (if c.breakBefore then "<br>" else "") + SpanHtml(Css(c.style), c.ch)
  }

  /** The html of the first k cells, one after the other. */
  function Body(sample: string, input: string, maxWords: int, k: nat): string
    requires k <= |sample|
  {
    if k == 0 then "" else Body(sample, input, maxWords, k - 1) + CellHtml(CellAt(sample, input, maxWords, k - 1))
  }

  /** The exact text `update_training_label` gives the label. */
  function LabelHtml(sample: string, input: string, maxWords: int): string {
    "<pre>" + Body(sample, input, maxWords, |sample|) + "</pre>"
  }

  /** `update_training_label`: one pass over the sample, appending to the html text. */
  method RenderLabel(sample: string, input: string, maxWords: int) returns (html: string)
    ensures html == LabelHtml(sample, input, maxWords)
  {
    html := "<pre>";
    var wordCount: nat := 0;
    var i := 0;
    while i < |sample|
      invariant 0 <= i <= |sample|
      invariant wordCount == SpaceCounter(sample, i, maxWords)
      invariant html == "<pre>" + Body(sample, input, maxWords, i)
    {
      wordCount, html := RenderCharacter(sample, input, maxWords, i, wordCount, html);
      i := i + 1;
    }
    html := html + "</pre>";
  }

  /** One iteration of the loop of `update_training_label`: the counter step, the
      optional line break, then the character's span. */
  method RenderCharacter(sample: string, input: string, maxWords: int, i: nat, wordCount: nat, html: string)
    returns (newCount: nat, newHtml: string)
    requires i < |sample|
    requires wordCount == SpaceCounter(sample, i, maxWords)
    requires html == "<pre>" + Body(sample, input, maxWords, i)
    ensures newCount == SpaceCounter(sample, i + 1, maxWords)
    ensures newHtml == "<pre>" + Body(sample, input, maxWords, i + 1)
  {
    var ch := sample[i];
    var lineBreak;
    newCount, lineBreak := CountSpace(sample, i, maxWords, wordCount);
    newHtml := html;
    if lineBreak {
      newHtml := newHtml + "<br>";
    }
    var css := SpanStyle(sample, input, i);
    var span := "<span style='" + css + "'>" + Escape(ch) + "</span>";
    BodyStep(sample, input, maxWords, i, html, newHtml, span);
    newHtml := newHtml + span;
  }

  /** The word counter of `update_training_label` at sample character i: a space
      increments it, and reaching `maxWords` asks for a line break and resets it. */
  method CountSpace(sample: string, i: nat, maxWords: int, wordCount: nat) returns (newCount: nat, lineBreak: bool)
    requires i < |sample| && wordCount == SpaceCounter(sample, i, maxWords)
    ensures newCount == SpaceCounter(sample, i + 1, maxWords)
    ensures lineBreak == BreakBefore(sample, i, maxWords)
  {
    newCount, lineBreak := wordCount, false;
    if sample[i] == ' ' {
      newCount := newCount + 1;
      if newCount >= maxWords {
        lineBreak := true;
        newCount := 0;
      }
    }
  }

  /** The colour branch of `update_training_label` for sample character i. */
  method SpanStyle(sample: string, input: string, i: nat) returns (css: string)
    requires i < |sample|
    ensures css == Css(StyleAt(sample, input, i))
  {
    var ch := sample[i];
    if i >= |input| {
      if i == |input| {
        css := "background-color: rgba(255, 255, 0, 0.5);";
      } else {
        css := if ch == ' ' then "background-color: rgba(128, 128, 128, 0.3);" else "";
      }
    } else if input[i] == ch {
      css := "background-color: green;";
    } else {
      css := "background-color: red;";
    }
  }

  lemma BodyStep(sample: string, input: string, maxWords: int, i: nat, before: string, html: string, span: string)
    requires i < |sample|
    requires before == "<pre>" + Body(sample, input, maxWords, i)
    requires html == if BreakBefore(sample, i, maxWords) then before + "<br>" else before
    requires span == SpanHtml(Css(StyleAt(sample, input, i)), sample[i])
    ensures html + span == "<pre>" + Body(sample, input, maxWords, i + 1)
  {
    var lineBreak := if BreakBefore(sample, i, maxWords) then "<br>" else "";
    assert html == before + lineBreak;
    Associative("<pre>", Body(sample, input, maxWords, i), lineBreak, span);
  }

  lemma Associative(a: string, b: string, c: string, d: string)
    ensures a + b + c + d == a + (b + (c + d))
  {
  }

  /** Cells with a given style. */
  function CountStyle(cells: seq<Cell>, st: Style): nat {
    if cells == [] then 0
    else CountStyle(cells[..|cells| - 1], st) + (if cells[|cells| - 1].style == st then 1 else 0)
  }

  function CountBreaks(cells: seq<Cell>): nat {
    if cells == [] then 0
    else CountBreaks(cells[..|cells| - 1]) + (if cells[|cells| - 1].breakBefore then 1 else 0)
  }

  function CountSpaces(s: string): nat {
    if s == [] then 0
    else CountSpaces(s[..|s| - 1]) + (if s[|s| - 1] == ' ' then 1 else 0)
  }

  lemma {:induction false} WrongCellsPrefix(sample: string, input: string, maxWords: int, k: nat)
    requires k <= |sample|
    ensures CountStyle(Cells(sample, input, maxWords)[..k], Wrong) ==
            MismatchesBefore(input, sample, Min(k, |input|))
  {
    var cells := Cells(sample, input, maxWords);
    if k > 0 {
      WrongCellsPrefix(sample, input, maxWords, k - 1);
      assert cells[..k][..k - 1] == cells[..k - 1];
    }
  }

  /** The red characters of the label are exactly the mismatches `track_input` counts. */
  lemma WrongCellsAreMismatches(sample: string, input: string, maxWords: int)
    ensures CountStyle(Cells(sample, input, maxWords), Wrong) == MismatchCount(input, sample)
  {
    WrongCellsPrefix(sample, input, maxWords, |sample|);
    assert Cells(sample, input, maxWords)[..|sample|] == Cells(sample, input, maxWords);
  }

  lemma {:induction false} CursorCellsPrefix(sample: string, input: string, maxWords: int, k: nat)
    requires k <= |sample|
    ensures CountStyle(Cells(sample, input, maxWords)[..k], Cursor) == (if |input| < k then 1 else 0)
  {
    var cells := Cells(sample, input, maxWords);
    if k > 0 {
      CursorCellsPrefix(sample, input, maxWords, k - 1);
      assert cells[..k][..k - 1] == cells[..k - 1];
    }
  }

  /** There is one yellow character exactly while the input is shorter than the sample. */
  lemma OneCursorWhileUnfinished(sample: string, input: string, maxWords: int)
    ensures CountStyle(Cells(sample, input, maxWords), Cursor) == (if |input| < |sample| then 1 else 0)
  {
    CursorCellsPrefix(sample, input, maxWords, |sample|);
    assert Cells(sample, input, maxWords)[..|sample|] == Cells(sample, input, maxWords);
  }

  lemma {:induction false} BreaksPrefix(sample: string, maxWords: int, k: nat)
    requires maxWords >= 1 && k <= |sample|
    ensures SpaceCounter(sample, k, maxWords) < maxWords
    ensures CountBreaks(Cells(sample, "", maxWords)[..k]) * maxWords + SpaceCounter(sample, k, maxWords)
            == CountSpaces(sample[..k])
  {
    var cells := Cells(sample, "", maxWords);
    if k > 0 {
      BreaksPrefix(sample, maxWords, k - 1);
      assert cells[..k][..k - 1] == cells[..k - 1];
      assert sample[..k][..k - 1] == sample[..k - 1];
      var b := CountBreaks(cells[..k - 1]);
      if cells[k - 1].breakBefore {
        assert CountBreaks(cells[..k]) == b + 1;
        assert (b + 1) * maxWords == b * maxWords + maxWords;
      }
    }
  }

  /** Breaks depend only on the sample, not on what was typed. */
  lemma {:induction false} BreaksIgnoreInput(sample: string, input: string, maxWords: int, k: nat)
    requires k <= |sample|
    ensures CountBreaks(Cells(sample, input, maxWords)[..k]) == CountBreaks(Cells(sample, "", maxWords)[..k])
  {
    if k > 0 {
      BreaksIgnoreInput(sample, input, maxWords, k - 1);
      assert Cells(sample, input, maxWords)[..k][..k - 1] == Cells(sample, input, maxWords)[..k - 1];
      assert Cells(sample, "", maxWords)[..k][..k - 1] == Cells(sample, "", maxWords)[..k - 1];
    }
  }

  /** The space counter stays below `max_words_per_line`, and the label holds
      (number of spaces) div `max_words_per_line` line breaks. */
  lemma BreakCount(sample: string, input: string, maxWords: int)
    requires maxWords >= 1
    ensures SpaceCounter(sample, |sample|, maxWords) < maxWords
    ensures CountBreaks(Cells(sample, input, maxWords)) == CountSpaces(sample) / maxWords
  {
    BreaksPrefix(sample, maxWords, |sample|);
    BreaksIgnoreInput(sample, input, maxWords, |sample|);
    assert Cells(sample, input, maxWords)[..|sample|] == Cells(sample, input, maxWords);
    assert Cells(sample, "", maxWords)[..|sample|] == Cells(sample, "", maxWords);
    assert sample[..|sample|] == sample;
    var b := CountBreaks(Cells(sample, input, maxWords));
    var c := SpaceCounter(sample, |sample|, maxWords);
    DivUnique(CountSpaces(sample), maxWords, b, c);
  }

  lemma DivUnique(n: nat, d: int, q: nat, r: nat)
    requires d >= 1 && q * d + r == n && r < d
    ensures q == n / d
  {
    var q0, r0 := n / d, n % d;
    assert q0 * d + r0 == n && 0 <= r0 < d;
    if q < q0 {
      assert (q + 1) * d == q * d + d;
      MulMonotone(q + 1, q0, d);
    } else if q > q0 {
      MulMonotone(q0 + 1, q, d);
    }
  }

  lemma MulMonotone(a: int, b: int, d: int)
    requires a <= b && d >= 0
    ensures a * d <= b * d
  {
    assert b * d - a * d == (b - a) * d;
  }
}
