/**
 * The typing-trainer session of the editor window. The training text is taken
 * from the editor, the editor is cleared, and from then on every change to the
 * editor's text runs the keystroke handler, which recolours the label, counts
 * mismatches, accumulates errors and ends the session once the text is typed
 * exactly. Stopping a session, by hand or by completing it, logs one record.
 *
 * The clock is a parameter `now` (whole seconds); the editor's text, the label's
 * rich text and the editor's character colouring are plain fields.
 */
module Session {
  import opened Text
  import opened Mismatch
  import opened ErrorTally
  import opened TrainingLabel
  import opened EditorHighlight
  import opened Statistics

  /** Longest training text `start_training` accepts. */
  const MaxSampleLength: int := 1500

  datatype StartOutcome = Started | EmptyText | TooLong

  /** What the end-of-session message box reports (words per minute left out). */
  datatype Report = Report(completed: bool, wordsTyped: nat, minutes: int, seconds: int, errors: nat)

  datatype StopOutcome = NotStarted | Stopped(report: Report)

  /** The status bar: the training line, or the plain word count. */
  datatype Status =
    | TrainingStatus(errors: nat, wordsLeft: int, minutes: int, seconds: int)
    | WordCountStatus(words: nat)

  /** `elapsed // 60` and `elapsed % 60` (Python floors; with a positive divisor that is Dafny's division). */
  function ElapsedSplit(elapsed: int): (ms: (int, int))
    ensures ms.0 * 60 + ms.1 == elapsed
    ensures 0 <= ms.1 < 60
  {
    (elapsed / 60, elapsed % 60)
  }

  class MainWindow {
    var trainingActive: bool
    var sampleText: string
    var errorCount: nat
    /** Mismatch count seen by the last keystroke; only the keystroke handler sets it. */
    var currentErrors: nat
    var statistics: seq<Record>
    var startTime: int
    /** The editor's plain text. */
    var editor: string
    /** The training label's rich text. */
    var labelText: string
    /** Colours the keystroke handler last gave the editor's characters; none outside a session. */
    var highlight: seq<Mark>

    /** An active session always trains on a non-empty, stripped text of at most 1500 characters;
        outside a session the editor carries no colours. */
    ghost predicate Valid()
      reads this
    {
      (trainingActive ==> 0 < |sampleText| <= MaxSampleLength && Strip(sampleText) == sampleText) &&
      (!trainingActive ==> highlight == [])
    }

    /** A fresh window, with the statistics log read from disk passed in as `loaded`. */
    constructor (loaded: seq<Record>)
      ensures Valid()
      ensures !trainingActive && sampleText == [] && editor == [] && labelText == [] && highlight == []
      ensures currentErrors == 0 && errorCount == 0 && statistics == loaded
    {
      trainingActive := false;
      sampleText := [];
      errorCount := 0;
      currentErrors := 0;
      statistics := loaded;
      startTime := 0;
      editor := [];
      labelText := [];
      highlight := [];
    }

    /** `update_statistics`: append one record to the log. */
    method UpdateStatistics(completed: bool, wordsTyped: nat, elapsedTime: int, errors: nat, now: int)
      modifies this`statistics
      ensures statistics == old(statistics) + [Record(completed, wordsTyped, elapsedTime, errors, now)]
    {
      statistics := statistics + [Record(completed, wordsTyped, elapsedTime, errors, now)];
    }

    /** `clear_statistics`: empty the log when the user confirms. */
    method ClearStatistics(confirmed: bool)
      modifies this`statistics
      ensures statistics == if confirmed then [] else old(statistics)
    {
      if confirmed {
        statistics := [];
      }
    }

    /** `reset_training`: uncolour the editor, put the training text back in it and clear the label. */
    method ResetTraining()
      modifies this`editor, this`labelText, this`highlight
      ensures editor == sampleText && labelText == [] && highlight == []
    {
      highlight := [];
      editor := [];
      labelText := [];
      editor := sampleText;
    }

    /** `stop_training`: refuse when no session runs; otherwise end it and log it. */
    method StopTraining(completed: bool, now: int) returns (outcome: StopOutcome)
      requires Valid()
      modifies this
      ensures Valid()
      ensures !old(trainingActive) ==> outcome == NotStarted && unchanged(this)
      ensures old(trainingActive) ==>
        var elapsed := now - startTime;
        var words := WordCount(old(editor));
        outcome == Stopped(Report(completed, words, ElapsedSplit(elapsed).0, ElapsedSplit(elapsed).1, errorCount)) &&
        !trainingActive && editor == sampleText && labelText == [] && highlight == [] &&
        statistics == old(statistics) + [Record(completed, words, elapsed, errorCount, now)] &&
        sampleText == old(sampleText) && startTime == old(startTime) &&
        errorCount == old(errorCount) && currentErrors == old(currentErrors)
    {
      if !trainingActive {
        return NotStarted;
      }
      var elapsedTime := now - startTime;
      var split := ElapsedSplit(elapsedTime);
      var wordsTyped := WordCount(editor);
      trainingActive := false;
      ResetTraining();
      UpdateStatistics(completed, wordsTyped, elapsedTime, errorCount, now);
      outcome := Stopped(Report(completed, wordsTyped, split.0, split.1, errorCount));
    }

    /** What one run of the keystroke handler did, relative to the state before the edit. */
    twostate predicate KeystrokeHandled(now: int)
      reads this
    {
      var input := editor;
      var sample := old(sampleText);
      var done := input == sample;
      sampleText == sample && startTime == old(startTime) &&
      currentErrors == MismatchCount(input, sample) &&
      errorCount == old(errorCount) + Rise(old(currentErrors), currentErrors) &&
      if done && old(trainingActive) then
        !trainingActive && labelText == [] && highlight == [] &&
        statistics == old(statistics) + [Record(true, WordCount(input), now - startTime, errorCount, now)]
      else
        trainingActive == old(trainingActive) && statistics == old(statistics) &&
        labelText == LabelHtml(sample, input, MaxWordsPerLine) &&
        (if done then highlight == old(highlight) else Highlights(highlight, input, sample))
    }

    /** `track_input`: the keystroke handler. It reads the editor's text, recolours the
        label, adds any rise in the mismatch count to `errorCount`, and either completes
        the session (the text is typed exactly) or recolours the editor. */
    method TrackInput(now: int)
      requires Valid() && trainingActive
      modifies this
      ensures Valid()
      ensures editor == old(editor)
      ensures KeystrokeHandled(now)
    {
      var input := editor;
      ScoreInput(input);
      if input == sampleText {
        var stopped := StopTraining(true, now);
        return;
      }
      highlight := HighlightEditor(input, sampleText);
    }

    /** The label and error bookkeeping of `track_input`: recolour the label for `input`,
        count its mismatches and add any rise over the previous keystroke's count to `errorCount`. */
    method ScoreInput(input: string)
      modifies this`labelText, this`errorCount, this`currentErrors
      ensures labelText == LabelHtml(sampleText, input, MaxWordsPerLine)
      ensures currentErrors == MismatchCount(input, sampleText)
      ensures errorCount == old(errorCount) + Rise(old(currentErrors), currentErrors)
    {
      // the handler renders the label three times over the same text; once gives the same result
      labelText := RenderLabel(sampleText, input, MaxWordsPerLine);
      var newErrors := CountMismatches(input, sampleText);
      if newErrors > currentErrors {
        errorCount := errorCount + (newErrors - currentErrors);
      }
      currentErrors := newErrors;
    }

    /** The editor's text changes; while a session runs, the keystroke handler is connected to that signal. */
    method EditText(text: string, now: int)
      requires Valid()
      modifies this
      ensures Valid()
      ensures editor == text
      ensures old(trainingActive) ==> KeystrokeHandled(now)
      ensures !old(trainingActive) ==>
        !trainingActive && sampleText == old(sampleText) && startTime == old(startTime) &&
        errorCount == old(errorCount) && currentErrors == old(currentErrors) &&
        statistics == old(statistics) && labelText == old(labelText) && highlight == old(highlight)
    {
      editor := text;
      if trainingActive {
        TrackInput(now);
      }
    }

    /** `start_training`: take the stripped editor text as the training text, refusing an
        empty or over-long one. */
    method StartTraining(now: int) returns (outcome: StartOutcome)
      requires Valid()
      modifies this
      ensures Valid()
      ensures var text := Strip(old(editor));
        outcome == (if text == [] then EmptyText else if |text| > MaxSampleLength then TooLong else Started)
      ensures outcome != Started ==> unchanged(this)
      ensures outcome == Started ==> sampleText == Strip(old(editor)) && SessionBegun(now)
    {
      var text := Strip(editor);
      if text == [] {
        return EmptyText;
      } else if |text| > MaxSampleLength {
        return TooLong;
      }
      StripIdempotent(editor);
      BeginSession(text, now);
      outcome := Started;
    }

    /** The state right after a session starts. `currentErrors` is left as it was, except
        that clearing the editor of a session already running runs the keystroke handler
        on "", which sets it to 0. */
    twostate predicate SessionBegun(now: int)
      reads this
    {
      editor == [] && trainingActive && errorCount == 0 && startTime == now &&
      statistics == old(statistics) &&
      labelText == LabelHtml(sampleText, [], MaxWordsPerLine) &&
      currentErrors == (if old(trainingActive) then 0 else old(currentErrors)) &&
      highlight == []
    }

    /** `editor.clear()`: an edit like any other, so a running session's keystroke handler
        sees "" and, the training text being non-empty, records zero mismatches. */
    method ClearEditor(now: int)
      requires Valid()
      modifies this
      ensures Valid()
      ensures editor == [] && trainingActive == old(trainingActive) && highlight == []
      ensures sampleText == old(sampleText) && startTime == old(startTime)
      ensures errorCount == old(errorCount) && statistics == old(statistics)
      ensures old(trainingActive) ==>
        currentErrors == 0 && labelText == LabelHtml(sampleText, [], MaxWordsPerLine)
      ensures !old(trainingActive) ==>
        currentErrors == old(currentErrors) && labelText == old(labelText)
    {
      EditText([], now);
    }

    /** The part of `start_training` after the text is accepted. */
    method BeginSession(text: string, now: int)
      requires Valid()
      requires 0 < |text| <= MaxSampleLength && Strip(text) == text
      modifies this
      ensures Valid()
      ensures sampleText == text && SessionBegun(now)
    {
      sampleText := text;
      ClearEditor(now);
      OpenSession(now);
    }

    /** The last steps of `start_training`: the label for no input, the clock, zero errors, active. */
    method OpenSession(now: int)
      modifies this`labelText, this`startTime, this`errorCount, this`trainingActive
      ensures labelText == LabelHtml(sampleText, [], MaxWordsPerLine)
      ensures startTime == now && errorCount == 0 && trainingActive
    {
      labelText := RenderLabel(sampleText, [], MaxWordsPerLine);
      startTime := now;
      errorCount := 0;
      trainingActive := true;
    }

    /** `update_word_count`: the status bar line. While training it shows the errors, the words
        left (not clamped: typing extra words makes it negative) and the elapsed time. */
    function StatusBar(now: int): (st: Status)
      reads this
      ensures st.TrainingStatus? <==> trainingActive && sampleText != []
      ensures st.TrainingStatus? ==>
        st.errors == errorCount && st.wordsLeft == WordCount(sampleText) - WordCount(editor) &&
        st.minutes * 60 + st.seconds == now - startTime && 0 <= st.seconds < 60
      ensures st.WordCountStatus? ==> st.words == WordCount(editor)
    {
      if trainingActive && sampleText != [] then
        var split := ElapsedSplit(now - startTime);
        TrainingStatus(errorCount, WordCount(sampleText) - WordCount(editor), split.0, split.1)
      else
        WordCountStatus(WordCount(editor))
    }
  }

  /** A session is under way with at least one word to type. */
  lemma ActiveSessionHasWords(w: MainWindow)
    requires w.Valid() && w.trainingActive
    ensures WordCount(w.sampleText) >= 1
  {
  }

  /** The stale `currentErrors` quirk, end to end: a first session stopped with two mismatches
      leaves a baseline of 2, so the next session's first mismatch adds no error. */
  method StaleBaselineScenario() returns (firstErrors: nat, secondErrors: nat)
    ensures firstErrors == 2 && secondErrors == 0
  {
    ScenarioTexts();
    var w;
    w, firstErrors := FirstSession();
    var started := w.StartTraining(3);
    assert w.trainingActive && w.sampleText == "ab" && w.currentErrors == 2 && w.errorCount == 0;
    w.EditText("xb", 4);
    secondErrors := w.errorCount;
  }

  /** The first session of the scenario: train on "ab", type "xy", stop by hand. */
  method FirstSession() returns (w: MainWindow, errors: nat)
    ensures fresh(w) && w.Valid() && !w.trainingActive
    ensures w.editor == "ab" && w.currentErrors == 2 && errors == 2
  {
    w := StartOnFreshWindow();
    TypeTwoMismatches(w);
    errors := w.errorCount;
    var stopped := w.StopTraining(false, 2);
  }

  /** Typing "xy" against the training text "ab" at time 1: two mismatches, both counted. */
  method TypeTwoMismatches(w: MainWindow)
    requires w.Valid() && w.trainingActive && w.sampleText == "ab"
    requires w.currentErrors == 0 && w.errorCount == 0
    modifies w
    ensures w.Valid() && w.trainingActive && w.sampleText == "ab"
    ensures w.currentErrors == 2 && w.errorCount == 2
  {
    ScenarioTexts();
    w.EditText("xy", 1);
  }

  /** A new window with "ab" typed into the editor, then Start Training at time 0. */
  method StartOnFreshWindow() returns (w: MainWindow)
    ensures fresh(w) && w.Valid() && w.trainingActive && w.sampleText == "ab"
    ensures w.currentErrors == 0 && w.errorCount == 0 && w.startTime == 0
  {
    ScenarioTexts();
    w := new MainWindow([]);
    w.EditText("ab", 0);
    var started := w.StartTraining(0);
  }

  lemma ScenarioTexts()
    ensures Strip("ab") == "ab"
    ensures MismatchCount("xy", "ab") == 2 && MismatchCount("xb", "ab") == 1
  {
    assert LeadLen("ab") == 0;
    assert TrailLen("ab") == 0;
  }
}
