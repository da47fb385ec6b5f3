# Typing trainer of the text editor, in Dafny

The editor window of this desktop text editor has a typing-training mode:
- The text in the editor is stripped and becomes the training text, the editor is cleared, and the user types the text back.
- On every keystroke the handler (`track_input`) does the following:
  - it recolours a rich-text label that shows the training text: green and red for typed characters, yellow for the next character, grey for the spaces still ahead, and a line break after every ten spaces;
  - it counts the positions where the typed text differs from the training text;
  - it adds any rise in that count to the session's error count;
  - it colours the editor's characters green or red;
  - it ends the session once the text has been typed exactly.

Stopping a session, by hand or by completing it, appends one record to the statistics log. The statistics dialog reports the log's totals. The status bar shows the words left, the errors and the elapsed time. The editor's Find dialog searches forward from the cursor and can replace the match.

The model has one module per concern:
- `Text`: Python's `str.strip()`, `len(str.split())` and `str.find()`, over Python's whitespace set.
- `Mismatch`: the mismatch count over `zip(input, sample)`, with the counting loop.
- `ErrorTally`: how per-keystroke mismatch counts accumulate into the error count.
- `TrainingLabel`: `update_training_label`, as the loop that builds the HTML text. It is proved equal to a definition built from one cell per character (style, character, line break before).
- `EditorHighlight`: the colouring loop of `track_input`.
- `Statistics`: the log records and the totals of the statistics dialog.
- `Search`: `searchText` (Find Next and Replace Next).
- `Session`: the class `MainWindow`, whose fields are those of the window that the session changes:
  - `training_active`, `sample_text`, `error_count`, `current_errors` and `statistics`;
  - the start time;
  - the editor's text, the label's text and the editor's colouring, which is empty outside a session.

  The editor's text is a field. `EditText` models a change to it. While a session runs, the `textChanged` signal is connected to `track_input`, so `EditText` then runs the keystroke handler. The clock is a parameter `now`, in whole seconds.

Some behaviour is followed exactly as the code does it:
- `current_errors` is not reset when a session starts. The next session's errors are therefore counted relative to the last mismatch count of the previous session. `Session.StaleBaselineScenario` shows two sessions in which a mismatch is not counted.
- There is one exception. Starting a session while one is already running clears the editor while the handler is connected. The handler then runs on the empty text and sets `current_errors` to 0. `SessionBegun` states both cases.
- `words_left` in the status bar is not clamped. It goes negative when more words are typed than the training text has.
- The label escapes only spaces and newlines. Other characters, `<` and `&` included, are put into the HTML as they are.

## Model

| member | source | states |
|---|---|---|
| Text.Strip | main_window.py:289 | the result has no leading or trailing whitespace. It is the infix of the input that starts after the leading whitespace, and only whitespace follows it. It is empty exactly when the input is all whitespace |
| Text.StripIdempotent | main_window.py:289 | stripping a stripped text changes nothing, so an accepted training text is its own strip |
| Text.WordCount | main_window.py:250 | `len(s.split())` is at most the length and is zero exactly when `s` is all whitespace |
| Text.WordCountIsCardinality | main_window.py:250 | `len(s.split())` is the number of indices where a non-whitespace character follows whitespace or the start of the text |
| Text.Find | main_window.py:515 | `content.find(needle, start)`: the first index at or after `start` where the needle occurs, and -1 exactly when there is none |
| Mismatch.MismatchCount | main_window.py:311-315 | the count is at most min(len(input), len(sample)), and zero exactly when the zipped prefix agrees |
| Mismatch.MismatchCountIsCardinality | main_window.py:311-315 | the count equals the number of indices i < min(len(input), len(sample)) with input[i] != sample[i] |
| Mismatch.CountMismatches | main_window.py:311-315 | the counting loop computes the mismatch count |
| ErrorTally.TallyMonotone | main_window.py:317-320 | over any sequence of keystrokes the error count never decreases |
| ErrorTally.TallyCoversEveryCount | main_window.py:317-320 | the errors added are at least how far any keystroke's mismatch count rose above the starting baseline |
| ErrorTally.TallySnoc | main_window.py:317-320 | one more keystroke adds exactly max(0, new count - previous count) |
| ErrorTally.StaleBaselineHidesErrors | main_window.py:317-320 | with a stale baseline of 3, a first mismatch adds nothing; with a baseline of 0 it adds one |
| TrainingLabel.StyleAt | main_window.py:271-285 | yellow exactly at index len(input); green or red exactly below it, green exactly where the characters match; grey exactly for spaces past the cursor |
| TrainingLabel.SpanStyle | main_window.py:271-285 | the colour branches produce the CSS of the character's style |
| TrainingLabel.CountSpace | main_window.py:265-269 | a space increments the counter; reaching `max_words_per_line` asks for a break before that space and resets the counter to 0 |
| TrainingLabel.RenderCharacter | main_window.py:264-285 | one iteration extends the label by the optional break and the span of the next character, and advances the counter |
| TrainingLabel.RenderLabel | main_window.py:261-286 | the loop's text is `<pre>`, then one span per sample character in order (each preceded by `<br>` where a break falls), then `</pre>` |
| TrainingLabel.WrongCellsAreMismatches | main_window.py:279-284 | the red characters of the label are exactly as many as the mismatches the handler counts |
| TrainingLabel.OneCursorWhileUnfinished | main_window.py:271-273 | there is one yellow character exactly while the input is shorter than the sample, otherwise none |
| TrainingLabel.BreakCount | main_window.py:264-269 | the space counter stays below `max_words_per_line`, and the label holds (number of spaces) div `max_words_per_line` breaks, whatever was typed |
| EditorHighlight.HighlightEditor | main_window.py:340-345 | typed character i is green exactly when i < len(sample) and it equals sample[i]; every other typed character, including every one past the sample, is red |
| EditorHighlight.RedMarksCountErrors | main_window.py:340-345 | the red characters are the counted mismatches plus every character typed past the sample |
| EditorHighlight.EditorAgreesWithLabel | main_window.py:340-345 | where both exist, the editor and the label agree on which characters are right |
| Statistics.CompletedCount | main_window.py:170 | the completed sessions are at most all sessions, and all of them exactly when every record is completed |
| Statistics.SumOfConcat | main_window.py:167-169 | a column total over a log split in two is the sum of the two totals |
| Statistics.SumOfNatColumns | main_window.py:167-169 | the total words and total errors are never negative |
| Statistics.Summarize | main_window.py:138-170 | no totals exactly for an empty log; otherwise the session count is the log length and the completed count is at most that |
| Statistics.SummarizeAppend | main_window.py:167-170 | logging one more session adds exactly that session to every total and one to the session count |
| Search.SearchText | main_window.py:509-530 | nothing is found exactly when the needle does not occur at or after the anchor. Otherwise the first such match is selected with the anchor at its end; with replacement, the match is overwritten and the cursor sits just after the replacement |
| Search.FindNextAdvances | main_window.py:514-526 | with a non-empty needle, Find Next moves the anchor strictly forward |
| Search.EmptyNeedleStaysPut | main_window.py:515 | an empty needle matches at the anchor, so Find Next stays where it is |
| Session.ElapsedSplit | main_window.py:224-226 | minutes * 60 + seconds is the elapsed time, and 0 <= seconds < 60 |
| Session.MainWindow.constructor | main_window.py:89 | no session, zero current errors, and the loaded log |
| Session.MainWindow.UpdateStatistics | main_window.py:130-133 | the log gains exactly one record at its end, carrying the arguments and the clock |
| Session.MainWindow.ClearStatistics | main_window.py:186-194 | the log is emptied exactly when the user confirms |
| Session.MainWindow.ResetTraining | main_window.py:196-210 | the editor holds the training text again, uncoloured, and the label is empty |
| Session.MainWindow.StopTraining | main_window.py:219-246 | with no session, nothing changes. Otherwise the session ends, the report carries the word count, the minutes/seconds split and the error count, and exactly one record with the given completed flag and the current error count is appended |
| Session.MainWindow.ScoreInput | main_window.py:309-322 | the label is the one for the typed text, `current_errors` becomes the new mismatch count, and `error_count` grows by exactly max(0, new - old `current_errors`) |
| Session.MainWindow.TrackInput | main_window.py:306-326 | the keystroke handler updates the label and both counters. It stops the session as completed (one record logged, highlight skipped) exactly when the input equals the training text, and otherwise colours the editor |
| Session.MainWindow.EditText | main_window.py:302 | the editor gets the new text; during a session the handler runs on it, otherwise nothing else changes |
| Session.MainWindow.ClearEditor | main_window.py:298 | clearing the editor runs the handler on "" during a session, which zeroes `current_errors`; otherwise only the editor changes. Either way the editor is left without colours |
| Session.MainWindow.OpenSession | main_window.py:299-303 | the label shows the training text with nothing typed, the start time is the clock, `error_count` is 0 and the session is active |
| Session.MainWindow.BeginSession | main_window.py:297-303 | the session starts on the given text with `error_count` 0, an empty editor and the label for no input, and keeps the log |
| Session.MainWindow.StartTraining | main_window.py:288-304 | an empty stripped text or one over 1500 characters is refused with nothing changed. Otherwise the stripped text becomes the training text and the session begins, with `current_errors` left as it was |
| Session.MainWindow.StatusBar | main_window.py:248-259 | during a session: the errors, the words left (unclamped) and the minutes/seconds split; otherwise the editor's word count |
| Session.ActiveSessionHasWords | main_window.py:289-295 | an active session's training text has at least one word |
| Session.StaleBaselineScenario | main_window.py:297-303 | a session stopped with two mismatches leaves `current_errors` at 2, so the next session's first mismatch adds no error |

## Left out

- Qt widgets, dialogs, message boxes, menus, toolbars, themes, the timer and the Find dialog's construction are left out. The model keeps only the values they show or hold.
- The JSON files for settings and statistics are left out. The log is an in-memory sequence passed to the constructor, and `show_statistics` is modelled as a summary of that sequence, without the reload from disk before it.
- The statistics plot is left out.
- The Wikipedia fetch, with its random choice and network retries, is left out.
- Opening, saving and printing files are left out, and so are the window title and word wrap.
- `time.time()` is modelled as the integer parameter `now`, in whole seconds. The source truncates a floating-point difference with `int(...)`, and the record's timestamp is a float.
- The words-per-minute figure of the report is floating-point and is left out.
- `error_count` is first assigned in `start_training`. The model initialises it to 0 in the constructor; it is only read while a session runs.
- Session.MainWindow.TrackInput: the handler renders the label three times over the same text. The model renders it once, which leaves the same label.
- Session.MainWindow.StartTraining: starting a session while one is running connects the handler a second time, so later keystrokes would run it twice. The model runs it once.
- EditorHighlight.HighlightEditor: the loop moves the Qt cursor one step right per typed code point, and a Qt cursor step covers a whole grapheme cluster: a base character with its combining marks, or a surrogate pair. For such text the source colours the cluster at step i by `user_input[i]`, so the colours shift against the characters. The model marks each code point by its own comparison.
- Search.SearchText: the selection is made with Qt cursor steps, which cover grapheme clusters, and Qt positions count UTF-16 code units. For text with combining sequences or characters outside the Basic Multilingual Plane, the source's selection and cursor differ from the code-point indices the model uses.
- The editor's undo history and its character formats other than the green and red backgrounds are left out.
