# Typing speed test: the session model

The program is a one-window typing-speed test. It shows a paragraph of 180
words drawn at random from a list of common English words and paints the
current word red. It starts a timer at the first key press. Every press of the
space key checks the typed word against the current word and moves on to the
next word. It reports the number of correctly typed words (shown as "Word Per
Minute") and the percentage of submitted words that were correct. The report
comes when the timer passes one minute or when the paragraph runs out.

This project models that session logic with the window toolkit taken away:

- `Text` (`text.dfy`): Python's `str.strip()` and `" ".join(...)` as
  functions over `seq<char>`. Whitespace is the set of characters Python's
  `str.isspace` accepts.
- `Prompt` (`prompt.dfy`): `get_paragraph`, a loop that appends 180 random
  choices. The random choices are an input: the index `random.choice` picked
  on each round.
- `Display` (`display.dfy`): what the prompt widget shows. This is the joined
  paragraph with the first word tagged (at start-up and on reset), or the
  text `move_cursor` assembles, with the range of the red tag.
- `Session` (`session.dfy`): the `App` class with its counters as a Dafny
  class. `Valid()` is its invariant. The methods are `StartTimer`,
  `UpdateTimer`, `CheckWord` and `Reset`, plus the constructor. The key
  bindings become a phase. In `Idle`, any key starts the timer. In
  `Running`, the space key checks a word and the timer re-arms every second.
  In `Finished`, the message box has been shown and no key is bound.
  `Finished` carries the end reason and the reported score.

What the proofs establish:
- A submission counts as correct exactly when the stripped typed text equals
  the current word. The length test and the counting loop in `check_word`
  together amount to string equality.
- Every check advances the cursor by exactly one, and the correct counter
  grows by at most one.
- `0 <= total_correct_typed <= n` holds at all times. The accuracy is defined
  whenever `n > 0`, lies in [0, 100], and is 100 exactly when every word was
  right.
- The test ends out of words exactly when `n` passes `n_max`, which is after
  exactly 180 submissions. It then reports the number of submissions that
  matched their word.
- The timer keeps going through 60 whole elapsed seconds and ends at 61.
- The red tag of `move_cursor` covers exactly the space before the current
  word and the stripped word itself. For a paragraph of trimmed words, the
  rebuilt text is the original paragraph, with one extra trailing space when
  the cursor is on the last word.
- `reset` zeroes the cursor and the counter, re-tags the first word of a
  fresh 180-word paragraph, and keeps the last accuracy and `n_max`.

Where the code and its design description differ, the model follows the
code:
- The description has the test end when the elapsed time reaches the
  duration. The code compares `passed_time * 1000 <= duration`, so with whole
  seconds the test still runs at 60 seconds and ends at 61.
- The description has reset clear all counters. `reset` does not touch
  `percent_accuracy`. After a reset, a test in which no word is submitted
  before time runs out reports the previous test's accuracy.
- The description has the duration and prompt length configurable. The code
  fixes them at 60000 ms and 180 words (`Session.Duration`,
  `Prompt.ParagraphLength`).
- The description wants calls out of phase to fail with an error. In the code
  they cannot happen, because the handler is not bound. The methods require
  the phase in which their event is delivered.

## Model

| member | source | states |
|---|---|---|
| Text.Strip | app2.py:153 | `strip()` returns a slice of its argument with no whitespace at either end, and only whitespace before and after the slice |
| Text.StripOfPadded | app2.py:153 | conversely, a trimmed word with any whitespace around it strips to that word, so the decomposition is unique |
| Text.JoinAppend | app2.py:191-194 | joining two non-empty word lists equals joining each and putting one space between them |
| Text.JoinLength | app2.py:197 | the joined text is as long as all the words together plus one separator between each two neighbours |
| Prompt.GetParagraph | app2.py:13-23 | the paragraph has exactly 180 words, each one the word list's element at the index picked in its round, hence a member of the word list |
| Display.InitialLayout | app2.py:88-92 | the start-up text is the joined paragraph; the tag starts at 0, ends at `len(words[0].strip())` within the text, and covers exactly the first word when that word is trimmed |
| Display.MoveCursorTagsCurrentWord | app2.py:188-212 | the tag `[z, z+y+1)` covers exactly `" " + current_word`; before it stand the joined earlier words, after it a space and the joined later words |
| Display.MoveCursorKeepsParagraph | app2.py:188-209 | for a trimmed current word other than the first, the rebuilt text equals the joined paragraph (plus one trailing space at the last word), and the tag starts at the length of the joined earlier words |
| Session.MatchCountFull | app2.py:157-164 | the `correct` counter never exceeds the number of positions compared, and it equals that number exactly when the compared prefixes are equal |
| Session.IsTypedCorrectly | app2.py:156-165 | the length test followed by the counting loop accepts exactly when the typed text equals the word |
| Session.Accuracy | app2.py:170-171 | correct over submitted, times 100, lies in [0, 100]; it is 100 exactly when all were correct and 0 exactly when none were |
| Session.TimerContinues | app2.py:129-134 | with whole elapsed seconds, the test goes on exactly while at most 60 seconds have passed |
| Session.App.constructor | app2.py:50-92 | a fresh 180-word paragraph from the picks, cursor and counters at zero, accuracy 0, timer label 0, first word tagged, phase Idle |
| Session.App.StartTimer | app2.py:113-122 | the first key press moves Idle to Running and shows 0 seconds; nothing else changes |
| Session.App.UpdateTimer | app2.py:124-145 | while the elapsed seconds are at most the duration the label shows them and the test runs on; otherwise the test ends with a time-up report of the current count and accuracy |
| Session.App.CheckWord | app2.py:147-180 | the cursor advances by one; the count grows by one exactly when the stripped typed text equals the current word; accuracy is recomputed; the invariant `total <= n` and the accuracy bounds hold; the next word is highlighted, or after the last word the test ends with an out-of-words report |
| Session.App.Reset | app2.py:218-256 | back to Idle with cursor, count and timer at zero and a fresh 180-word paragraph with its first word tagged; accuracy and `n_max` keep their values |
| Session.CorrectCountBound | app2.py:157-168 | over a run of stripped submissions, the correct count is at most the number of submissions, and equal to it exactly when every submission equals its word |
| Session.TypeParagraph | app2.py:65-180 | pressing space once per word, a running test stays running until the last word and then ends out of words, with `n == len(words)` and the count equal to the number of submissions whose stripped text equals their word |

## Left out

- Window, widgets, fonts, colours, the stylesheet and the icon (`Label`, `Text`, `Entry`, `Button`, `TkThemeLoader`, `resource_path`): presentation only. Their effect is modelled as the phase, the timer label value and the text and tag range of the prompt widget.
- Key binding and unbinding: modelled as the phase that decides which handler a key press reaches. Events that reach no handler are not modelled, so each method requires the phase in which its event is delivered.
- `self.after` / `after_cancel` scheduling: the event loop is the caller. `UpdateTimer` is one timer tick, and the `Running` phase stands for a tick being scheduled.
- `time.time()` and the `round` of the elapsed time: a wall clock read and float rounding. `UpdateTimer` takes the rounded whole seconds as input, and `start_time` is not kept.
- `random.choice` and the `common` word list: a foreign module and randomness. The word list and the picked indices are inputs, and the list must be non-empty.
- The message boxes: a modal dialog. The report they show is the `score` carried by the `Finished` phase.
- Clearing the entry after each check (`typed_text.set("")`): UI state. The typed text is an input to `CheckWord`.
- Session.Accuracy: the exact ratio is modelled, without the float division and the `round(..., 2)`.
- Session.App.Valid: the invariant does not include the highlight. Instead the constructor, `CheckWord` and `Reset` state the layout they install, and `StartTimer` and `UpdateTimer` leave it unchanged.
- Display: the separate "start" and "cursor" tag names and their colour are not modelled. Deleting the text also removes the old tag, so only one red range exists at a time.
- Python strings may hold lone surrogate code points and Dafny's `char` cannot. No input the program reads from a key press is affected.
