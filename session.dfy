/** The typing-test session that the window class `App` runs once its
    widgets are set aside: the prompt, the cursor `n`, the counters, the
    timer and the phase the key bindings put it in.

    The phase stands for the bindings: `Idle` while any key press starts
    the timer, `Running` while the space key submits the typed word and the
    timer is re-armed every second, `Finished` once the final message box
    has been shown and no key is bound. */
module Session {
  import opened Text
  import Prompt
  import Display

  /** `self.duration`: the length of a test, in milliseconds. */
  const Duration: nat := 60000

  datatype EndReason = TimeUp | OutOfWords

  /** What the final message box reports. The "words per minute" figure is
      the raw number of correctly typed words. */
  datatype Score = Score(wordsPerMinute: nat, accuracy: real)

  datatype Phase = Idle | Running | Finished(reason: EndReason, score: Score)

  /** The number of positions below `k` at which `a` and `b` agree: the
      value of the `correct` counter after `k` rounds of the loop in
      `check_word`. */
  function MatchCount(a: string, b: string, k: nat): nat
    requires k <= |a| && k <= |b|
  {
    if k == 0 then 0 else MatchCount(a, b, k - 1) + (if a[k - 1] == b[k - 1] then 1 else 0)
  }

  /** The counter never exceeds the number of positions compared, and it
      reaches it exactly when the two prefixes are equal. */
  lemma {:induction false} MatchCountFull(a: string, b: string, k: nat)
    requires k <= |a| && k <= |b|
    ensures MatchCount(a, b, k) <= k
    ensures MatchCount(a, b, k) == k <==> a[..k] == b[..k]
  {
    if k > 0 {
      MatchCountFull(a, b, k - 1);
      assert a[..k] == a[..k - 1] + [a[k - 1]];
      assert b[..k] == b[..k - 1] + [b[k - 1]];
      if a[..k] == b[..k] {
        assert a[..k - 1] == a[..k][..k - 1];
        assert b[..k - 1] == b[..k][..k - 1];
        assert a[k - 1] == a[..k][k - 1];
      }
    }
  }

  /** The comparison in `check_word`: lengths first, then a character-by-
      character count of matches; the word is correct only when every
      character matched. That is exactly string equality. */
  method IsTypedCorrectly(toCheck: string, target: string) returns (isCorrect: bool)
    ensures isCorrect <==> toCheck == target
  {
    isCorrect := false;
    var correct: nat := 0;
    if |toCheck| == |target| {
      for x := 0 to |target|
        invariant correct == MatchCount(toCheck, target, x)
      {
        if toCheck[x] == target[x] {
          correct := correct + 1;
        }
      }
      MatchCountFull(toCheck, target, |target|);
      assert toCheck[..|target|] == toCheck && target[..|target|] == target;
      isCorrect := correct == |target|;
    }
  }

  /** `round((total_correct_typed / n) * 100, 2)` without the rounding: the
      percentage of submitted words that were typed correctly. */
  function Accuracy(totalCorrect: nat, attempts: nat): (r: real)
    requires 0 < attempts && totalCorrect <= attempts
    ensures 0.0 <= r <= 100.0
    ensures r == 100.0 <==> totalCorrect == attempts
    ensures r == 0.0 <==> totalCorrect == 0
  {
    (totalCorrect as real / attempts as real) * 100.0
  }

  /** The test in `update_timer`: whole elapsed seconds, converted to
      milliseconds, against the duration. The timer keeps running through
      second 60 and the test ends at the first tick of 61 seconds or more. */
  function TimerContinues(elapsedSeconds: nat): (r: bool)
    ensures r <==> elapsedSeconds <= 60
  {
    elapsedSeconds * 1000 <= Duration
  }

  class App {
    /** The prompt, `self.words`. */
    var words: seq<string>
    /** The index of the last word, `len(self.words) - 1`, set once. */
    var nMax: int
    /** The cursor: the index of the word awaiting input. */
    var n: nat
    var totalCorrectTyped: nat
    var percentAccuracy: real
    var phase: Phase
    /** The seconds shown on the "Timer:" label. */
    var timerSeconds: nat
    /** The text of the prompt widget and its red tag. */
    var display: Display.Layout

    ghost predicate Valid()
      reads this
    {
      && |words| == Prompt.ParagraphLength
      && nMax == |words| - 1
      && totalCorrectTyped <= n <= |words|
      && 0.0 <= percentAccuracy <= 100.0
      && (n > 0 ==> percentAccuracy == Accuracy(totalCorrectTyped, n))
      && (phase == Idle ==> n == 0 && totalCorrectTyped == 0)
      && (n > nMax <==> phase.Finished? && phase.reason == OutOfWords)
      && (phase.Finished? ==> phase.score == Score(totalCorrectTyped, percentAccuracy))
    }

    /** `App.__init__`: a fresh paragraph, the counters at zero, the first
        word highlighted, and any key press armed to start the timer. */
    constructor (wordList: seq<string>, picks: seq<nat>)
      requires |wordList| > 0 && Prompt.ValidPicks(wordList, picks)
      ensures Valid()
      ensures phase == Idle && n == 0 && totalCorrectTyped == 0
      ensures percentAccuracy == 0.0 && timerSeconds == 0
      ensures |words| == Prompt.ParagraphLength
      ensures forall i :: 0 <= i < |words| ==> words[i] == wordList[picks[i]]
      ensures display == Display.InitialLayout(words)
    {
      var paragraph := Prompt.GetParagraph(wordList, picks);
      words := paragraph;
      nMax := |paragraph| - 1;
      n := 0;
      totalCorrectTyped := 0;
      percentAccuracy := 0.0;
      phase := Idle;
      timerSeconds := 0;
      display := Display.InitialLayout(paragraph);
    }

    /** `start_timer`: the first key press starts the test and runs the
        first timer update, at zero elapsed seconds. */
    method StartTimer()
      requires Valid() && phase == Idle
      modifies this
      ensures Valid() && phase == Running && timerSeconds == 0
      ensures words == old(words) && nMax == old(nMax) && n == old(n)
      ensures totalCorrectTyped == old(totalCorrectTyped) && percentAccuracy == old(percentAccuracy)
      ensures display == old(display)
    {
      phase := Running;
      UpdateTimer(0);
    }

    /** `update_timer`, given the whole seconds elapsed since the start:
        while they amount to no more than the duration the label shows them
        and the test goes on; otherwise the test ends with the time-up
        report. */
    method UpdateTimer(elapsedSeconds: nat)
      requires Valid() && phase == Running
      modifies this
      ensures Valid()
      ensures elapsedSeconds <= Duration / 1000 ==> phase == Running && timerSeconds == elapsedSeconds
      ensures elapsedSeconds > Duration / 1000 ==>
                phase == Finished(TimeUp, Score(totalCorrectTyped, percentAccuracy))
                && timerSeconds == old(timerSeconds)
      ensures words == old(words) && nMax == old(nMax) && n == old(n)
      ensures totalCorrectTyped == old(totalCorrectTyped) && percentAccuracy == old(percentAccuracy)
      ensures display == old(display)
    {
      if TimerContinues(elapsedSeconds) {
        timerSeconds := elapsedSeconds;
      } else {
        phase := Finished(TimeUp, Score(totalCorrectTyped, percentAccuracy));
      }
    }

    /** `check_word`, on a press of the space key with `typed` in the entry:
        the stripped text is compared with the current word, the counter
        grows when they are equal, the cursor always advances, the accuracy
        is recomputed, and either the next word is highlighted or the test
        ends with the out-of-words report. */
    method CheckWord(typed: string)
      requires Valid() && phase == Running
      modifies this
      ensures Valid()
      ensures n == old(n) + 1
      ensures totalCorrectTyped
              == old(totalCorrectTyped) + (if Strip(typed) == old(words)[old(n)] then 1 else 0)
      ensures percentAccuracy == Accuracy(totalCorrectTyped, n)
      ensures n <= nMax ==> phase == Running && display == Display.MoveCursor(words, n)
      ensures n > nMax ==>
                phase == Finished(OutOfWords, Score(totalCorrectTyped, percentAccuracy))
                && display == old(display)
      ensures words == old(words) && nMax == old(nMax) && timerSeconds == old(timerSeconds)
    {
      var toCheck := Strip(typed);
      var isCorrect := IsTypedCorrectly(toCheck, words[n]);
      var total := if isCorrect then totalCorrectTyped + 1 else totalCorrectTyped;
      var next := n + 1;
      totalCorrectTyped, n, percentAccuracy := total, next, Accuracy(total, next);
      if n <= nMax {
        display := Display.MoveCursor(words, n);
      } else {
        phase := Finished(OutOfWords, Score(totalCorrectTyped, percentAccuracy));
      }
    }

    /** `reset`: a new paragraph, the cursor and the correct-word counter
        back to zero, the timer label at zero, the first word highlighted and
        any key press armed again. The accuracy keeps its last value and
        `nMax` is not recomputed (the new paragraph has the same length). */
    method Reset(wordList: seq<string>, picks: seq<nat>)
      requires Valid()
      requires |wordList| > 0 && Prompt.ValidPicks(wordList, picks)
      modifies this
      ensures Valid()
      ensures phase == Idle && n == 0 && totalCorrectTyped == 0 && timerSeconds == 0
      ensures |words| == Prompt.ParagraphLength
      ensures forall i :: 0 <= i < |words| ==> words[i] == wordList[picks[i]]
      ensures display == Display.InitialLayout(words)
      ensures percentAccuracy == old(percentAccuracy) && nMax == old(nMax)
    {
      phase := Idle;
      n := 0;
      totalCorrectTyped := 0;
      timerSeconds := 0;
      words := Prompt.GetParagraph(wordList, picks);
      display := Display.InitialLayout(words);
    }
  }

  /** The submissions as `check_word` compares them: each one stripped. */
  function StripAll(typed: seq<string>): seq<string>
  {
    seq(|typed|, i requires 0 <= i < |typed| => Strip(typed[i]))
  }

  /** How many of the (stripped) submissions `submitted[..k]` equal the word
      at the same position of the prompt. */
  function CorrectCount(submitted: seq<string>, words: seq<string>, k: nat): nat
    requires k <= |submitted| && k <= |words|
  {
    if k == 0 then 0
    else CorrectCount(submitted, words, k - 1) + (if submitted[k - 1] == words[k - 1] then 1 else 0)
  }

  /** The reported count never exceeds the number of submissions, and it
      equals it exactly when every submission matched its word. */
  lemma {:induction false} CorrectCountBound(submitted: seq<string>, words: seq<string>, k: nat)
    requires k <= |submitted| && k <= |words|
    ensures CorrectCount(submitted, words, k) <= k
    ensures CorrectCount(submitted, words, k) == k <==> submitted[..k] == words[..k]
  {
    if k > 0 {
      CorrectCountBound(submitted, words, k - 1);
      assert submitted[..k] == submitted[..k - 1] + [submitted[k - 1]];
      assert words[..k] == words[..k - 1] + [words[k - 1]];
      if submitted[..k] == words[..k] {
        assert submitted[..k - 1] == submitted[..k][..k - 1];
        assert words[..k - 1] == words[..k][..k - 1];
        assert submitted[k - 1] == submitted[..k][k - 1];
      }
    }
  }

  /** A whole test in which no tick ends the time: one space press per word
      of the paragraph. The test ends out of words after exactly `|words|`
      submissions, still running before the last one, and reports as words
      per minute the number of submissions that matched their word. */
  method TypeParagraph(app: App, typed: seq<string>)
    requires app.Valid() && app.phase == Running && app.n == 0
    requires |typed| == |app.words|
    modifies app
    ensures app.Valid() && app.words == old(app.words) && app.n == |app.words|
    ensures app.phase == Finished(OutOfWords, Score(app.totalCorrectTyped, app.percentAccuracy))
    ensures app.totalCorrectTyped == CorrectCount(StripAll(typed), app.words, |typed|)
  {
    var i := 0;
    while i < |typed|
      invariant 0 <= i <= |typed|
      invariant app.Valid() && app.words == old(app.words) && app.n == i
      invariant i < |typed| ==> app.phase == Running
      invariant app.totalCorrectTyped == CorrectCount(StripAll(typed), app.words, i)
    {
      app.CheckWord(typed[i]);
      i := i + 1;
    }
  }
}
