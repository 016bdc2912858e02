/** The trainer page's state: the range sliders, the session counters, the
    current question and the answer judge, held as the fields of one
    session object, with the operations that update them in place. */
module Trainer {
  import opened Optional
  import opened NoteMath
  import opened RangeBounds
  import Intervals
  import opened QuestionGen
  import AnswerJudge
  import SampleLabels

  /** The main prompt line. */
  datatype Prompt =
    | Blank
    | SessionComplete
    | Asking(reference: Note, interval: string, direction: string)
    | NoValidQuestion

  /** How a call of `newQuestion` ended. */
  datatype Outcome = SessionOver | MissingInterval | MissingDirection | Asked | GaveUp

  /** The stored settings as `loadSettings` reads them. A slider entry is
      None only when it is absent, and otherwise the integer the slider
      ends up holding; a toggle is None when it is absent or not a boolean;
      `numQuestions` is None also where it is a falsy value. */
  datatype SavedSettings = SavedSettings(
    rangeMinIdx: Option<int>,
    rangeMaxIdx: Option<int>,
    octaveAgnostic: Option<bool>,
    autoNext: Option<bool>,
    numQuestions: Option<int>)

  class Session {
    /** The integer values of the two range sliders. */
    var minSlider: int
    var maxSlider: int
    /** The normalised range, as slider positions. */
    var rangeMinIdx: int
    var rangeMaxIdx: int
    /** Session length (0 = unlimited) and questions asked so far. */
    var questionLimit: int
    var questionCount: int
    var octaveAgnostic: bool
    var autoNextEnabled: bool
    /** The current question; None where JavaScript has `undefined`. */
    var referenceNote: Option<Note>
    var currentInterval: string
    var currentDirection: string
    var targetSemitone: Option<int>
    /** The note the target frequency is computed from. */
    var targetNote: Option<Note>
    /** The answer judge: `correctDuration` in frames, and `correctLocked`. */
    var correctDuration: nat
    var correctLocked: bool
    var prompt: Prompt

    /** The state when the page has loaded, with the sliders at their
        initial values and nothing asked yet. */
    constructor (minValue: int, maxValue: int)
      ensures minSlider == minValue && maxSlider == maxValue
      ensures rangeMinIdx == minValue && rangeMaxIdx == maxValue
      ensures questionLimit == 0 && questionCount == 0
      ensures octaveAgnostic && !autoNextEnabled
      ensures referenceNote.None? && currentInterval == "" && currentDirection == ""
      ensures targetSemitone.None? && targetNote.None?
      ensures correctDuration == 0 && !correctLocked && prompt == Blank
    {
      minSlider, maxSlider := minValue, maxValue;
      rangeMinIdx, rangeMaxIdx := minValue, maxValue;
      questionLimit, questionCount := 0, 0;
      octaveAgnostic, autoNextEnabled := true, false;
      referenceNote, currentInterval, currentDirection := None, "", "";
      targetSemitone, targetNote := None, None;
      correctDuration, correctLocked := 0, false;
      prompt := Blank;
    }

    /** The judge's part of the state. */
    function Judge(): AnswerJudge.JudgeState
      reads this
    {
      AnswerJudge.JudgeState(correctDuration, correctLocked)
    }

    /** A limited session has asked all its questions. */
    predicate SessionFinished()
      reads this
    {
      questionLimit > 0 && questionCount >= questionLimit
    }

    /** The current-question fields hold question `q`. */
    predicate Holds(q: Question)
      reads this
    {
      referenceNote == Some(q.reference) && currentInterval == q.interval &&
      currentDirection == q.direction && targetSemitone == Some(q.target) &&
      targetNote == Some(TargetNote(q.target))
    }

    /** The current-question fields are as they were. */
    twostate predicate QuestionKept()
      reads this
    {
      referenceNote == old(referenceNote) && currentInterval == old(currentInterval) &&
      currentDirection == old(currentDirection) && targetSemitone == old(targetSemitone) &&
      targetNote == old(targetNote)
    }

    /** The range fields are as they were. */
    twostate predicate RangeKept()
      reads this
    {
      minSlider == old(minSlider) && maxSlider == old(maxSlider) &&
      rangeMinIdx == old(rangeMinIdx) && rangeMaxIdx == old(rangeMaxIdx)
    }

    /** The settings fields are as they were. */
    twostate predicate SettingsKept()
      reads this
    {
      questionLimit == old(questionLimit) && octaveAgnostic == old(octaveAgnostic) &&
      autoNextEnabled == old(autoNextEnabled)
    }

    /** `enforceSliderBounds`: the range becomes the normalised slider pair,
        and the sliders are moved to it. */
    method EnforceSliderBounds()
      modifies this`minSlider, this`maxSlider, this`rangeMinIdx, this`rangeMaxIdx
      ensures (rangeMinIdx, rangeMaxIdx) == Normalize(old(minSlider), old(maxSlider))
      ensures minSlider == rangeMinIdx && maxSlider == rangeMaxIdx
    {
      MinMaxNormalizes(minSlider, maxSlider);
      rangeMinIdx := Min(minSlider, maxSlider - 1);
      rangeMaxIdx := Max(maxSlider, rangeMinIdx + 1);
      minSlider := rangeMinIdx;
      maxSlider := rangeMaxIdx;
    }

    /** `loadSettings` applied to parsed stored settings: stored slider
        values replace the current ones before the range is normalised,
        stored toggles replace the toggles, and the session length becomes
        the stored count, or 0. */
    method LoadSettings(s: SavedSettings)
      modifies this`minSlider, this`maxSlider, this`rangeMinIdx, this`rangeMaxIdx,
               this`octaveAgnostic, this`autoNextEnabled, this`questionLimit
      ensures var lo := if s.rangeMinIdx.Some? then s.rangeMinIdx.value else old(minSlider);
              var hi := if s.rangeMaxIdx.Some? then s.rangeMaxIdx.value else old(maxSlider);
              (rangeMinIdx, rangeMaxIdx) == Normalize(lo, hi)
      ensures minSlider == rangeMinIdx && maxSlider == rangeMaxIdx
      ensures octaveAgnostic == if s.octaveAgnostic.Some? then s.octaveAgnostic.value else old(octaveAgnostic)
      ensures autoNextEnabled == if s.autoNext.Some? then s.autoNext.value else old(autoNextEnabled)
      ensures questionLimit == if s.numQuestions.Some? then s.numQuestions.value else 0
    {
      if s.rangeMinIdx.Some? {
        minSlider := s.rangeMinIdx.value;
      }
      if s.rangeMaxIdx.Some? {
        maxSlider := s.rangeMaxIdx.value;
      }
      EnforceSliderBounds();
      if s.octaveAgnostic.Some? {
        octaveAgnostic := s.octaveAgnostic.value;
      }
      if s.autoNext.Some? {
        autoNextEnabled := s.autoNext.value;
      }
      questionLimit := if s.numQuestions.Some? then s.numQuestions.value else 0;
    }

    /** `newQuestion`, with `Math.random()` replaced by the pre-drawn
        positions `draws` (one `Draw` per attempt) and the checked boxes
        given as `intervals` and `directions`.

        A finished session only shows "Session complete". Otherwise the
        question counter goes up by one, the range is normalised, the judge
        is reset, and the attempt loop (`Search`) runs over the MIDI range
        of the normalised sliders: an empty selection stops the first
        attempt before any question field is written; an accepted attempt
        installs its question; when all 200 attempts fail the old question
        stays and a failure prompt is shown. */
    method NewQuestion(draws: seq<Draw>, intervals: seq<string>, directions: seq<string>)
        returns (outcome: Outcome, attempts: nat)
      requires ValidDraws(draws, |intervals|, |directions|)
      modifies this
      ensures SettingsKept()
      ensures old(SessionFinished()) ==>
                outcome == SessionOver && attempts == 0 && prompt == SessionComplete &&
                questionCount == old(questionCount) && Judge() == old(Judge()) &&
                RangeKept() && QuestionKept()
      ensures !old(SessionFinished()) ==>
                questionCount == old(questionCount) + 1 && Judge() == AnswerJudge.Reset &&
                (rangeMinIdx, rangeMaxIdx) == Normalize(old(minSlider), old(maxSlider)) &&
                minSlider == rangeMinIdx && maxSlider == rangeMaxIdx &&
                SearchResult(draws, intervals, directions, outcome, attempts)
      ensures outcome != Asked ==> QuestionKept()
      ensures outcome == MissingInterval || outcome == MissingDirection ==>
                attempts == 1 && prompt == old(prompt)
      ensures outcome == GaveUp ==> attempts == MaxAttempts && prompt == NoValidQuestion
    {
      if questionLimit > 0 && questionCount >= questionLimit {
        prompt := SessionComplete;
        return SessionOver, 0;
      }
      outcome, attempts := StartQuestion(draws, intervals, directions);
    }

    /** `newQuestion` in a session that is not finished. */
    method StartQuestion(draws: seq<Draw>, intervals: seq<string>, directions: seq<string>)
        returns (outcome: Outcome, attempts: nat)
      requires ValidDraws(draws, |intervals|, |directions|)
      modifies this
      ensures SettingsKept()
      ensures questionCount == old(questionCount) + 1 && Judge() == AnswerJudge.Reset
      ensures (rangeMinIdx, rangeMaxIdx) == Normalize(old(minSlider), old(maxSlider))
      ensures minSlider == rangeMinIdx && maxSlider == rangeMaxIdx
      ensures SearchResult(draws, intervals, directions, outcome, attempts)
      ensures outcome != Asked ==> QuestionKept()
      ensures outcome == MissingInterval || outcome == MissingDirection ==>
                attempts == 1 && prompt == old(prompt)
      ensures outcome == GaveUp ==> attempts == MaxAttempts && prompt == NoValidQuestion
    {
      BeginQuestion();
      outcome, attempts := Search(draws, intervals, directions);
    }

    /** The part of `newQuestion` before the attempt loop: one more
        question is counted, the range is normalised, and the judge is
        reset. */
    method BeginQuestion()
      modifies this`questionCount, this`minSlider, this`maxSlider, this`rangeMinIdx, this`rangeMaxIdx,
               this`correctDuration, this`correctLocked
      ensures questionCount == old(questionCount) + 1 && Judge() == AnswerJudge.Reset
      ensures (rangeMinIdx, rangeMaxIdx) == Normalize(old(minSlider), old(maxSlider))
      ensures minSlider == rangeMinIdx && maxSlider == rangeMaxIdx
    {
      questionCount := questionCount + 1;
      EnforceSliderBounds();
      correctLocked := false;
      correctDuration := 0;
    }

    /** The outcome of the attempt loop agrees with the search `Generate`
        describes over the MIDI range of the normalised sliders, and an
        accepted question is installed. */
    predicate SearchResult(draws: seq<Draw>, intervals: seq<string>, directions: seq<string>,
                           outcome: Outcome, attempts: nat)
      requires ValidDraws(draws, |intervals|, |directions|)
      reads this
    {
      var g := Generate(draws, intervals, directions,
                        SliderIndexToMidi(rangeMinIdx), SliderIndexToMidi(rangeMaxIdx));
      (outcome == MissingInterval <==> g.NoIntervalSelected?) &&
      (outcome == MissingDirection <==> g.NoDirectionSelected?) &&
      (outcome == GaveUp <==> g.Exhausted?) &&
      (outcome == Asked <==> g.Found?) &&
      (g.Found? ==> attempts == g.attempts && Installed(g.question))
    }

    /** The attempt loop of `newQuestion` over the MIDI range of the
        normalised sliders, related to the search `Generate` describes. */
    method Search(draws: seq<Draw>, intervals: seq<string>, directions: seq<string>)
        returns (outcome: Outcome, attempts: nat)
      requires ValidDraws(draws, |intervals|, |directions|)
      modifies this`referenceNote, this`currentInterval, this`currentDirection,
               this`targetSemitone, this`targetNote, this`prompt
      ensures SearchResult(draws, intervals, directions, outcome, attempts)
      ensures outcome != Asked ==> QuestionKept()
      ensures outcome == MissingInterval || outcome == MissingDirection ==>
                attempts == 1 && prompt == old(prompt)
      ensures outcome == GaveUp ==> attempts == MaxAttempts && prompt == NoValidQuestion
    {
      var minSemitone := SliderIndexToMidi(rangeMinIdx);
      var maxSemitone := SliderIndexToMidi(rangeMaxIdx);
      outcome, attempts := AttemptLoop(draws, intervals, directions, minSemitone, maxSemitone);
      LoopOutcomeAgrees(draws, intervals, directions, minSemitone, maxSemitone, outcome, attempts);
    }

    /** The attempt loop itself: each attempt counts, an empty selection
        ends the first attempt, and the loop stops at the first accepted
        attempt or after 200 rejected ones, which show a failure prompt. */
    method AttemptLoop(draws: seq<Draw>, intervals: seq<string>, directions: seq<string>,
                       minSemitone: int, maxSemitone: int) returns (outcome: Outcome, attempts: nat)
      requires ValidDraws(draws, |intervals|, |directions|)
      modifies this`referenceNote, this`currentInterval, this`currentDirection,
               this`targetSemitone, this`targetNote, this`prompt
      ensures outcome == MissingInterval <==> |intervals| == 0
      ensures outcome == MissingDirection <==> |intervals| > 0 && |directions| == 0
      ensures outcome == MissingInterval || outcome == MissingDirection ==>
                attempts == 1 && QuestionKept() && prompt == old(prompt)
      ensures outcome == GaveUp ==>
                |intervals| > 0 && |directions| > 0 && attempts == MaxAttempts &&
                RejectedBefore(draws, intervals, directions, minSemitone, maxSemitone, MaxAttempts) &&
                QuestionKept() && prompt == NoValidQuestion
      ensures outcome == Asked ==>
                |intervals| > 0 && |directions| > 0 && 1 <= attempts <= MaxAttempts &&
                RejectedBefore(draws, intervals, directions, minSemitone, maxSemitone, attempts - 1) &&
                Accepts(draws[attempts - 1], intervals, directions, minSemitone, maxSemitone) &&
                Installed(QuestionOf(draws[attempts - 1], intervals, directions, minSemitone, maxSemitone))
      ensures outcome != SessionOver
    {
      var validQuestionFound := false;
      attempts := 0;
      while !validQuestionFound && attempts < MaxAttempts
        invariant 0 <= attempts <= MaxAttempts
        invariant attempts > 0 ==> |intervals| > 0 && |directions| > 0
        invariant !validQuestionFound ==> QuestionKept() && prompt == old(prompt)
        invariant !validQuestionFound && attempts > 0 ==>
                    RejectedBefore(draws, intervals, directions, minSemitone, maxSemitone, attempts)
        invariant validQuestionFound ==>
                    attempts >= 1 &&
                    RejectedBefore(draws, intervals, directions, minSemitone, maxSemitone, attempts - 1) &&
                    Accepts(draws[attempts - 1], intervals, directions, minSemitone, maxSemitone) &&
                    Installed(QuestionOf(draws[attempts - 1], intervals, directions, minSemitone, maxSemitone))
      {
        attempts := attempts + 1;
        if |intervals| == 0 {
          return MissingInterval, attempts;
        }
        if |directions| == 0 {
          return MissingDirection, attempts;
        }
        validQuestionFound := TryAttempt(draws[attempts - 1], intervals, directions, minSemitone, maxSemitone);
      }

      if !validQuestionFound {
        prompt := NoValidQuestion;
        outcome := GaveUp;
      } else {
        outcome := Asked;
      }
    }

    /** The current-question fields and the prompt show question `q`. */
    predicate Installed(q: Question)
      reads this
    {
      Holds(q) && prompt == Asking(q.reference, q.interval, q.direction)
    }

    /** One attempt of the loop on the drawn positions `d`: the reference
        note and its index, the interval and direction, the signed target,
        and the range test; an accepted attempt installs its question. */
    method TryAttempt(d: Draw, intervals: seq<string>, directions: seq<string>,
                      minSemitone: int, maxSemitone: int) returns (accepted: bool)
      requires ValidDraw(d, |intervals|, |directions|) && |intervals| > 0 && |directions| > 0
      modifies this`referenceNote, this`currentInterval, this`currentDirection,
               this`targetSemitone, this`targetNote, this`prompt
      ensures accepted <==> Accepts(d, intervals, directions, minSemitone, maxSemitone)
      ensures accepted ==> Installed(QuestionOf(d, intervals, directions, minSemitone, maxSemitone))
      ensures !accepted ==> QuestionKept() && prompt == old(prompt)
    {
      accepted := false;
      var tempReference := Note(Notes[d.pitch], d.octave + 1);
      var referenceIndex := NoteIndex(tempReference);
      var tempInterval := intervals[d.interval];
      var tempDirection := directions[d.direction];
      var distance := Intervals.Distance(tempInterval);
      var multiplier := Multiplier(tempDirection);
      ghost var choice := Choose(d, intervals, directions);
      assert choice == Choice(tempReference, tempInterval, tempDirection);
      // An unknown interval name makes the target NaN, which is in no range.
      if distance.Some? {
        var targetIndex := referenceIndex + distance.value * multiplier;
        assert TargetOf(choice) == Some(targetIndex);
        if minSemitone <= targetIndex <= maxSemitone {
          accepted := true;
          assert QuestionOf(d, intervals, directions, minSemitone, maxSemitone) ==
                 Question(tempReference, tempInterval, tempDirection, targetIndex);
          referenceNote := Some(tempReference);
          currentInterval := tempInterval;
          currentDirection := tempDirection;
          targetNote := Some(TargetNote(targetIndex));
          targetSemitone := Some(targetIndex);
          prompt := Asking(tempReference, tempInterval, tempDirection);
        }
      }
    }

    /** One analysis frame of the answer judge: `detected` is the semitone
        of the detected pitch, or None when there is none. The judge state
        takes one `Step`; the frame confirms the answer when it locks the
        judge, and then asks for the automatic next question if enabled. */
    method JudgeFrame(detected: Option<int>, sustainFrames: nat) returns (confirmed: bool, advance: bool)
      modifies this`correctDuration, this`correctLocked
      ensures Judge() == AnswerJudge.Step(old(Judge()), detected, targetSemitone, octaveAgnostic, sustainFrames)
      ensures confirmed <==> AnswerJudge.Fires(old(Judge()), detected, targetSemitone, octaveAgnostic, sustainFrames)
      ensures advance <==> confirmed && autoNextEnabled
    {
      confirmed, advance := false, false;
      if detected.Some? {
        var isCorrect := false;
        if octaveAgnostic {
          isCorrect := targetSemitone.Some? &&
                       NonNegMod12(detected.value) == NonNegMod12(targetSemitone.value);
        } else {
          isCorrect := targetSemitone.Some? && detected.value == targetSemitone.value;
        }
        if !correctLocked && isCorrect {
          correctDuration := correctDuration + 1;
          if correctDuration >= sustainFrames {
            correctLocked := true;
            confirmed := true;
            advance := autoNextEnabled;
          }
        } else if !correctLocked {
          correctDuration := 0;
        }
      } else if !correctLocked {
        correctDuration := 0;
      }
    }

    /** The body of the auto-next timeout: the lock is cleared and
        `newQuestion` runs. In a finished session `newQuestion` returns
        before the judge is reset, so only the lock is cleared and the count
        stays where the confirmation left it. */
    method AutoNextTimeout(draws: seq<Draw>, intervals: seq<string>, directions: seq<string>)
        returns (outcome: Outcome, attempts: nat)
      requires ValidDraws(draws, |intervals|, |directions|)
      modifies this
      ensures SettingsKept()
      ensures old(SessionFinished()) ==>
                outcome == SessionOver && prompt == SessionComplete &&
                Judge() == AnswerJudge.Unlock(old(Judge())) &&
                questionCount == old(questionCount) && RangeKept() && QuestionKept()
      ensures !old(SessionFinished()) ==>
                questionCount == old(questionCount) + 1 && Judge() == AnswerJudge.Reset &&
                (rangeMinIdx, rangeMaxIdx) == Normalize(old(minSlider), old(maxSlider)) &&
                minSlider == rangeMinIdx && maxSlider == rangeMaxIdx &&
                SearchResult(draws, intervals, directions, outcome, attempts)
      ensures outcome != Asked ==> QuestionKept()
      ensures outcome == MissingInterval || outcome == MissingDirection ==>
                attempts == 1 && prompt == old(prompt)
      ensures outcome == GaveUp ==> attempts == MaxAttempts && prompt == NoValidQuestion
    {
      correctLocked := false;
      outcome, attempts := NewQuestion(draws, intervals, directions);
    }

    /** The label the "check answer" button plays and shows: the target
        split into its non-negative pitch class and octave. There is none
        before the first question. */
    function TargetLabel(): (text: Option<string>)
      reads this
      ensures text.None? <==> targetSemitone.None?
      ensures text.Some? ==> SampleLabels.ParseSampleName(text.value) == targetSemitone
    {
      match targetSemitone
      case None => None
      case Some(t) =>
        var n := TargetNote(t);
        TargetLabelRoundTrip(t);
        Some(SampleLabels.NoteLabel(n))
    }
  }

  /** The outcome the attempt loop reports, described by what it saw of the
      attempts, is the outcome of the search `Generate` describes. */
  lemma LoopOutcomeAgrees(draws: seq<Draw>, intervals: seq<string>, directions: seq<string>,
                          lo: int, hi: int, outcome: Outcome, attempts: nat)
    requires ValidDraws(draws, |intervals|, |directions|)
    requires outcome != SessionOver
    requires outcome == MissingInterval <==> |intervals| == 0
    requires outcome == MissingDirection <==> |intervals| > 0 && |directions| == 0
    requires outcome == GaveUp ==>
               |intervals| > 0 && |directions| > 0 &&
               RejectedBefore(draws, intervals, directions, lo, hi, MaxAttempts)
    requires outcome == Asked ==>
               |intervals| > 0 && |directions| > 0 && 1 <= attempts <= MaxAttempts &&
               RejectedBefore(draws, intervals, directions, lo, hi, attempts - 1) &&
               Accepts(draws[attempts - 1], intervals, directions, lo, hi)
    ensures var g := Generate(draws, intervals, directions, lo, hi);
            (outcome == MissingInterval <==> g.NoIntervalSelected?) &&
            (outcome == MissingDirection <==> g.NoDirectionSelected?) &&
            (outcome == GaveUp <==> g.Exhausted?) &&
            (outcome == Asked <==> g.Found?) &&
            (g.Found? ==> attempts == g.attempts &&
                          g.question == QuestionOf(draws[attempts - 1], intervals, directions, lo, hi))
  {
    if outcome == GaveUp {
      GenerateAfterRejections(draws, intervals, directions, lo, hi, MaxAttempts);
    } else if outcome == Asked {
      GenerateAfterRejections(draws, intervals, directions, lo, hi, attempts - 1);
    }
  }

  /** Every target index, negative ones included, gets a label that reads
      back as that index. */
  lemma TargetLabelRoundTrip(t: int)
    ensures SampleLabels.ParseSampleName(SampleLabels.NoteLabel(TargetNote(t))) == Some(t)
  {
    TargetNoteRoundTrip(t);
    SampleLabels.NoteLabelRoundTrip(TargetNote(t), t % 12);
  }

  /** What an asked question looks like, stated on the session's fields:
      the target lies in the MIDI range of the normalised sliders and is the
      reference index moved by the interval's distance, up or down as the
      direction says; the reference octave is 1..7. */
  lemma AskedQuestionShape(s: Session, draws: seq<Draw>, intervals: seq<string>, directions: seq<string>)
    requires ValidDraws(draws, |intervals|, |directions|)
    requires Generate(draws, intervals, directions,
                      SliderIndexToMidi(s.rangeMinIdx), SliderIndexToMidi(s.rangeMaxIdx)).Found?
    requires s.Holds(Generate(draws, intervals, directions,
                              SliderIndexToMidi(s.rangeMinIdx), SliderIndexToMidi(s.rangeMaxIdx)).question)
    ensures s.referenceNote.Some? && s.targetSemitone.Some?
    ensures 21 + s.rangeMinIdx <= s.targetSemitone.value <= 21 + s.rangeMaxIdx
    ensures Intervals.Distance(s.currentInterval).Some?
    ensures var dist: int := Intervals.Distance(s.currentInterval).value;
            s.targetSemitone.value ==
              NoteIndex(s.referenceNote.value) + (if s.currentDirection == "up" then dist else -dist)
    ensures 1 <= s.referenceNote.value.octave <= 7
    ensures 24 <= NoteIndex(s.referenceNote.value) <= 107
  {
    var lo, hi := SliderIndexToMidi(s.rangeMinIdx), SliderIndexToMidi(s.rangeMaxIdx);
    var q := Generate(draws, intervals, directions, lo, hi).question;
    GenerateAccepted(draws, intervals, directions, lo, hi);
    AcceptedShape(q, intervals, directions, lo, hi);
  }
}
