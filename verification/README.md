# Interval ear-trainer: a verified model of its integer core

The trainer is a browser page. It shows a reference note, an interval name
and a direction, and listens to the microphone until the singer holds the
target note long enough. A second page, the settings page, chooses the vocal
range, the intervals, the directions, the session length and two toggles.

This project models the parts of `scripts/script.js` and
`scripts/settings.js` that are exact logic, and proves what they promise:

- **Pitch-index arithmetic** (`NoteMath`, `SampleLabels`). A semitone index
  splits into a sharp-only name and an octave, and back again. This covers
  sample labels such as `C#4`, the target note of a question, and the
  mapping from range-slider positions to MIDI numbers.
- **Interval catalogue** (`Intervals`). Twelve names with distances 1..12.
- **Range rule** (`RangeBounds`). The two range sliders are normalised so
  that the minimum lies strictly below the maximum.
- **Question generator** (`QuestionGen`, and `Trainer.Session.NewQuestion`).
  Rejection sampling with a budget of 200 attempts.
  - `QuestionGen` describes one attempt and the whole search as functions.
  - The `Session` class holds the page's global variables as fields. Its
    methods run the same loop on them and are proved against those
    functions.
- **Answer judge** (`AnswerJudge`, and `Trainer.Session.JudgeFrame`). The
  per-frame state machine over `correctDuration` and `correctLocked`.
- **Autocorrelation pitch estimator** (`PitchEstimator`). The index logic
  over real-valued samples:
  - the silence gate, stated with squares instead of a square root;
  - the trim bounds `r1`/`r2`;
  - the lag-sum series `c`;
  - the descent walk `d`;
  - the first arg-max `maxpos`.
- **Settings page** (`SettingsPage`). Its copy of the catalogue, its slider
  labels, and its `enforceBounds`.

JavaScript semantics are written out where they matter:
- `%` truncates toward zero (`NoteMath.JsRem12`).
- `((x % 12) + 12) % 12` is a separate function (`NoteMath.NonNegMod12`).
- `Math.floor(x / 12)` is taken on reals (`NoteMath.Floor12`).
- A NaN comparison is false. So an interval name outside the catalogue
  makes an attempt fail, and an empty buffer is not silent.
- `Math.random()` is replaced by pre-drawn positions: one `QuestionGen.Draw`
  per attempt.

Behaviour of the code worth knowing:
- **Trimming.** When no quiet sample is found near the end, the end bound
  `r2` defaults to `SIZE - 1`, and `slice(r1, r2)` excludes it. So the last
  sample is always dropped, even when nothing is trimmed. See
  `PitchEstimator.TrimBounds`.
- **No lag found.** When `maxpos` stays `-1`, the code returns
  `sampleRate / -1`, not "no pitch". The model returns `Period(-1)`, and the
  judge then sees no matching semitone.
- **Empty buffer.** It does not pass the silence gate: its RMS is NaN.
- **Narrow ranges.** The range bounds only the target, not the reference
  note. So a narrow range alone does not rule out a question: a perfect
  fifth up from F3 lands on 60, inside a two-note range, the narrowest
  the sliders allow, such as 59..60 (`QuestionGen.FifthFitsNarrowRange`). Whether a range can
  be met depends on the selections (`QuestionGen.UpwardBelowCSharp1Exhausts`).
- **Confirming again after the session ends.** The auto-next timeout clears
  the judge's lock and calls `newQuestion`. In a finished session
  `newQuestion` returns before it resets the judge, so the count of
  matching frames stays at the threshold, and the next matching frame
  confirms the same answer again (`Trainer.Session.AutoNextTimeout`,
  `AnswerJudge.UnlockedJudgeConfirmsAgain`). Between resets of the judge,
  no run of frames confirms more than once (`AnswerJudge.ConfirmsAtMostOnce`).

## Model

| member | source | states |
|---|---|---|
| NoteMath.NotesDistinct | scripts/script.js:24 | the pitch-class table has 12 pairwise different names |
| NoteMath.NotesShape | scripts/script.js:24 | every name is one letter, or a letter followed by '#' |
| NoteMath.IndexOf | scripts/script.js:403 | `indexOf` returns -1 or a position inside the list |
| NoteMath.IndexFromMeaning | scripts/script.js:403 | the search from a position finds nothing exactly when the name is absent from there on, otherwise the first position from there holding it |
| NoteMath.IndexOfMeaning | scripts/script.js:403 | `indexOf`: -1 exactly when the name is absent, otherwise the first position holding it |
| NoteMath.IndexOfNote | scripts/script.js:403 | looking up the k-th name gives back k |
| NoteMath.JsRem12 | scripts/script.js:184 | JavaScript `% 12`: magnitude below 12, sign of the dividend, differs from it by a multiple of 12, equals Euclidean `%` on non-negative input |
| NoteMath.NonNegMod12 | scripts/script.js:430 | `((x % 12) + 12) % 12` is the non-negative remainder, in 0..11, for every integer, negative ones included |
| NoteMath.Floor12OfInt | scripts/script.js:432 | `Math.floor((m + nudge) / 12)` on an integer with a nudge in [0, 1) is `m / 12`, so the `+ 0.00001` changes nothing |
| NoteMath.MidiToNote | scripts/script.js:182-187 | a non-negative index splits into name `notes[m % 12]` and octave `floor(m / 12) - 1` |
| NoteMath.MidiNoteRoundTrip | scripts/script.js:182-187 | splitting then rebuilding with `(octave + 1) * 12 + index` gives the index back, and a note of octave -1 or above survives the opposite round trip |
| NoteMath.TargetNote | scripts/script.js:430-432 | the target note's name is the one at the non-negative pitch class of the target |
| NoteMath.TargetNoteRoundTrip | scripts/script.js:430-432 | the target's octave is `t / 12 - 1`, rebuilding gives `t` for every integer, and the split agrees with `midiToSampleName`'s for `t >= 0` |
| NoteMath.SliderIndexToMidi | scripts/script.js:273-275 | positions 0..87 map onto MIDI 21..108 exactly, with 0 at A0 = 21 |
| NoteMath.MidiToSliderIndex | scripts/script.js:276-278 | MIDI 21..108 maps onto positions 0..87 exactly |
| NoteMath.SliderMidiInverse | scripts/script.js:273-278 | the two slider maps are mutual inverses |
| SampleLabels.DigitChar | scripts/script.js:186 | a digit value 0..9 becomes a decimal digit character |
| SampleLabels.NatText | scripts/script.js:186 | the decimal text of a natural number is non-empty and all digits |
| SampleLabels.IntText | scripts/script.js:186 | the decimal text of an integer starts with '-' or a digit |
| SampleLabels.NatTextRoundTrip | scripts/script.js:186 | reading a natural number's decimal text gives the number back |
| SampleLabels.IntTextRoundTrip | scripts/script.js:186 | reading an integer's decimal text, negative ones included, gives the integer back |
| SampleLabels.MidiToSampleName | scripts/script.js:182-187 | the label is `notes[m % 12]` followed by the decimal text of `floor(m / 12) - 1` |
| SampleLabels.ParseNoteLabel | scripts/script.js:182-187 | a name followed by an octave reads back as `(octave + 1) * 12 + index` |
| SampleLabels.NoteLabelRoundTrip | scripts/script.js:182-187 | a note's label reads back as the note's index, for every octave |
| SampleLabels.SampleNameRoundTrip | scripts/script.js:182-187 | the label of every non-negative index reads back as that index |
| SampleLabels.SampleNameInjective | scripts/script.js:182-187 | different indices get different sample labels |
| SampleLabels.SliderIndexToNoteName | scripts/script.js:279-281 | a slider's label reads back as MIDI `21 + idx` |
| Intervals.Distance | scripts/script.js:419 | `intervals[name]`: absent exactly for names outside the catalogue, otherwise the catalogue distance, in 1..12 |
| Intervals.CatalogueSize | scripts/script.js:9-22 | the catalogue names twelve intervals |
| Intervals.DistancesDistinct | scripts/script.js:9-22 | different names have different distances |
| RangeBounds.Min | scripts/script.js:302 | `Math.min` is the smaller argument |
| RangeBounds.Max | scripts/script.js:303 | `Math.max` is the larger argument |
| RangeBounds.Normalize | scripts/script.js:301-305 | the normalised range has min < max, min not above the old min, max unchanged, and an ordered pair is left untouched (both directions) |
| RangeBounds.MinMaxNormalizes | scripts/script.js:302-303 | the `Math.min`/`Math.max` pair computes the normalised range |
| RangeBounds.NormalizeIdempotent | scripts/script.js:301-305 | normalising twice changes nothing more |
| QuestionGen.Pick | scripts/script.js:399-400 | `Math.floor(Math.random() * n)` is a position below `n` |
| QuestionGen.ScaledBelow | scripts/script.js:399-400 | a `Math.random()` value times a positive bound lies in `[0, bound)` |
| QuestionGen.DrawOf | scripts/script.js:399-417 | the four random values of an attempt make a valid draw |
| QuestionGen.Multiplier | scripts/script.js:420 | the sign is +1 exactly for "up" and -1 for every other direction |
| QuestionGen.SignedDistance | scripts/script.js:421 | distance times the multiplier is the distance up or its negation down |
| QuestionGen.Choose | scripts/script.js:399-417 | an attempt's reference is the drawn pitch class at the drawn octave plus one, and its interval and direction are among the selections |
| QuestionGen.AttemptSteps | scripts/script.js:399-423 | an attempt is accepted exactly when the interval is in the catalogue and reference index plus signed distance lies in the inclusive range; the accepted question has that reference, interval, direction and target |
| QuestionGen.QuestionOfAccepted | scripts/script.js:423-435 | an accepting attempt gives an accepted question: selected interval and direction, known distance, target in range |
| QuestionGen.SearchFrom | scripts/script.js:396-444 | the loop from attempt k either finds a question after more than k and at most 200 attempts, or is exhausted |
| QuestionGen.RejectedBeforeMeans | scripts/script.js:396-427 | "every attempt below n was rejected", stated step by step, means the same as stated for all of them |
| QuestionGen.SearchAfterRejections | scripts/script.js:396-427 | after k rejected attempts the loop behaves as if it started at attempt k |
| QuestionGen.SearchFromAccepted | scripts/script.js:423-435 | a question the loop finds from any attempt on is accepted |
| QuestionGen.Generate | scripts/script.js:396-449 | an empty interval selection, then an empty direction selection, are reported first; a found question took 1..200 attempts |
| QuestionGen.GenerateAfterRejections | scripts/script.js:396-449 | after k rejected attempts, the search fails when k is 200, and otherwise reports attempt k's question after k + 1 attempts when attempt k accepts |
| QuestionGen.GenerateAccepted | scripts/script.js:423-435 | every question the search hands out is accepted |
| QuestionGen.GenerateFindsFirst | scripts/script.js:396-427 | the search returns the question of the first accepting attempt, after that many attempts |
| QuestionGen.GenerateExhausts | scripts/script.js:446-449 | when all 200 attempts are rejected the search fails |
| QuestionGen.FifthFitsNarrowRange | scripts/script.js:396-427 | a perfect fifth up from F3 fits the range of slider positions 38..39 (MIDI 59..60) on the first attempt |
| QuestionGen.AcceptedShape | scripts/script.js:399-421 | an accepted reference index lies in 24..107, the target is 1..12 semitones away, above it exactly for "up" |
| QuestionGen.ExhaustedWhenNothingFits | scripts/script.js:396-449 | if no question can be accepted, the search runs out its budget |
| QuestionGen.UpwardBelowCSharp1Exhausts | scripts/script.js:399-423 | with only "up" selected, a range ending below index 25 can never be met |
| AnswerJudge.MatchMeaning | scripts/script.js:541-549 | octave-agnostic matching accepts exactly semitones a multiple of 12 from the target; exact matching only the target |
| AnswerJudge.SameRemainder | scripts/script.js:544-546 | equal remainders mod 12 exactly when the difference is a multiple of 12 |
| AnswerJudge.OctaveExample | scripts/script.js:542-548 | C5 (60) answers a C4 (48) target octave-agnostically, and not exactly |
| AnswerJudge.Step | scripts/script.js:550-591 | locked: nothing changes; unlocked and no match: reset to 0; match: one more frame, locked exactly when the count reaches the threshold; the "unlocked means below threshold" invariant is kept |
| AnswerJudge.LockedJudgeIsFrozen | scripts/script.js:550-591 | once locked, no sequence of frames changes the state or confirms again |
| AnswerJudge.ConfirmsAtMostOnce | scripts/script.js:550-583 | between resets and unlocks of the judge, no run of frames confirms more than once, and a confirmation leaves the judge locked |
| AnswerJudge.SustainedMatch | scripts/script.js:550-554 | consecutive matches count up one by one and lock on exactly the threshold frame |
| AnswerJudge.HeldForThreshold | scripts/script.js:550-554 | holding the answer for the threshold number of frames confirms exactly once |
| AnswerJudge.InterruptedHoldResets | scripts/script.js:584-591 | a shorter hold followed by a miss leaves the judge reset, with nothing confirmed |
| AnswerJudge.RunAppend | scripts/script.js:538-592 | judging one more frame after a sequence is one more step |
| AnswerJudge.UnlockedJudgeConfirmsAgain | scripts/script.js:550-581 | after a hold that confirms once, clearing only the lock leaves the count at the threshold, so the next matching frame confirms again |
| PitchEstimator.Abs | scripts/script.js:496 | `Math.abs` is non-negative and equals x or -x |
| PitchEstimator.SumSquaresNonNegative | scripts/script.js:490 | the energy of a buffer is never negative |
| PitchEstimator.SilentMeansQuietMeanSquare | scripts/script.js:490-492 | for a non-empty buffer the RMS gate `rms < 0.003` holds exactly when the mean square is below 0.003² |
| PitchEstimator.ZeroBufferIsSilent | scripts/script.js:490-492 | an all-zero non-empty buffer is silent |
| PitchEstimator.ZeroSumSquares | scripts/script.js:490 | an all-zero buffer has energy 0 |
| PitchEstimator.SumOfSquares | scripts/script.js:490 | the loop computes the buffer's energy |
| PitchEstimator.TrimBounds | scripts/script.js:494-506 | `r1` is the first quiet sample in the first half (else 0), `r2` the first quiet one scanning back from the end (else `SIZE - 1`), and `0 <= r1 <= r2 < SIZE` for a non-empty buffer |
| PitchEstimator.SliceIndex | scripts/script.js:508 | a `slice` position lands in 0..n and is kept when already there |
| PitchEstimator.Slice | scripts/script.js:508-509 | `slice(start, end)` is the sub-sequence for in-range positions and never longer than the input |
| PitchEstimator.LagSeries | scripts/script.js:511-514 | the series `c` has one entry per trimmed sample |
| PitchEstimator.LagZeroPrefix | scripts/script.js:512-514 | the lag-0 partial sum over a prefix is the prefix's energy |
| PitchEstimator.LagZeroIsEnergy | scripts/script.js:512-514 | `c[0]` is the trimmed buffer's energy, never negative |
| PitchEstimator.LagSums | scripts/script.js:511-514 | the nested loops fill `c[i]` with the sum over `j < SIZE - i` of `buf[j] * buf[j + i]` |
| PitchEstimator.DescentEnd | scripts/script.js:516-517 | `d` ends the initial strictly decreasing run of `c` |
| PitchEstimator.FirstArgMax | scripts/script.js:518-524 | `maxpos` is the first position from `d` holding the largest value above -1, or -1 if none exceeds -1 |
| PitchEstimator.NoDescentFindsLag | scripts/script.js:516-524 | an arg-max search started at lag 0 always finds a lag inside the series |
| PitchEstimator.AutoCorrelate | scripts/script.js:487-527 | no pitch exactly for a silent buffer; otherwise the lag is the first arg-max after the descent of the trimmed buffer's series |
| Trainer.Session.constructor | scripts/script.js:312-318 | the page starts with the given sliders as its range, nothing asked, a blank prompt, no question limit and none counted, a reset judge, octave-agnostic judging on and auto-next off |
| Trainer.Session.EnforceSliderBounds | scripts/script.js:301-308 | the range becomes the normalised slider pair and the sliders move to it |
| Trainer.Session.LoadSettings | scripts/script.js:330-364 | stored sliders replace the current ones before normalising, stored toggles replace the toggles, and the session length becomes the stored count or 0 |
| Trainer.Session.NewQuestion | scripts/script.js:376-450 | a finished session only shows "Session complete"; otherwise one more question is counted, the judge is reset, the range normalised, and the outcome agrees with `Generate`: a found question is installed, an empty selection or 200 failures leave the old question, and failure shows its prompt |
| Trainer.Session.StartQuestion | scripts/script.js:381-449 | the same, for a session that is not finished |
| Trainer.Session.BeginQuestion | scripts/script.js:381-386 | the counter goes up by one, the range is normalised, the judge is reset |
| Trainer.Session.Search | scripts/script.js:388-449 | the attempt loop's outcome agrees with `Generate` over the slider range |
| Trainer.Session.AttemptLoop | scripts/script.js:388-449 | the loop stops at its first accepted attempt, every earlier one being rejected, and installs its question; it stops on an empty selection in attempt 1 without writing a question field or the prompt; or it shows the failure prompt after 200 rejections and leaves the old question |
| Trainer.Session.TryAttempt | scripts/script.js:397-443 | one attempt is accepted exactly when `Accepts` holds and then installs `QuestionOf`; otherwise nothing changes |
| Trainer.Session.JudgeFrame | scripts/script.js:538-592 | the judge takes one `Step` against the current target; the frame confirms exactly when `Fires` holds, and asks for the next question exactly when it confirms with auto-next on |
| Trainer.Session.AutoNextTimeout | scripts/script.js:578-581 | the timeout clears the lock and runs `newQuestion`: in a finished session only the lock is cleared and the count is kept; otherwise a new question starts from a reset judge and agrees with `Generate`, an empty selection leaves the question and the prompt, and 200 failures leave the question and show the failure prompt |
| Trainer.Session.TargetLabel | scripts/script.js:600-606 | there is a label exactly when a target exists, and it reads back as the target |
| Trainer.LoopOutcomeAgrees | scripts/script.js:388-449 | an outcome that reports an empty selection exactly when there is one, gives up only after 200 rejections and asks only at the first accepting attempt, is the outcome of `Generate`, with the same attempt count and question |
| Trainer.TargetLabelRoundTrip | scripts/script.js:600-606 | every target index, negative ones included, gets a label that reads back as that index |
| Trainer.AskedQuestionShape | scripts/script.js:393-435 | an asked question's target lies in `21 + rangeMinIdx .. 21 + rangeMaxIdx`, is the reference index plus or minus the interval's distance as the direction says, and its reference has octave 1..7 and index 24..107 |
| SettingsPage.SameCatalogue | scripts/settings.js:4-17 | the settings page's catalogue equals the trainer's |
| SettingsPage.CatalogueShape | scripts/settings.js:4-17 | the settings page's catalogue has twelve names with distinct distances in 1..12 |
| SettingsPage.MidiToName | scripts/settings.js:41-45 | `midiToName` gives the same label as `midiToSampleName`, so it reads back as the index |
| SettingsPage.SliderLabel | scripts/settings.js:40-48 | the label under a slider names MIDI `21 + idx`, as on the trainer page |
| SettingsPage.SettingsForm.constructor | scripts/settings.js:34-35 | the form holds the two slider values |
| SettingsPage.SettingsForm.EnforceBounds | scripts/settings.js:58-62 | the sliders become the normalised pair: min < max, min not raised, max not lowered |
| SettingsPage.EnforceBoundsIdempotent | scripts/settings.js:58-62 | a second `enforceBounds` changes nothing |

## Left out

- Floating-point audio arithmetic: `noteToFrequency` (`Math.pow`), `frequencyToNote` (`Math.log`, `Math.round`), the square root of the silence gate and the final `sampleRate / T0`. The estimator returns the lag `T0`, and the judge takes the detected semitone as an input.
- `Trainer.Session.JudgeFrame`: the 1/60 float increment of `correctDuration` against the bound 1 is modelled as an integer frame count against an abstract threshold `sustainFrames`. The model does not claim an exact number of frames.
- `Trainer.Session.JudgeFrame`: a detection that yields no integer semitone (the `-1` "no pitch" return, and a NaN or infinite semitone from `maxpos` of -1 or 0) is the input None. NaN takes the else branch in the source too, so every such input gives the same state change.
- `Trainer.Session.NewQuestion`: an unset `targetSemitone` (JavaScript `undefined`) is None, and it matches nothing.
- DOM and UI text: prompt and feedback strings, `alert`, labels, the checkbox capitalisation, the slider fill percentages (`updateRangeFill`, `updateFill`) and the question counter display.
- Audio I/O and the Web Audio calls: `initAudio`, sample loading and playback, the correct-answer sound, `getUserMedia`, `requestAnimationFrame`.
- `Trainer.Session.JudgeFrame`: the 1.5 s auto-next `setTimeout` is reported as the `advance` result. The delay is not modelled; the timeout's body is `Trainer.Session.AutoNextTimeout`, and frames judged during the delay are not related to it. The `nextQuestion` and replay buttons are not modelled.
- `Trainer.Session.LoadSettings`: `localStorage` and `JSON.parse` are left out. The parsed settings are an input. A toggle of the wrong type is None; a slider entry is None only when absent. Restoring the interval and direction checkboxes is left out; the selections reach `NewQuestion` as its `intervals` and `directions` inputs.
- The settings page's `startSession` handler assembles and stores the settings (persistence I/O) and is not modelled.
- `NoteMath.MidiToNote`: all negative indices are excluded. The plain `%` in `midiToSampleName` gives no name for a negative index that is not a multiple of 12; a negative multiple of 12 gives `-0`, which names C (`-12` gives "C-2"), and that case is not modelled either.
- The browser's clamping of slider values to 0..87, and its sanitising of a stored slider entry that is not a number (null, a string), come from the HTML element and are not modelled. The slider maps are stated for all integers.
- `Math.random()` is replaced by pre-drawn positions (`QuestionGen.Draw`). The model says nothing about their distribution.
- The pitch estimator's samples are `real`, not 32-bit floats, so rounding in the sums is not modelled.
