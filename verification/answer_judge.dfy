/** The answer judge that runs once per analysis frame: it compares the
    detected semitone with the target, counts consecutive matching frames
    and locks in a correct answer once the count reaches the sustain
    threshold. Time is counted in frames; the threshold is a parameter. */
module AnswerJudge {
  import opened Optional
  import opened NoteMath

  /** The judge's state: `correctDuration` (in frames) and `correctLocked`. */
  datatype JudgeState = JudgeState(duration: nat, locked: bool)

  /** The state a new question starts from. */
  const Reset := JudgeState(0, false)

  /** `isCorrect`: the same pitch class when judging octave-agnostically,
      the same semitone otherwise. An undefined target matches nothing. */
  predicate IsMatch(detected: int, target: Option<int>, octaveAgnostic: bool)
  {
    target.Some? &&
    if octaveAgnostic then NonNegMod12(detected) == NonNegMod12(target.value)
    else detected == target.value
  }

  /** A frame matches when a pitch was detected and it is correct. */
  predicate Matched(detected: Option<int>, target: Option<int>, octaveAgnostic: bool)
  {
    detected.Some? && IsMatch(detected.value, target, octaveAgnostic)
  }

  /** Octave-agnostic matching accepts exactly the semitones a whole number
      of octaves away from the target; exact matching only the target. */
  lemma MatchMeaning(detected: int, target: int)
    ensures IsMatch(detected, Some(target), true) <==> (detected - target) % 12 == 0
    ensures IsMatch(detected, Some(target), false) <==> detected == target
  {
    SameRemainder(detected, target);
  }

  /** Two integers leave the same remainder modulo 12 exactly when their
      difference is a multiple of 12. */
  lemma SameRemainder(a: int, b: int)
    ensures a % 12 == b % 12 <==> (a - b) % 12 == 0
  {
    var qa, qb := a / 12, b / 12;
    assert a == 12 * qa + a % 12;
    assert b == 12 * qb + b % 12;
    if (a - b) % 12 == 0 {
      var q := (a - b) / 12;
      assert a % 12 - b % 12 == 12 * (q - qa + qb);
    }
    if a % 12 == b % 12 {
      assert a - b == 12 * (qa - qb);
    }
  }

  /** C5 (60) answers a C4 (48) target when octaves are ignored, and only then. */
  lemma OctaveExample()
    ensures IsMatch(60, Some(48), true)
    ensures !IsMatch(60, Some(48), false)
  {
    MatchMeaning(60, 48);
  }

  /** No state in which the judge is still accumulating has reached the
      threshold yet. */
  predicate Consistent(s: JudgeState, sustainFrames: nat)
  {
    !s.locked ==> s.duration < sustainFrames
  }

  /** One judged frame. `detected` is the detected semitone, or None when
      no pitch was found. A locked judge ignores the frame; otherwise a
      match adds one frame and locks once the count reaches the threshold,
      and anything else resets the count. */
  function Step(s: JudgeState, detected: Option<int>, target: Option<int>,
                octaveAgnostic: bool, sustainFrames: nat): (s': JudgeState)
    ensures s.locked ==> s' == s
    ensures !s.locked && !Matched(detected, target, octaveAgnostic) ==> s' == Reset
    ensures !s.locked && Matched(detected, target, octaveAgnostic) ==>
              s'.duration == s.duration + 1 && (s'.locked <==> s.duration + 1 >= sustainFrames)
    ensures Consistent(s, sustainFrames) ==> Consistent(s', sustainFrames)
  {
    match detected
    case Some(semitone) =>
      if !s.locked && IsMatch(semitone, target, octaveAgnostic) then
        var duration := s.duration + 1;
        JudgeState(duration, duration >= sustainFrames)
      else if !s.locked then Reset
      else s
    case None =>
      if !s.locked then Reset else s
  }

  /** Whether the frame is the one at which the answer is confirmed. */
  predicate Fires(s: JudgeState, detected: Option<int>, target: Option<int>,
                  octaveAgnostic: bool, sustainFrames: nat)
  {
    !s.locked && Step(s, detected, target, octaveAgnostic, sustainFrames).locked
  }

  /** The state after judging a sequence of frames in order. */
  function Run(s: JudgeState, frames: seq<Option<int>>, target: Option<int>,
               octaveAgnostic: bool, sustainFrames: nat): JudgeState
    decreases |frames|
  {
    if |frames| == 0 then s
    else Run(Step(s, frames[0], target, octaveAgnostic, sustainFrames), frames[1..],
             target, octaveAgnostic, sustainFrames)
  }

  /** How many frames of the sequence confirm the answer. */
  function Confirmations(s: JudgeState, frames: seq<Option<int>>, target: Option<int>,
                         octaveAgnostic: bool, sustainFrames: nat): nat
    decreases |frames|
  {
    if |frames| == 0 then 0
    else
      (if Fires(s, frames[0], target, octaveAgnostic, sustainFrames) then 1 else 0) +
      Confirmations(Step(s, frames[0], target, octaveAgnostic, sustainFrames), frames[1..],
                    target, octaveAgnostic, sustainFrames)
  }

  /** Once locked, the judge ignores every further frame. */
  lemma {:induction false} LockedJudgeIsFrozen(s: JudgeState, frames: seq<Option<int>>, target: Option<int>,
                                               octaveAgnostic: bool, sustainFrames: nat)
    requires s.locked
    ensures Run(s, frames, target, octaveAgnostic, sustainFrames) == s
    ensures Confirmations(s, frames, target, octaveAgnostic, sustainFrames) == 0
    decreases |frames|
  {
    if |frames| > 0 {
      LockedJudgeIsFrozen(s, frames[1..], target, octaveAgnostic, sustainFrames);
    }
  }

  /** Over any run of frames, with no reset or unlock in between, the
      answer is confirmed at most once, and a confirmation leaves the judge
      locked. */
  lemma {:induction false} ConfirmsAtMostOnce(s: JudgeState, frames: seq<Option<int>>, target: Option<int>,
                                              octaveAgnostic: bool, sustainFrames: nat)
    ensures Confirmations(s, frames, target, octaveAgnostic, sustainFrames) <= 1
    ensures Confirmations(s, frames, target, octaveAgnostic, sustainFrames) == 1 ==>
              !s.locked && Run(s, frames, target, octaveAgnostic, sustainFrames).locked
    decreases |frames|
  {
    if |frames| > 0 {
      var s' := Step(s, frames[0], target, octaveAgnostic, sustainFrames);
      if s'.locked {
        LockedJudgeIsFrozen(s', frames[1..], target, octaveAgnostic, sustainFrames);
      } else {
        ConfirmsAtMostOnce(s', frames[1..], target, octaveAgnostic, sustainFrames);
      }
    }
  }

  /** Consecutive matching frames from an unlocked count of `s.duration`
      raise the count one by one; the judge locks, and confirms once, on
      exactly the frame at which the count reaches the threshold. */
  lemma {:induction false} SustainedMatch(s: JudgeState, frames: seq<Option<int>>, target: Option<int>,
                                          octaveAgnostic: bool, sustainFrames: nat)
    requires !s.locked && s.duration < sustainFrames
    requires s.duration + |frames| <= sustainFrames
    requires forall i :: 0 <= i < |frames| ==> Matched(frames[i], target, octaveAgnostic)
    ensures Run(s, frames, target, octaveAgnostic, sustainFrames) ==
              JudgeState(s.duration + |frames|, s.duration + |frames| == sustainFrames)
    ensures Confirmations(s, frames, target, octaveAgnostic, sustainFrames) ==
              if s.duration + |frames| == sustainFrames then 1 else 0
    decreases |frames|
  {
    if |frames| > 0 {
      assert Matched(frames[0], target, octaveAgnostic);
      var s' := Step(s, frames[0], target, octaveAgnostic, sustainFrames);
      if s'.locked {
        assert |frames| == 1;
        LockedJudgeIsFrozen(s', frames[1..], target, octaveAgnostic, sustainFrames);
      } else {
        SustainedMatch(s', frames[1..], target, octaveAgnostic, sustainFrames);
      }
    }
  }

  /** A new question that is held correctly for exactly the threshold
      number of frames is confirmed exactly once, on the last of them. */
  lemma HeldForThreshold(frames: seq<Option<int>>, target: Option<int>,
                         octaveAgnostic: bool, sustainFrames: nat)
    requires sustainFrames >= 1 && |frames| == sustainFrames
    requires forall i :: 0 <= i < |frames| ==> Matched(frames[i], target, octaveAgnostic)
    ensures Run(Reset, frames, target, octaveAgnostic, sustainFrames).locked
    ensures Confirmations(Reset, frames, target, octaveAgnostic, sustainFrames) == 1
  {
    SustainedMatch(Reset, frames, target, octaveAgnostic, sustainFrames);
  }

  /** Holding the answer for fewer frames than the threshold and then
      missing one frame leaves the judge reset, with nothing confirmed. */
  lemma {:induction false} InterruptedHoldResets(frames: seq<Option<int>>, miss: Option<int>, target: Option<int>,
                                                 octaveAgnostic: bool, sustainFrames: nat)
    requires |frames| < sustainFrames
    requires forall i :: 0 <= i < |frames| ==> Matched(frames[i], target, octaveAgnostic)
    requires !Matched(miss, target, octaveAgnostic)
    ensures Run(Reset, frames + [miss], target, octaveAgnostic, sustainFrames) == Reset
    ensures Confirmations(Reset, frames + [miss], target, octaveAgnostic, sustainFrames) == 0
  {
    RunAppend(Reset, frames, miss, target, octaveAgnostic, sustainFrames);
    SustainedMatch(Reset, frames, target, octaveAgnostic, sustainFrames);
  }

  /** Judging one more frame after a sequence. */
  lemma {:induction false} RunAppend(s: JudgeState, frames: seq<Option<int>>, last: Option<int>, target: Option<int>,
                                     octaveAgnostic: bool, sustainFrames: nat)
    ensures var mid := Run(s, frames, target, octaveAgnostic, sustainFrames);
            Run(s, frames + [last], target, octaveAgnostic, sustainFrames) ==
              Step(mid, last, target, octaveAgnostic, sustainFrames) &&
            Confirmations(s, frames + [last], target, octaveAgnostic, sustainFrames) ==
              Confirmations(s, frames, target, octaveAgnostic, sustainFrames) +
              (if Fires(mid, last, target, octaveAgnostic, sustainFrames) then 1 else 0)
    decreases |frames|
  {
    if |frames| == 0 {
      assert frames + [last] == [last];
    } else {
      assert (frames + [last])[1..] == frames[1..] + [last];
      RunAppend(Step(s, frames[0], target, octaveAgnostic, sustainFrames), frames[1..], last,
                target, octaveAgnostic, sustainFrames);
    }
  }

  /** What the auto-next timeout does to the judge: it clears the lock and
      leaves the count of matching frames as it is. */
  function Unlock(s: JudgeState): JudgeState
  {
    JudgeState(s.duration, false)
  }

  /** A hold that confirms the answer, followed by a timeout that only
      clears the lock, leaves the count at the threshold: the very next
      matching frame confirms the same answer again. */
  lemma UnlockedJudgeConfirmsAgain(frames: seq<Option<int>>, next: Option<int>, target: Option<int>,
                                   octaveAgnostic: bool, sustainFrames: nat)
    requires sustainFrames >= 1 && |frames| == sustainFrames
    requires forall i :: 0 <= i < |frames| ==> Matched(frames[i], target, octaveAgnostic)
    requires Matched(next, target, octaveAgnostic)
    ensures var held := Run(Reset, frames, target, octaveAgnostic, sustainFrames);
            Confirmations(Reset, frames, target, octaveAgnostic, sustainFrames) == 1 &&
            held.locked && !Consistent(Unlock(held), sustainFrames) &&
            Fires(Unlock(held), next, target, octaveAgnostic, sustainFrames)
  {
    SustainedMatch(Reset, frames, target, octaveAgnostic, sustainFrames);
  }
}
