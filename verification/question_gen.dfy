/** What one call of `newQuestion` may produce: a reference note, an
    interval, a direction and a target index, found by rejection sampling
    with a budget of 200 attempts. `Math.random()` is replaced by a list of
    pre-drawn values, four per attempt. */
module QuestionGen {
  import opened Optional
  import opened NoteMath
  import Intervals

  /** The attempt budget of the sampling loop. */
  const MaxAttempts := 200

  /** The positions one attempt draws, in the order it draws them: each is
      `Math.floor(Math.random() * n)` for the number `n` of octaves (7),
      pitch classes (12), selected intervals and selected directions. */
  datatype Draw = Draw(octave: int, pitch: int, interval: int, direction: int)

  /** The positions lie in range for selections of the given sizes (an
      empty selection is reported before its position is used). */
  predicate ValidDraw(d: Draw, intervalCount: nat, directionCount: nat)
  {
    0 <= d.octave < 7 && 0 <= d.pitch < 12 &&
    (intervalCount > 0 ==> 0 <= d.interval < intervalCount) &&
    (directionCount > 0 ==> 0 <= d.direction < directionCount)
  }

  predicate ValidDraws(draws: seq<Draw>, intervalCount: nat, directionCount: nat)
  {
    |draws| >= MaxAttempts &&
    forall k :: 0 <= k < |draws| ==> ValidDraw(draws[k], intervalCount, directionCount)
  }

  predicate IsRandom(r: real)
  {
    0.0 <= r < 1.0
  }

  /** `Math.floor(r * n)` for a value `r` of `Math.random()`. */
  function Pick(r: real, n: nat): (k: nat)
    requires IsRandom(r) && n > 0
    ensures k < n
  {
    ScaledBelow(r, n as real);
    (r * n as real).Floor
  }

  /** A value of `Math.random()` times a positive bound stays below it. */
  lemma ScaledBelow(r: real, bound: real)
    requires IsRandom(r) && bound > 0.0
    ensures 0.0 <= r * bound < bound
  {
    assert bound - r * bound == (1.0 - r) * bound;
  }

  /** The draw that four `Math.random()` values make: always a valid one. */
  function DrawOf(octave: real, pitch: real, interval: real, direction: real,
                  intervalCount: nat, directionCount: nat): (d: Draw)
    requires IsRandom(octave) && IsRandom(pitch) && IsRandom(interval) && IsRandom(direction)
    ensures ValidDraw(d, intervalCount, directionCount)
  {
    Draw(Pick(octave, 7), Pick(pitch, |Notes|),
         if intervalCount > 0 then Pick(interval, intervalCount) else 0,
         if directionCount > 0 then Pick(direction, directionCount) else 0)
  }

  /** `tempDirection === "up" ? 1 : -1`: every direction other than "up"
      counts as down. */
  function Multiplier(direction: string): (s: int)
    ensures s == 1 || s == -1
    ensures s == 1 <==> direction == "up"
  {
    if direction == "up" then 1 else -1
  }

  lemma SignedDistance(dist: int, direction: string)
    ensures dist * Multiplier(direction) == if direction == "up" then dist else -dist
  {
  }

  /** A reference note, interval name and direction drawn by one attempt. */
  datatype Choice = Choice(reference: Note, interval: string, direction: string)

  /** A question: the choice it was built from and its target index. */
  datatype Question = Question(reference: Note, interval: string, direction: string, target: int)

  /** The choice one attempt makes: octave `floor(r * 7) + 1`, a pitch class,
      then one of the selected intervals and one of the selected directions. */
  function Choose(d: Draw, intervals: seq<string>, directions: seq<string>): (c: Choice)
    requires ValidDraw(d, |intervals|, |directions|) && |intervals| > 0 && |directions| > 0
    ensures c.reference == Note(Notes[d.pitch], d.octave + 1)
    ensures c.interval in intervals && c.direction in directions
  {
    Choice(Note(Notes[d.pitch], d.octave + 1), intervals[d.interval], directions[d.direction])
  }

  /** `referenceIndex + intervalDistance * directionMultiplier`. An interval
      name outside the catalogue yields no number: JavaScript computes NaN
      there, and NaN fails both range comparisons. */
  function TargetOf(c: Choice): Option<int>
  {
    match Intervals.Distance(c.interval)
    case None => None
    case Some(dist) => Some(NoteIndex(c.reference) + dist * Multiplier(c.direction))
  }

  /** A question the generator may hand out: a reference note with octave
      1..7, a selected interval that the catalogue knows, a selected
      direction, and a target that many semitones up or down from the
      reference, inside the range `lo..hi`. */
  predicate Accepted(q: Question, intervals: seq<string>, directions: seq<string>, lo: int, hi: int)
  {
    1 <= q.reference.octave <= 7 && q.reference.name in Notes &&
    q.interval in intervals && q.direction in directions &&
    Intervals.Distance(q.interval).Some? &&
    var dist: int := Intervals.Distance(q.interval).value;
    q.target == NoteIndex(q.reference) + (if q.direction == "up" then dist else -dist) &&
    lo <= q.target <= hi
  }

  /** One attempt accepts its draw exactly when the drawn choice has a
      target and the target lies in the range `lo..hi` (both ends included). */
  predicate Accepts(d: Draw, intervals: seq<string>, directions: seq<string>, lo: int, hi: int)
    requires ValidDraw(d, |intervals|, |directions|) && |intervals| > 0 && |directions| > 0
  {
    var t := TargetOf(Choose(d, intervals, directions));
    t.Some? && lo <= t.value <= hi
  }

  /** The question an accepting attempt produces. */
  function QuestionOf(d: Draw, intervals: seq<string>, directions: seq<string>, lo: int, hi: int): Question
    requires ValidDraw(d, |intervals|, |directions|) && |intervals| > 0 && |directions| > 0
    requires Accepts(d, intervals, directions, lo, hi)
  {
    var c := Choose(d, intervals, directions);
    Question(c.reference, c.interval, c.direction, TargetOf(c).value)
  }

  /** An accepting attempt produces an accepted question. */
  lemma QuestionOfAccepted(d: Draw, intervals: seq<string>, directions: seq<string>, lo: int, hi: int)
    requires ValidDraw(d, |intervals|, |directions|) && |intervals| > 0 && |directions| > 0
    requires Accepts(d, intervals, directions, lo, hi)
    ensures Accepted(QuestionOf(d, intervals, directions, lo, hi), intervals, directions, lo, hi)
  {
    var c := Choose(d, intervals, directions);
    SignedDistance(Intervals.Distance(c.interval).value, c.direction);
  }

  /** The steps of one attempt as `newQuestion` writes them (reference
      note, its index, interval lookup, signed target, range test) decide
      `Accepts` and build `QuestionOf`. */
  lemma AttemptSteps(d: Draw, intervals: seq<string>, directions: seq<string>, lo: int, hi: int)
    requires ValidDraw(d, |intervals|, |directions|) && |intervals| > 0 && |directions| > 0
    ensures var reference := Note(Notes[d.pitch], d.octave + 1);
            var distance := Intervals.Distance(intervals[d.interval]);
            (Accepts(d, intervals, directions, lo, hi) <==>
              distance.Some? &&
              lo <= NoteIndex(reference) + distance.value * Multiplier(directions[d.direction]) <= hi) &&
            (Accepts(d, intervals, directions, lo, hi) ==>
              var q := QuestionOf(d, intervals, directions, lo, hi);
              q.reference == reference && q.interval == intervals[d.interval] &&
              q.direction == directions[d.direction] &&
              q.target == NoteIndex(reference) + distance.value * Multiplier(directions[d.direction]))
  {
  }

  /** The outcome of one `newQuestion` search. */
  datatype Generated =
    | Found(question: Question, attempts: nat)
    | NoIntervalSelected
    | NoDirectionSelected
    | Exhausted

  /** The sampling loop from attempt `k` (counting from 0) on: the
      question of the first accepting attempt, with the number of attempts
      made so far, or exhaustion once the budget of 200 is spent. */
  function SearchFrom(draws: seq<Draw>, intervals: seq<string>, directions: seq<string>,
                      lo: int, hi: int, k: nat): (g: Generated)
    requires ValidDraws(draws, |intervals|, |directions|) && |intervals| > 0 && |directions| > 0
    requires k <= MaxAttempts
    ensures g.Found? || g.Exhausted?
    ensures g.Found? ==> k < g.attempts <= MaxAttempts
    decreases MaxAttempts - k
  {
    if k == MaxAttempts then Exhausted
    else if Accepts(draws[k], intervals, directions, lo, hi) then
      Found(QuestionOf(draws[k], intervals, directions, lo, hi), k + 1)
    else SearchFrom(draws, intervals, directions, lo, hi, k + 1)
  }

  /** Attempts `0..n-1` are all rejected. */
  predicate RejectedBefore(draws: seq<Draw>, intervals: seq<string>, directions: seq<string>,
                           lo: int, hi: int, n: nat)
    requires ValidDraws(draws, |intervals|, |directions|) && |intervals| > 0 && |directions| > 0
    requires n <= MaxAttempts
  {
    n == 0 ||
    (RejectedBefore(draws, intervals, directions, lo, hi, n - 1) &&
     !Accepts(draws[n - 1], intervals, directions, lo, hi))
  }

  /** `RejectedBefore` says that every attempt below `n` is rejected. */
  lemma {:induction false} RejectedBeforeMeans(draws: seq<Draw>, intervals: seq<string>, directions: seq<string>,
                                               lo: int, hi: int, n: nat)
    requires ValidDraws(draws, |intervals|, |directions|) && |intervals| > 0 && |directions| > 0
    requires n <= MaxAttempts
    ensures RejectedBefore(draws, intervals, directions, lo, hi, n) <==>
              forall i :: 0 <= i < n ==> !Accepts(draws[i], intervals, directions, lo, hi)
  {
    if n > 0 {
      RejectedBeforeMeans(draws, intervals, directions, lo, hi, n - 1);
    }
  }

  /** After `k` rejected attempts the search goes on from attempt `k`. */
  lemma {:induction false} SearchAfterRejections(draws: seq<Draw>, intervals: seq<string>,
                                                 directions: seq<string>, lo: int, hi: int, k: nat)
    requires ValidDraws(draws, |intervals|, |directions|) && |intervals| > 0 && |directions| > 0
    requires k <= MaxAttempts && RejectedBefore(draws, intervals, directions, lo, hi, k)
    ensures SearchFrom(draws, intervals, directions, lo, hi, 0) ==
            SearchFrom(draws, intervals, directions, lo, hi, k)
  {
    if k > 0 {
      SearchAfterRejections(draws, intervals, directions, lo, hi, k - 1);
    }
  }

  /** A question the search from attempt `k` hands out is an accepted one. */
  lemma {:induction false} SearchFromAccepted(draws: seq<Draw>, intervals: seq<string>,
                                              directions: seq<string>, lo: int, hi: int, k: nat)
    requires ValidDraws(draws, |intervals|, |directions|) && |intervals| > 0 && |directions| > 0
    requires k <= MaxAttempts && SearchFrom(draws, intervals, directions, lo, hi, k).Found?
    ensures Accepted(SearchFrom(draws, intervals, directions, lo, hi, k).question, intervals, directions, lo, hi)
    decreases MaxAttempts - k
  {
    if Accepts(draws[k], intervals, directions, lo, hi) {
      QuestionOfAccepted(draws[k], intervals, directions, lo, hi);
    } else {
      SearchFromAccepted(draws, intervals, directions, lo, hi, k + 1);
    }
  }

  /** `newQuestion`'s search: an empty interval selection, then an empty
      direction selection, is reported before any attempt can succeed;
      otherwise the loop runs from the first attempt. */
  function Generate(draws: seq<Draw>, intervals: seq<string>, directions: seq<string>,
                    lo: int, hi: int): (g: Generated)
    requires ValidDraws(draws, |intervals|, |directions|)
    ensures g.NoIntervalSelected? <==> |intervals| == 0
    ensures g.NoDirectionSelected? <==> |intervals| > 0 && |directions| == 0
    ensures g.Found? ==> 1 <= g.attempts <= MaxAttempts
  {
    if |intervals| == 0 then NoIntervalSelected
    else if |directions| == 0 then NoDirectionSelected
    else SearchFrom(draws, intervals, directions, lo, hi, 0)
  }

  /** The search after `k` rejected attempts: when the budget is spent it
      fails, and when attempt `k` accepts it reports that attempt's
      question after `k + 1` attempts. */
  lemma GenerateAfterRejections(draws: seq<Draw>, intervals: seq<string>, directions: seq<string>,
                                lo: int, hi: int, k: nat)
    requires ValidDraws(draws, |intervals|, |directions|) && |intervals| > 0 && |directions| > 0
    requires k <= MaxAttempts && RejectedBefore(draws, intervals, directions, lo, hi, k)
    requires k < MaxAttempts ==> Accepts(draws[k], intervals, directions, lo, hi)
    ensures k == MaxAttempts ==> Generate(draws, intervals, directions, lo, hi) == Exhausted
    ensures k < MaxAttempts ==>
              Generate(draws, intervals, directions, lo, hi) ==
              Found(QuestionOf(draws[k], intervals, directions, lo, hi), k + 1)
  {
    SearchAfterRejections(draws, intervals, directions, lo, hi, k);
  }

  /** Every question the search hands out is an accepted one. */
  lemma GenerateAccepted(draws: seq<Draw>, intervals: seq<string>, directions: seq<string>,
                         lo: int, hi: int)
    requires ValidDraws(draws, |intervals|, |directions|)
    requires Generate(draws, intervals, directions, lo, hi).Found?
    ensures Accepted(Generate(draws, intervals, directions, lo, hi).question, intervals, directions, lo, hi)
  {
    SearchFromAccepted(draws, intervals, directions, lo, hi, 0);
  }

  /** The search finds the first attempt that accepts: when attempts
      `0..k-1` are rejected and attempt `k` accepts, the search reports the
      question of attempt `k` after `k + 1` attempts. */
  lemma GenerateFindsFirst(draws: seq<Draw>, intervals: seq<string>, directions: seq<string>,
                           lo: int, hi: int, k: nat)
    requires ValidDraws(draws, |intervals|, |directions|) && |intervals| > 0 && |directions| > 0
    requires k < MaxAttempts
    requires forall i :: 0 <= i < k ==> !Accepts(draws[i], intervals, directions, lo, hi)
    requires Accepts(draws[k], intervals, directions, lo, hi)
    ensures Generate(draws, intervals, directions, lo, hi) ==
              Found(QuestionOf(draws[k], intervals, directions, lo, hi), k + 1)
  {
    RejectedBeforeMeans(draws, intervals, directions, lo, hi, k);
    GenerateAfterRejections(draws, intervals, directions, lo, hi, k);
  }

  /** When all 200 attempts are rejected the search reports exhaustion. */
  lemma GenerateExhausts(draws: seq<Draw>, intervals: seq<string>, directions: seq<string>,
                         lo: int, hi: int)
    requires ValidDraws(draws, |intervals|, |directions|) && |intervals| > 0 && |directions| > 0
    requires forall i :: 0 <= i < MaxAttempts ==> !Accepts(draws[i], intervals, directions, lo, hi)
    ensures Generate(draws, intervals, directions, lo, hi).Exhausted?
  {
    RejectedBeforeMeans(draws, intervals, directions, lo, hi, MaxAttempts);
    GenerateAfterRejections(draws, intervals, directions, lo, hi, MaxAttempts);
  }

  /** The range bounds only the target: a two-note range, the narrowest
      the sliders allow, such as positions 38..39 (MIDI 59..60), admits a
      perfect fifth. The
      attempt that draws octave 3 and pitch class F (index 53) and goes up
      lands on 60 and is accepted on the first try. */
  lemma FifthFitsNarrowRange(draws: seq<Draw>)
    requires ValidDraws(draws, 1, 1) && draws[0] == Draw(2, 5, 0, 0)
    ensures Generate(draws, ["perfect 5th"], ["up"], SliderIndexToMidi(38), SliderIndexToMidi(39)) ==
              Found(Question(Note("F", 3), "perfect 5th", "up", 60), 1)
  {
    IndexOfNote(5);
    assert Intervals.Distance("perfect 5th") == Some(7);
    assert Accepts(draws[0], ["perfect 5th"], ["up"], 59, 60);
    GenerateFindsFirst(draws, ["perfect 5th"], ["up"], 59, 60, 0);
  }

  /** What an accepted question looks like: the reference index is in
      24..107 (C1..B7), the target is 1..12 semitones from it, above it
      exactly when the direction is "up". */
  lemma AcceptedShape(q: Question, intervals: seq<string>, directions: seq<string>, lo: int, hi: int)
    requires Accepted(q, intervals, directions, lo, hi)
    ensures 24 <= NoteIndex(q.reference) <= 107
    ensures 1 <= q.target - NoteIndex(q.reference) <= 12 || 1 <= NoteIndex(q.reference) - q.target <= 12
    ensures q.target > NoteIndex(q.reference) <==> q.direction == "up"
    ensures 12 <= q.target <= 119
  {
    var k := IndexOf(Notes, q.reference.name);
    assert 0 <= k < 12;
  }

  /** When no reference, interval and direction can land in the range,
      every attempt fails and the budget runs out. */
  lemma ExhaustedWhenNothingFits(draws: seq<Draw>, intervals: seq<string>, directions: seq<string>,
                                 lo: int, hi: int)
    requires ValidDraws(draws, |intervals|, |directions|) && |intervals| > 0 && |directions| > 0
    requires forall q :: !Accepted(q, intervals, directions, lo, hi)
    ensures Generate(draws, intervals, directions, lo, hi).Exhausted?
  {
    forall i | 0 <= i < MaxAttempts
      ensures !Accepts(draws[i], intervals, directions, lo, hi)
    {
      if Accepts(draws[i], intervals, directions, lo, hi) {
        QuestionOfAccepted(draws[i], intervals, directions, lo, hi);
      }
    }
    GenerateExhausts(draws, intervals, directions, lo, hi);
  }

  /** With "up" as the only direction, a range that ends below C#1 (index
      25) can never be met: the lowest reference is C1 (24). */
  lemma UpwardBelowCSharp1Exhausts(draws: seq<Draw>, intervals: seq<string>, lo: int, hi: int)
    requires ValidDraws(draws, |intervals|, 1) && |intervals| > 0
    requires hi < 25
    ensures Generate(draws, intervals, ["up"], lo, hi).Exhausted?
  {
    forall q | Accepted(q, intervals, ["up"], lo, hi)
      ensures false
    {
      AcceptedShape(q, intervals, ["up"], lo, hi);
    }
    ExhaustedWhenNothingFits(draws, intervals, ["up"], lo, hi);
  }
}
