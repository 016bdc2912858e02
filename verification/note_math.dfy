/** Pitch-index arithmetic of the trainer: the sharp-only pitch-class table,
    JavaScript's integer operators as the trainer uses them, the split of a
    MIDI-style semitone index into a note name and an octave, the inverse
    construction of an index from a note, and the mapping between range
    slider positions and MIDI numbers. */
module NoteMath {

  /** The twelve pitch classes, sharps only, C first. */
  const Notes: seq<string> := ["C", "C#", "D", "D#", "E", "F", "F#", "G", "G#", "A", "A#", "B"]

  /** A note as the trainer names it: a pitch-class name and an octave number. */
  datatype Note = Note(name: string, octave: int)

  lemma NotesDistinct()
    ensures |Notes| == 12
    ensures forall i, j :: 0 <= i < j < |Notes| ==> Notes[i] != Notes[j]
  {
  }

  /** Every name is one letter, optionally followed by a sharp sign. */
  lemma NotesShape()
    ensures forall k :: 0 <= k < |Notes| ==>
      (|Notes[k]| == 1 && Notes[k][0] != '#') || (|Notes[k]| == 2 && Notes[k][1] == '#')
  {
  }

  /** `Array.prototype.indexOf` on a list of names: the first position of
      `x`, or -1 when it does not occur (`IndexOfMeaning`). */
  function IndexOf(s: seq<string>, x: string): (i: int)
    ensures -1 <= i < |s|
  {
    IndexFrom(s, x, 0)
  }

  /** The search of `IndexOf` from position `from` on. */
  function IndexFrom(s: seq<string>, x: string, from: nat): (i: int)
    requires from <= |s|
    ensures i == -1 || from <= i < |s|
    decreases |s| - from
  {
    if from == |s| then -1
    else if s[from] == x then from
    else IndexFrom(s, x, from + 1)
  }

  lemma {:induction false} IndexFromMeaning(s: seq<string>, x: string, from: nat)
    requires from <= |s|
    ensures IndexFrom(s, x, from) == -1 <==> forall k :: from <= k < |s| ==> s[k] != x
    ensures IndexFrom(s, x, from) >= 0 ==>
              s[IndexFrom(s, x, from)] == x && forall k :: from <= k < IndexFrom(s, x, from) ==> s[k] != x
    decreases |s| - from
  {
    if from < |s| && s[from] != x {
      IndexFromMeaning(s, x, from + 1);
    }
  }

  /** `IndexOf` gives -1 exactly for an absent name, and otherwise the first
      position holding it. */
  lemma IndexOfMeaning(s: seq<string>, x: string)
    ensures IndexOf(s, x) == -1 <==> x !in s
    ensures IndexOf(s, x) >= 0 ==>
              s[IndexOf(s, x)] == x && forall k :: 0 <= k < IndexOf(s, x) ==> s[k] != x
  {
    IndexFromMeaning(s, x, 0);
  }

  lemma IndexOfNote(k: int)
    requires 0 <= k < |Notes|
    ensures IndexOf(Notes, Notes[k]) == k
  {
    NotesDistinct();
    IndexOfMeaning(Notes, Notes[k]);
  }

  /** JavaScript's `a % 12` on an integer: the quotient is truncated toward
      zero, so the remainder takes the sign of `a`. */
  function JsRem12(a: int): (r: int)
    ensures -12 < r < 12
    ensures a >= 0 ==> r == a % 12
    ensures a < 0 ==> r <= 0
    ensures (a - r) % 12 == 0
  {
    if a >= 0 then a % 12 else -((-a) % 12)
  }

  /** The expression `((x % 12) + 12) % 12`, the trainer's "always positive"
      pitch class of an index. */
  function NonNegMod12(x: int): (r: int)
    ensures 0 <= r < 12
    ensures r == x % 12
  {
    JsRem12(JsRem12(x) + 12)
  }

  /** `Math.floor(x / 12)` on a real argument. */
  function Floor12(x: real): int
  {
    (x / 12.0).Floor
  }

  /** Flooring the real quotient of an integer by 12, after adding any
      nudge below 1, gives Euclidean integer division. */
  lemma Floor12OfInt(m: int, nudge: real)
    requires 0.0 <= nudge < 1.0
    ensures Floor12(m as real + nudge) == m / 12
  {
    var q, r := m / 12, m % 12;
    assert m as real == 12.0 * q as real + r as real;
    var x := (m as real + nudge) / 12.0;
    assert x == q as real + (r as real + nudge) / 12.0;
    assert q as real <= x < q as real + 1.0;
  }

  /** The index of a note: `(octave + 1) * 12 + notes.indexOf(name)`. */
  function NoteIndex(n: Note): int
  {
    (n.octave + 1) * 12 + IndexOf(Notes, n.name)
  }

  /** The name and octave that `midiToSampleName` derives from a MIDI index:
      `notes[m % 12]` and `Math.floor(m / 12) - 1`. JavaScript's plain `%`
      leaves no name for a negative index that is not a multiple of 12 (a
      negative multiple gives `-0`, which names C); the model leaves out
      every negative index. */
  function MidiToNote(m: int): (n: Note)
    requires m >= 0
    ensures n.name == Notes[m % 12]
    ensures n.octave == m / 12 - 1
  {
    Floor12OfInt(m, 0.0);
    Note(Notes[JsRem12(m)], Floor12(m as real) - 1)
  }

  /** Splitting an index and rebuilding it gives the index back, and a note
      of octave -1 or above survives the opposite round trip. */
  lemma MidiNoteRoundTrip(m: int, n: Note)
    requires m >= 0
    requires n.name in Notes && n.octave >= -1
    ensures NoteIndex(MidiToNote(m)) == m
    ensures NoteIndex(n) >= 0 && MidiToNote(NoteIndex(n)) == n
  {
    IndexOfNote(m % 12);
    IndexOfMeaning(Notes, n.name);
    var k := IndexOf(Notes, n.name);
    IndexOfNote(k);
    var i := NoteIndex(n);
    assert i == (n.octave + 1) * 12 + k;
    assert i / 12 == n.octave + 1 && i % 12 == k;
  }

  /** The note `newQuestion` derives from an accepted target index (its
      `targetNoteName`/`targetOctave`, from which the target frequency is
      computed): the non-negative pitch class and
      `Math.floor((t + 0.00001) / 12) - 1`. */
  function TargetNote(t: int): (n: Note)
    ensures n.name == Notes[t % 12]
  {
    Note(Notes[NonNegMod12(t)], Floor12(t as real + 0.00001) - 1)
  }

  /** The target split rebuilds its index for every integer, negative ones
      included, and agrees with `MidiToNote` where that is defined. */
  lemma TargetNoteRoundTrip(t: int)
    ensures TargetNote(t).octave == t / 12 - 1
    ensures NoteIndex(TargetNote(t)) == t
    ensures t >= 0 ==> TargetNote(t) == MidiToNote(t)
  {
    Floor12OfInt(t, 0.00001);
    IndexOfNote(t % 12);
  }

  /** Slider position `idx` stands for MIDI note `21 + idx` (A0 = 21). */
  function SliderIndexToMidi(idx: int): (m: int)
    ensures 0 <= idx <= 87 <==> 21 <= m <= 108
    ensures idx == 0 ==> m == 21
  {
    21 + idx
  }

  function MidiToSliderIndex(m: int): (idx: int)
    ensures 21 <= m <= 108 <==> 0 <= idx <= 87
  {
    m - 21
  }

  lemma SliderMidiInverse(idx: int, m: int)
    ensures MidiToSliderIndex(SliderIndexToMidi(idx)) == idx
    ensures SliderIndexToMidi(MidiToSliderIndex(m)) == m
  {
  }
}
