/** Sample labels such as "C#4" or "A0": the name `midiToSampleName`
    produces for a MIDI index, which keys the piano sample files. The
    octave is written as JavaScript writes an integer in a template
    literal. A parser for labels shows that every index has its own label. */
module SampleLabels {
  import opened Optional
  import opened NoteMath

  predicate IsDigit(c: char)
  {
    '0' <= c <= '9'
  }

  function DigitChar(k: int): (c: char)
    requires 0 <= k < 10
    ensures IsDigit(c)
  {
    (48 + k) as char
  }

  function DigitValue(c: char): int
  {
    c as int - 48
  }

  /** Decimal digits of a natural number, without leading zeros. */
  function NatText(n: nat): (s: string)
    ensures |s| >= 1
    ensures forall i :: 0 <= i < |s| ==> IsDigit(s[i])
  {
    if n < 10 then [DigitChar(n)] else NatText(n / 10) + [DigitChar(n % 10)]
  }

  /** An integer as a template literal writes it: a minus sign before the
      digits of a negative number. */
  function IntText(i: int): (s: string)
    ensures |s| >= 1
    ensures s[0] == '-' || IsDigit(s[0])
  {
    if i < 0 then "-" + NatText(-i) else NatText(i)
  }

  function ParseNat(s: string): (r: Option<nat>)
  {
    if |s| == 0 || !IsDigit(s[|s| - 1]) then None
    else if |s| == 1 then Some(DigitValue(s[0]))
    else
      match ParseNat(s[..|s| - 1])
      case None => None
      case Some(p) => Some(p * 10 + DigitValue(s[|s| - 1]))
  }

  function ParseInt(s: string): Option<int>
  {
    var negative := |s| > 0 && s[0] == '-';
    match ParseNat(if negative then s[1..] else s)
    case None => None
    case Some(n) => Some(if negative then 0 - n else n)
  }

  lemma {:induction false} NatTextRoundTrip(n: nat)
    ensures ParseNat(NatText(n)) == Some(n)
  {
    if n >= 10 {
      var s := NatText(n);
      NatTextRoundTrip(n / 10);
      assert s[..|s| - 1] == NatText(n / 10);
    }
  }

  lemma IntTextRoundTrip(i: int)
    ensures ParseInt(IntText(i)) == Some(i)
  {
    var s := IntText(i);
    if i < 0 {
      NatTextRoundTrip(-i);
      assert s[0] == '-' && s[1..] == NatText(-i);
    } else {
      NatTextRoundTrip(i);
      assert IsDigit(s[0]);
    }
  }

  /** The label of a note: its name followed by its octave number. */
  function NoteLabel(n: Note): string
  {
    n.name + IntText(n.octave)
  }

  /** `midiToSampleName`: the label of the note a MIDI index splits into. */
  function MidiToSampleName(m: int): (text: string)
    requires m >= 0
    ensures text == Notes[m % 12] + IntText(m / 12 - 1)
  {
    NoteLabel(MidiToNote(m))
  }

  /** Reads a label back into a MIDI index: a pitch-class name of one
      letter and an optional sharp, then a decimal octave. */
  function ParseSampleName(s: string): Option<int>
  {
    if |s| == 0 then None
    else
      var nameLength := if |s| >= 2 && s[1] == '#' then 2 else 1;
      var k := IndexOf(Notes, s[..nameLength]);
      if k < 0 then None
      else
        match ParseInt(s[nameLength..])
        case None => None
        case Some(octave) => Some((octave + 1) * 12 + k)
  }

  /** A pitch-class name followed by an octave reads back as the index of
      that note. */
  lemma ParseNoteLabel(k: int, octave: int)
    requires 0 <= k < |Notes|
    ensures ParseSampleName(Notes[k] + IntText(octave)) == Some((octave + 1) * 12 + k)
  {
    var name, digits := Notes[k], IntText(octave);
    assert (|name| == 1 && name[0] != '#') || (|name| == 2 && name[1] == '#') by {
      NotesShape();
    }
    var s := name + digits;
    var nameLength := if |s| >= 2 && s[1] == '#' then 2 else 1;
    SplitLabel(name, digits);
    assert s[..nameLength] == name && s[nameLength..] == digits;
    IndexOfNote(k);
    IntTextRoundTrip(octave);
  }

  /** The name part `ParseSampleName` splits off a label is the name the
      label was built from: one character, or two when the second is '#'. */
  lemma SplitLabel(name: string, digits: string)
    requires (|name| == 1 && name[0] != '#') || (|name| == 2 && name[1] == '#')
    requires |digits| >= 1 && digits[0] != '#'
    ensures var s := name + digits;
            var nameLength := if |s| >= 2 && s[1] == '#' then 2 else 1;
            nameLength == |name| && s[..nameLength] == name && s[nameLength..] == digits
  {
    var s := name + digits;
    if |name| == 1 {
      assert s[1] == digits[0];
    }
    assert s[..|name|] == name;
    assert s[|name|..] == digits;
  }

  /** A note's label reads back as the note's index, for every octave,
      negative ones included. */
  lemma NoteLabelRoundTrip(n: Note, k: int)
    requires 0 <= k < |Notes| && n.name == Notes[k]
    ensures ParseSampleName(NoteLabel(n)) == Some(NoteIndex(n))
  {
    IndexOfNote(k);
    ParseNoteLabel(k, n.octave);
    assert NoteLabel(n) == Notes[k] + IntText(n.octave);
  }

  /** The label of every non-negative index reads back as that index. */
  lemma SampleNameRoundTrip(m: int)
    requires m >= 0
    ensures ParseSampleName(MidiToSampleName(m)) == Some(m)
  {
    var k, octave := m % 12, m / 12 - 1;
    assert (octave + 1) * 12 + k == m;
    ParseNoteLabel(k, octave);
    assert MidiToSampleName(m) == Notes[k] + IntText(octave);
  }

  /** Distinct notes have distinct sample labels. */
  lemma SampleNameInjective(m1: int, m2: int)
    requires m1 >= 0 && m2 >= 0
    requires MidiToSampleName(m1) == MidiToSampleName(m2)
    ensures m1 == m2
  {
    SampleNameRoundTrip(m1);
    SampleNameRoundTrip(m2);
  }

  /** The label `sliderIndexToNoteName` shows for a slider position. */
  function SliderIndexToNoteName(idx: int): (text: string)
    requires idx >= -21
    ensures ParseSampleName(text) == Some(SliderIndexToMidi(idx))
  {
    SampleNameRoundTrip(SliderIndexToMidi(idx));
    MidiToSampleName(SliderIndexToMidi(idx))
  }
}
