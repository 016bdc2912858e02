/** The settings page: its own copy of the interval catalogue, the labels
    shown under the two range sliders, and the rule that keeps the two
    sliders ordered. */
module SettingsPage {
  import opened Optional
  import opened NoteMath
  import opened RangeBounds
  import Intervals
  import SampleLabels

  /** The page's copy of the interval catalogue. */
  const Catalogue: map<string, nat> := map[
    "minor 2nd" := 1,
    "major 2nd" := 2,
    "minor 3rd" := 3,
    "major 3rd" := 4,
    "perfect 4th" := 5,
    "tritone" := 6,
    "perfect 5th" := 7,
    "minor 6th" := 8,
    "major 6th" := 9,
    "minor 7th" := 10,
    "major 7th" := 11,
    "octave" := 12
  ]

  /** The copy agrees with the trainer's catalogue entry for entry. */
  lemma SameCatalogue()
    ensures Catalogue == Intervals.Catalogue
  {
  }

  /** The copy names twelve intervals with distinct distances in 1..12. */
  lemma CatalogueShape(a: string, b: string)
    ensures |Catalogue| == 12
    ensures a in Catalogue ==> 1 <= Catalogue[a] <= 12
    ensures a in Catalogue && b in Catalogue && a != b ==> Catalogue[a] != Catalogue[b]
  {
    SameCatalogue();
    Intervals.CatalogueSize();
    if a in Catalogue {
      assert Intervals.Distance(a).Some?;
    }
    if a in Catalogue && b in Catalogue && a != b {
      Intervals.DistancesDistinct(a, b);
    }
  }

  /** `midiToName`: the name at the index's JavaScript remainder by 12,
      followed by `Math.floor(midi / 12) - 1`. */
  function MidiToName(midi: int): (text: string)
    requires midi >= 0
    ensures text == SampleLabels.MidiToSampleName(midi)
    ensures SampleLabels.ParseSampleName(text) == Some(midi)
  {
    Floor12OfInt(midi, 0.0);
    assert midi as real + 0.0 == midi as real;
    SampleLabels.SampleNameRoundTrip(midi);
    Notes[JsRem12(midi)] + SampleLabels.IntText(Floor12(midi as real) - 1)
  }

  /** The label `updateLabels` shows under a slider at position `idx`: it
      names the MIDI index `21 + idx`, exactly as the trainer page does. */
  function SliderLabel(idx: int): (text: string)
    requires idx >= -21
    ensures text == SampleLabels.SliderIndexToNoteName(idx)
    ensures SampleLabels.ParseSampleName(text) == Some(21 + idx)
  {
    MidiToName(SliderIndexToMidi(idx))
  }

  /** The two range sliders of the settings form. */
  class SettingsForm {
    var minSlider: int
    var maxSlider: int

    constructor (minValue: int, maxValue: int)
      ensures minSlider == minValue && maxSlider == maxValue
    {
      minSlider, maxSlider := minValue, maxValue;
    }

    /** `enforceBounds`: the sliders become the normalised pair, so the
        minimum ends strictly below the maximum, never above where it was,
        and the maximum stays where it was. */
    method EnforceBounds()
      modifies this
      ensures (minSlider, maxSlider) == Normalize(old(minSlider), old(maxSlider))
      ensures minSlider < maxSlider && minSlider <= old(minSlider) && maxSlider >= old(maxSlider)
    {
      MinMaxNormalizes(minSlider, maxSlider);
      var minVal := Min(minSlider, maxSlider - 1);
      var maxVal := Max(maxSlider, minVal + 1);
      minSlider := minVal;
      maxSlider := maxVal;
    }
  }

  /** A second `enforceBounds` changes nothing: `RangeBounds.NormalizeIdempotent`
      restated for the settings page's sliders. */
  lemma EnforceBoundsIdempotent(lo: int, hi: int)
    ensures var r := Normalize(lo, hi);
            Normalize(r.0, r.1) == r
  {
    NormalizeIdempotent(lo, hi);
  }
}
