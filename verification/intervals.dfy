/** The interval catalogue: twelve named intervals and their distances in
    semitones, from the minor second (1) to the octave (12). */
module Intervals {
  import opened Optional

  /** The catalogue object, as a map from interval name to distance. */
  const Catalogue: map<string, nat> := map[
    "minor 2nd" := 1,
    "major 2nd" := 2,
    "minor 3rd" := 3,
    "major 3rd" := 4,
    "perfect 4th" := 5,
    "tritone" := 6,
    "perfect 5th" := 7,
    "minor 6th" := 8,
    "major 6th" := 9,
    "minor 7th" := 10,
    "major 7th" := 11,
    "octave" := 12
  ]

  /** `intervals[name]`: the distance of a named interval; a name outside
      the catalogue has none (JavaScript reads `undefined`). */
  function Distance(name: string): (r: Option<nat>)
    ensures r.None? <==> name !in Catalogue
    ensures r.Some? ==> r.value == Catalogue[name] && 1 <= r.value <= 12
  {
    if name in Catalogue then Some(Catalogue[name]) else None
  }

  /** The catalogue names twelve intervals. */
  lemma CatalogueSize()
    ensures |Catalogue| == 12
  {
  }

  /** Different names have different distances; with twelve names whose
      distances lie in 1..12, every distance 1..12 occurs exactly once. */
  lemma DistancesDistinct(a: string, b: string)
    requires a in Catalogue && b in Catalogue && a != b
    ensures Catalogue[a] != Catalogue[b]
  {
  }
}
