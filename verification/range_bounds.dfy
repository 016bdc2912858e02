/** The rule that keeps a vocal range non-empty: after the two range
    sliders are normalised the minimum lies strictly below the maximum. */
module RangeBounds {

  function Min(a: int, b: int): (r: int)
    ensures r <= a && r <= b && (r == a || r == b)
  {
    if a <= b then a else b
  }

  function Max(a: int, b: int): (r: int)
    ensures r >= a && r >= b && (r == a || r == b)
  {
    if a >= b then a else b
  }

  /** The normalised range for slider values `lo` and `hi`: an ordered pair
      is kept, otherwise the minimum drops to one below the maximum. The
      maximum is never moved. */
  function Normalize(lo: int, hi: int): (r: (int, int))
    ensures r.0 < r.1
    ensures r.0 <= lo
    ensures r.1 == hi
    ensures lo < hi <==> r == (lo, hi)
  {
    if lo < hi then (lo, hi) else (hi - 1, hi)
  }

  /** The slider code's `Math.min`/`Math.max` pair computes `Normalize`. */
  lemma MinMaxNormalizes(lo: int, hi: int)
    ensures var newMin := Min(lo, hi - 1);
            (newMin, Max(hi, newMin + 1)) == Normalize(lo, hi)
  {
  }

  /** Normalising a normalised range changes nothing. */
  lemma NormalizeIdempotent(lo: int, hi: int)
    ensures Normalize(Normalize(lo, hi).0, Normalize(lo, hi).1) == Normalize(lo, hi)
  {
  }
}
