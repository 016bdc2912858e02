/** The index logic of the autocorrelation pitch estimator, over real-valued
    samples: the silence gate, the trimming of quiet edges, the lag-sum
    series, the walk down its initial descent and the search for the best
    lag. The estimator returns the lag; turning it into a frequency
    (`sampleRate / T0`) is floating-point work outside this model. */
module PitchEstimator {

  /** The RMS level below which a buffer counts as silence. */
  const SilenceLevel: real := 0.003

  /** A sample whose magnitude is below this is quiet enough to trim at. */
  const QuietThreshold: real := 0.01

  /** What the estimator reports: no pitch for a silent buffer (the `-1`
      return), otherwise the chosen lag `T0`, which can be -1 or 0 when the
      search finds nothing better. */
  datatype Estimate = NoPitch | Period(lag: int)

  function Abs(x: real): (r: real)
    ensures r >= 0.0 && (r == x || r == -x)
  {
    if x < 0.0 then -x else x
  }

  function SumSquares(s: seq<real>): real
  {
    if |s| == 0 then 0.0 else SumSquares(s[..|s| - 1]) + s[|s| - 1] * s[|s| - 1]
  }

  lemma {:induction false} SumSquaresNonNegative(s: seq<real>)
    ensures SumSquares(s) >= 0.0
  {
    if |s| > 0 {
      SumSquaresNonNegative(s[..|s| - 1]);
      var x := s[|s| - 1];
      assert x * x >= 0.0 by {
        if x < 0.0 {
          assert x * x == (-x) * (-x);
        }
      }
    }
  }

  /** The gate `sqrt(sum / SIZE) < 0.003`, stated without the square root:
      the sum of squares lies below `0.003² · SIZE`. For an empty buffer
      JavaScript compares NaN, which is never below anything, and so does
      this (0 < 0 is false). */
  predicate IsSilent(buf: seq<real>)
  {
    SumSquares(buf) < SilenceLevel * SilenceLevel * |buf| as real
  }

  /** For a non-empty buffer the gate is the mean square against 0.003². */
  lemma SilentMeansQuietMeanSquare(buf: seq<real>)
    requires |buf| > 0
    ensures IsSilent(buf) <==> SumSquares(buf) / |buf| as real < 0.000009
  {
    var n := |buf| as real;
    var mean := SumSquares(buf) / n;
    assert SumSquares(buf) == mean * n;
    if mean < 0.000009 {
      assert mean * n < 0.000009 * n;
    }
    if SumSquares(buf) < 0.000009 * n {
      assert mean * n < 0.000009 * n;
    }
  }

  /** A buffer of silence (all zero) is silent, as long as it has samples. */
  lemma {:induction false} ZeroBufferIsSilent(buf: seq<real>)
    requires |buf| >= 1
    requires forall i :: 0 <= i < |buf| ==> buf[i] == 0.0
    ensures IsSilent(buf)
  {
    ZeroSumSquares(buf);
  }

  lemma {:induction false} ZeroSumSquares(buf: seq<real>)
    requires forall i :: 0 <= i < |buf| ==> buf[i] == 0.0
    ensures SumSquares(buf) == 0.0
  {
    if |buf| > 0 {
      ZeroSumSquares(buf[..|buf| - 1]);
    }
  }

  /** The running sum of squares of the gate's loop. */
  method SumOfSquares(buf: array<real>) returns (sum: real)
    ensures sum == SumSquares(buf[..])
  {
    sum := 0.0;
    for i := 0 to buf.Length
      invariant sum == SumSquares(buf[..i])
    {
      assert buf[..i + 1][..i] == buf[..i];
      sum := sum + buf[i] * buf[i];
    }
    assert buf[..buf.Length] == buf[..];
  }

  /** `r1`: the first quiet sample among positions `i` with `i < SIZE / 2`,
      or 0 when none of them is quiet. */
  predicate IsTrimStart(buf: seq<real>, r1: int)
  {
    (0 <= r1 && 2 * r1 < |buf| && Abs(buf[r1]) < QuietThreshold &&
     forall k :: 0 <= k < r1 ==> Abs(buf[k]) >= QuietThreshold) ||
    (r1 == 0 && forall k :: 0 <= k < |buf| && 2 * k < |buf| ==> Abs(buf[k]) >= QuietThreshold)
  }

  /** `r2`: scanning `SIZE - i` for `1 <= i < SIZE / 2`, the first quiet
      sample from the end, or `SIZE - 1` when none of them is quiet. */
  predicate IsTrimEnd(buf: seq<real>, r2: int)
  {
    (r2 < |buf| < 2 * r2 && Abs(buf[r2]) < QuietThreshold &&
     forall k :: r2 < k < |buf| ==> Abs(buf[k]) >= QuietThreshold) ||
    (r2 == |buf| - 1 && forall k :: 0 <= k < |buf| && |buf| < 2 * k ==> Abs(buf[k]) >= QuietThreshold)
  }

  /** The two trimming scans. A non-empty buffer gets `0 <= r1 <= r2 < SIZE`,
      so the sample at `SIZE - 1` never survives the trim. */
  method TrimBounds(buf: array<real>) returns (r1: int, r2: int)
    ensures IsTrimStart(buf[..], r1) && IsTrimEnd(buf[..], r2)
    ensures buf.Length >= 1 ==> 0 <= r1 <= r2 < buf.Length
    ensures buf.Length == 0 ==> r1 == 0 && r2 == -1
  {
    var n := buf.Length;
    r1, r2 := 0, n - 1;
    var i := 0;
    while 2 * i < n
      invariant 0 <= i <= n && (i == 0 || 2 * (i - 1) < n)
      invariant forall k :: 0 <= k < i ==> Abs(buf[k]) >= QuietThreshold
    {
      if Abs(buf[i]) < QuietThreshold {
        r1 := i;
        break;
      }
      i := i + 1;
    }
    i := 1;
    while 2 * i < n
      invariant 1 <= i && (i == 1 || 2 * (i - 1) < n)
      invariant forall k :: 0 <= k && n - i < k < n ==> Abs(buf[k]) >= QuietThreshold
    {
      if Abs(buf[n - i]) < QuietThreshold {
        r2 := n - i;
        break;
      }
      i := i + 1;
    }
  }

  /** A position argument of `Array.prototype.slice`: negative values count
      from the end, and the result is clamped to `0..n`. */
  function SliceIndex(i: int, n: nat): (r: nat)
    ensures r <= n
    ensures 0 <= i <= n ==> r == i
  {
    if i < 0 then (if n + i < 0 then 0 else n + i)
    else if i > n then n else i
  }

  /** `s.slice(start, end)`. */
  function Slice(s: seq<real>, start: int, end: int): (r: seq<real>)
    ensures 0 <= start <= end <= |s| ==> r == s[start..end]
    ensures |r| <= |s|
  {
    var a, b := SliceIndex(start, |s|), SliceIndex(end, |s|);
    if a < b then s[a..b] else []
  }

  /** `sum over j < count of t[j] * t[j + lag]`. */
  function LagSum(t: seq<real>, lag: nat, count: nat): real
    requires lag + count <= |t|
  {
    if count == 0 then 0.0 else LagSum(t, lag, count - 1) + t[count - 1] * t[count - 1 + lag]
  }

  /** The autocorrelation series `c`: entry `i` sums the products of the
      samples `i` apart. */
  function LagSeries(t: seq<real>): (c: seq<real>)
    ensures |c| == |t|
  {
    seq(|t|, i requires 0 <= i < |t| => LagSum(t, i, |t| - i))
  }

  /** Lag 0 is the energy of the trimmed buffer, never negative. */
  lemma LagZeroIsEnergy(t: seq<real>)
    requires |t| >= 1
    ensures LagSeries(t)[0] == SumSquares(t)
    ensures LagSeries(t)[0] >= 0.0
  {
    LagZeroPrefix(t, |t|);
    assert t[..|t|] == t;
    SumSquaresNonNegative(t);
  }

  lemma {:induction false} LagZeroPrefix(t: seq<real>, count: nat)
    requires count <= |t|
    ensures LagSum(t, 0, count) == SumSquares(t[..count])
  {
    if count > 0 {
      LagZeroPrefix(t, count - 1);
      assert t[..count][..count - 1] == t[..count - 1];
    }
  }

  /** The doubly nested loop that fills `c` in place, starting from zeros. */
  method LagSums(t: seq<real>) returns (c: seq<real>)
    ensures c == LagSeries(t)
  {
    var n := |t|;
    var a := new real[n](_ => 0.0);
    for i := 0 to n
      invariant forall k :: 0 <= k < i ==> a[k] == LagSum(t, k, n - k)
      invariant forall k :: i <= k < n ==> a[k] == 0.0
    {
      for j := 0 to n - i
        invariant a[i] == LagSum(t, i, j)
        invariant forall k :: 0 <= k < i ==> a[k] == LagSum(t, k, n - k)
        invariant forall k :: i < k < n ==> a[k] == 0.0
      {
        a[i] := a[i] + t[j] * t[j + i];
      }
    }
    c := a[..];
  }

  /** `d` ends the initial strictly decreasing run of `c`: every step before
      it goes down, and the step from `d` (if there is one) does not. */
  predicate IsDescentEnd(c: seq<real>, d: int)
  {
    0 <= d && (d < |c| || d == 0) &&
    (forall k :: 0 <= k < d ==> c[k] > c[k + 1]) &&
    (d + 1 < |c| ==> c[d] <= c[d + 1])
  }

  /** `while (c[d] > c[d + 1]) d++`; past the end the comparison is with
      `undefined`, which is false. */
  method DescentEnd(c: seq<real>) returns (d: nat)
    ensures IsDescentEnd(c, d)
  {
    d := 0;
    while d + 1 < |c| && c[d] > c[d + 1]
      invariant d < |c| || d == 0
      invariant forall k :: 0 <= k < d ==> c[k] > c[k + 1]
    {
      d := d + 1;
    }
  }

  /** `maxpos`: the first position from `d` on holding the largest value,
      provided that value exceeds -1; otherwise -1. */
  predicate IsFirstArgMax(c: seq<real>, d: nat, m: int)
  {
    (m == -1 && forall k :: d <= k < |c| ==> c[k] <= -1.0) ||
    (d <= m < |c| && c[m] > -1.0 &&
     (forall k :: d <= k < |c| ==> c[k] <= c[m]) &&
     (forall k :: d <= k < m ==> c[k] < c[m]))
  }

  /** The `maxval`/`maxpos` scan, starting from `maxval = -1`. */
  method FirstArgMax(c: seq<real>, d: nat) returns (maxpos: int)
    ensures IsFirstArgMax(c, d, maxpos)
  {
    var maxval := -1.0;
    maxpos := -1;
    var i := d;
    while i < |c|
      invariant d <= i
      invariant maxpos == -1 ==> maxval == -1.0 && forall k :: d <= k < i && k < |c| ==> c[k] <= -1.0
      invariant maxpos != -1 ==> d <= maxpos < i && maxpos < |c| && maxval == c[maxpos] && maxval > -1.0
      invariant maxpos != -1 ==> forall k :: d <= k < i && k < |c| ==> c[k] <= maxval
      invariant maxpos != -1 ==> forall k :: d <= k < maxpos ==> c[k] < maxval
    {
      if c[i] > maxval {
        maxval := c[i];
        maxpos := i;
      }
      i := i + 1;
    }
  }

  /** When the series does not descend at first, the search cannot come up
      empty: lag 0 holds the energy, which is above -1. */
  lemma NoDescentFindsLag(t: seq<real>, m: int)
    requires |t| >= 1
    requires IsFirstArgMax(LagSeries(t), 0, m)
    ensures 0 <= m < |t|
  {
    LagZeroIsEnergy(t);
  }

  /** `autoCorrelate`: no pitch for a silent buffer; otherwise the lag the
      search picks in the autocorrelation of the trimmed buffer. The ghost
      results name the intermediate `r1`, `r2` and `d`. */
  method AutoCorrelate(buf: array<real>) returns (e: Estimate, ghost r1: int, ghost r2: int, ghost d: nat)
    ensures e.NoPitch? <==> IsSilent(buf[..])
    ensures e.Period? ==> IsTrimStart(buf[..], r1) && IsTrimEnd(buf[..], r2)
    ensures e.Period? ==>
              var c := LagSeries(Slice(buf[..], r1, r2));
              IsDescentEnd(c, d) && IsFirstArgMax(c, d, e.lag)
  {
    r1, r2, d := 0, 0, 0;
    var sum := SumOfSquares(buf);
    if sum < SilenceLevel * SilenceLevel * buf.Length as real {
      return NoPitch, r1, r2, d;
    }
    var start, end := TrimBounds(buf);
    r1, r2 := start, end;
    var trimmed := Slice(buf[..], start, end);
    var c := LagSums(trimmed);
    var descent := DescentEnd(c);
    d := descent;
    var maxpos := FirstArgMax(c, descent);
    e := Period(maxpos);
  }
}
