/** The tuner's per-frame pitch estimator, `autoCorrelate` in
    guitar-app/components/Tuner.tsx: a loudness gate, the lag-product
    autocorrelation of the frame, a walk down the slope after lag 0, the
    search for the strongest later peak, parabolic refinement of its lag and
    a confidence gate.

    Samples are `real`s (no Float32 rounding). The gate `sqrt(Σ x² / n) < 0.005`
    is stated without the square root as `Σ x² / n < 0.005²`. The `-1`
    sentinel becomes `NoPitch`, and so does a zero period, for which the
    source divides by zero. */
module PitchDetection {

  const MinVolume: real := 0.005
  const MinConfidence: real := 0.85

  datatype PitchEstimate = NoPitch | Detected(hz: real)

  /** `Σ_{j < m} s[j]²`, the sum the loudness loop accumulates. */
  function SumSquares(s: seq<real>, m: nat): (r: real)
    requires m <= |s|
    ensures r >= 0.0
  {
    if m == 0 then 0.0 else SumSquares(s, m - 1) + s[m - 1] * s[m - 1]
  }

  /** `Σ_{j < m} s[j] * s[j + lag]`, the inner correlation loop after `m` steps. */
  function LagSum(s: seq<real>, lag: nat, m: nat): real
    requires lag + m <= |s|
  {
    if m == 0 then 0.0 else LagSum(s, lag, m - 1) + s[m - 1] * s[m - 1 + lag]
  }

  /** The autocorrelation of the frame at `lag`. */
  function Correlation(s: seq<real>, lag: nat): real
    requires lag <= |s|
  {
    LagSum(s, lag, |s| - lag)
  }

  /** The `correlations` array: one entry per lag `0 .. |s| - 1`. */
  function Correlations(s: seq<real>): (c: seq<real>)
    ensures |c| == |s|
    ensures forall i :: 0 <= i < |s| ==> c[i] == Correlation(s, i)
  {
    seq(|s|, i requires 0 <= i < |s| => Correlation(s, i))
  }

  /** The correlation at lag 0 is the frame's energy. */
  lemma {:induction false} ZeroLagIsEnergy(s: seq<real>, m: nat)
    requires m <= |s|
    ensures LagSum(s, 0, m) == SumSquares(s, m)
  {
    if m > 0 {
      ZeroLagIsEnergy(s, m - 1);
    }
  }

  /** The loudness gate: a non-empty frame whose mean square is below `0.005²`.
      An empty frame is not quiet: the source's mean `0 / 0` is NaN, and a
      comparison with NaN is false. */
  predicate Quiet(s: seq<real>)
    ensures Quiet(s) <==> |s| > 0 && SumSquares(s, |s|) < MinVolume * MinVolume * (|s| as real)
  {
    |s| > 0 && SumSquares(s, |s|) / (|s| as real) < MinVolume * MinVolume
  }

  /** A frame that passes the loudness gate has positive energy. */
  lemma LoudFrameHasEnergy(s: seq<real>)
    requires |s| > 0 && !Quiet(s)
    ensures Correlation(s, 0) > 0.0
  {
    ZeroLagIsEnergy(s, |s|);
  }

  /** The walk `while (c[d] > c[d + 1]) d++` from `d`: it stops at the first
      lag that is not followed by a smaller value, or at the last lag (the
      source then compares with `undefined`, which is false). */
  function Descend(c: seq<real>, d: nat): (r: nat)
    requires d <= |c|
    ensures d <= r && (d < |c| ==> r < |c|) && (r == d || r < |c|)
    ensures forall k :: d <= k < r ==> c[k] > c[k + 1]
    ensures r + 1 >= |c| || c[r] <= c[r + 1]
    decreases |c| - d
  {
    if d + 1 < |c| && c[d] > c[d + 1] then Descend(c, d + 1) else d
  }

  /** The running maximum of the search loop: `value` and `pos` start at -1. */
  datatype Peak = Peak(value: real, pos: int)

  /** The search loop over lags `lo .. hi - 1`: the first lag holding the
      largest correlation above -1, or `(-1, -1)` when no lag in the range
      exceeds -1 (the empty range included). */
  function PeakIn(c: seq<real>, lo: nat, hi: nat): (p: Peak)
    requires hi <= |c|
    ensures p.pos == -1 ==> p.value == -1.0 && forall k :: lo <= k < hi ==> c[k] <= -1.0
    ensures p.pos != -1 ==>
      lo <= p.pos < hi && p.value == c[p.pos] && p.value > -1.0
      && (forall k :: lo <= k < hi ==> c[k] <= p.value)
      && (forall k :: lo <= k < p.pos ==> c[k] < p.value)
    decreases hi
  {
    if hi <= lo then Peak(-1.0, -1)
    else
      var p := PeakIn(c, lo, hi - 1);
      if c[hi - 1] > p.value then Peak(c[hi - 1], hi - 1) else p
  }

  /** The search bound: the integers `i` with `i < n / 2` in JavaScript's
      real division are those below `(n + 1) / 2`. */
  function SearchEnd(n: nat): (r: nat)
    ensures r <= n
    ensures forall i: int :: 0 <= i < r <==> 0 <= i && 2 * i < n
  {
    (n + 1) / 2
  }

  /** Parabolic refinement of the integer lag `t` through its two neighbours,
      applied only when both neighbours exist and the curvature is non-zero. */
  function Refine(c: seq<real>, t: int): (r: real)
    ensures !(0 < t < |c| - 1) ==> r == t as real
    ensures 0 < t < |c| - 1 && c[t - 1] + c[t + 1] == 2.0 * c[t] ==> r == t as real
  {
    if 0 < t < |c| - 1 then
      var a := (c[t - 1] + c[t + 1] - 2.0 * c[t]) / 2.0;
      var b := (c[t + 1] - c[t - 1]) / 2.0;
      if a != 0.0 then t as real - b / (2.0 * a) else t as real
    else t as real
  }

  function DescentEnd(s: seq<real>): nat {
    Descend(Correlations(s), 0)
  }

  function PeakOf(s: seq<real>): Peak {
    PeakIn(Correlations(s), DescentEnd(s), SearchEnd(|s|))
  }

  /** The refined period `T0`, in samples. */
  function Period(s: seq<real>): real {
    Refine(Correlations(s), PeakOf(s).pos)
  }

  /** What `autoCorrelate(s, rate)` reports for one frame. The confidence gate
      is skipped for an empty frame, where the source divides by an
      undefined `correlations[0]` and compares NaN. */
  function Estimate(s: seq<real>, rate: real): (r: PitchEstimate)
    ensures Quiet(s) ==> r == NoPitch
    ensures r.Detected? ==> Period(s) != 0.0 && r.hz == rate / Period(s)
    ensures |s| > 0 && !Quiet(s) && Correlation(s, 0) > 0.0
      && PeakOf(s).value / Correlation(s, 0) >= MinConfidence && Period(s) != 0.0
      ==> r == Detected(rate / Period(s))
  {
    if Quiet(s) then NoPitch
    else if |s| > 0 && (LoudFrameHasEnergy(s); PeakOf(s).value / Correlation(s, 0) < MinConfidence) then NoPitch
    else if Period(s) == 0.0 then NoPitch
    else Detected(rate / Period(s))
  }

  /** The loudness loop: `Σ buffer[i]²`. */
  method Energy(buffer: array<real>) returns (sumSq: real)
    ensures sumSq == SumSquares(buffer[..], buffer.Length)
  {
    sumSq := 0.0;
    var i := 0;
    while i < buffer.Length
      invariant 0 <= i <= buffer.Length
      invariant sumSq == SumSquares(buffer[..], i)
    {
      sumSq := sumSq + buffer[i] * buffer[i];
      i := i + 1;
    }
  }

  /** The nested loops filling a zero-initialised `correlations` array. */
  method FillCorrelations(buffer: array<real>) returns (corr: array<real>)
    ensures fresh(corr)
    ensures corr[..] == Correlations(buffer[..])
  {
    ghost var s := buffer[..];
    var n := buffer.Length;
    corr := new real[n](_ => 0.0);
    var i := 0;
    while i < n
      invariant 0 <= i <= n
      invariant forall k :: 0 <= k < i ==> corr[k] == Correlation(s, k)
      invariant forall k :: i <= k < n ==> corr[k] == 0.0
    {
      var j := 0;
      while j < n - i
        invariant 0 <= j <= n - i
        invariant corr[i] == LagSum(s, i, j)
        invariant forall k :: 0 <= k < i ==> corr[k] == Correlation(s, k)
        invariant forall k :: i < k < n ==> corr[k] == 0.0
      {
        corr[i] := corr[i] + buffer[j] * buffer[j + i];
        j := j + 1;
      }
      i := i + 1;
    }
  }

  /** The descent walk `while (corr[d] > corr[d + 1]) d++`. */
  method DescentWalk(corr: array<real>) returns (d: nat)
    ensures d == Descend(corr[..], 0)
  {
    ghost var c := corr[..];
    var n := corr.Length;
    d := 0;
    while d + 1 < n && corr[d] > corr[d + 1]
      invariant d <= n && (n > 0 ==> d < n)
      invariant Descend(c, d) == Descend(c, 0)
    {
      d := d + 1;
    }
  }

  /** The search loop `for (i = d; i < SIZE / 2; i++)` keeping the first largest value. */
  method PeakSearch(corr: array<real>, d: nat) returns (maxval: real, maxpos: int)
    requires d <= corr.Length
    ensures Peak(maxval, maxpos) == PeakIn(corr[..], d, SearchEnd(corr.Length))
  {
    ghost var c := corr[..];
    var n := corr.Length;
    maxval, maxpos := -1.0, -1;
    var i := d;
    while 2 * i < n
      invariant d <= i <= n
      invariant i == d || i <= SearchEnd(n)
      invariant Peak(maxval, maxpos) == PeakIn(c, d, i)
    {
      if corr[i] > maxval {
        maxval, maxpos := corr[i], i;
      }
      i := i + 1;
    }
  }

  /** The refinement step: `T0` moved to the vertex of the parabola through
      `corr[T0 - 1 .. T0 + 1]` when both neighbours exist and `a` is non-zero. */
  method RefineAt(corr: array<real>, maxpos: int) returns (t0: real)
    ensures t0 == Refine(corr[..], maxpos)
  {
    t0 := maxpos as real;
    if maxpos > 0 && maxpos < corr.Length - 1 {
      var x1, x2, x3 := corr[maxpos - 1], corr[maxpos], corr[maxpos + 1];
      var a := (x1 + x3 - 2.0 * x2) / 2.0;
      var b := (x3 - x1) / 2.0;
      if a != 0.0 {
        t0 := t0 - b / (2.0 * a);
      }
    }
  }

  /** `autoCorrelate`: the loudness gate, the correlations, the descent walk,
      the peak search, refinement and the confidence gate, computing exactly
      `Estimate`. */
  method AutoCorrelate(buffer: array<real>, sampleRate: real) returns (pitch: PitchEstimate)
    ensures pitch == Estimate(buffer[..], sampleRate)
  {
    ghost var s := buffer[..];
    var n := buffer.Length;
    var sumSq := Energy(buffer);
    if n > 0 && sumSq / (n as real) < MinVolume * MinVolume {
      return NoPitch;
    }
    assert !Quiet(s);
    var corr := FillCorrelations(buffer);
    ghost var c := corr[..];
    var d := DescentWalk(corr);
    var maxval, maxpos := PeakSearch(corr, d);
    assert Peak(maxval, maxpos) == PeakOf(s);

    var t0 := RefineAt(corr, maxpos);
    assert t0 == Period(s);

    if n > 0 {
      LoudFrameHasEnergy(s);
      assert corr[0] == Correlation(s, 0);
      if maxval / corr[0] < MinConfidence {
        return NoPitch;
      }
    }
    if t0 == 0.0 {
      return NoPitch;
    }
    return Detected(sampleRate / t0);
  }

  /** Every sample is zero: the energy is zero. */
  lemma {:induction false} SilenceHasNoEnergy(s: seq<real>, m: nat)
    requires m <= |s|
    requires forall i :: 0 <= i < |s| ==> s[i] == 0.0
    ensures SumSquares(s, m) == 0.0
  {
    if m > 0 {
      SilenceHasNoEnergy(s, m - 1);
    }
  }

  /** A quiet frame, every non-empty all-zero frame included, has no pitch. */
  lemma SilentFrameHasNoPitch(s: seq<real>, rate: real)
    requires |s| > 0
    requires forall i :: 0 <= i < |s| ==> s[i] == 0.0
    ensures Quiet(s) && Estimate(s, rate) == NoPitch
  {
    SilenceHasNoEnergy(s, |s|);
  }

  /** An empty frame slips past both gates (its mean and its confidence are
      NaN) and reports `sampleRate / -1`. */
  lemma EmptyFrameEstimate(rate: real)
    ensures Estimate([], rate) == Detected(-rate)
  {
  }

  /** When no lag of the search range correlates above -1 (an empty range
      included), the confidence is negative and there is no pitch. */
  lemma NoCandidateMeansNoPitch(s: seq<real>, rate: real)
    requires |s| > 0 && PeakOf(s).pos == -1
    ensures Estimate(s, rate) == NoPitch
  {
    if !Quiet(s) {
      LoudFrameHasEnergy(s);
      var e := Correlation(s, 0);
      assert PeakOf(s).value / e < 0.0;
    }
  }

  /** A detected pitch comes from a frame that passed the loudness gate, from a
      real peak of the search range `[d, n/2)` after the descent walk, and
      from a peak carrying at least 85% of the lag-0 correlation. */
  lemma DetectedPitchIsConfident(s: seq<real>, rate: real)
    requires |s| > 0 && Estimate(s, rate).Detected?
    ensures !Quiet(s)
    ensures Correlation(s, 0) > 0.0
    ensures DescentEnd(s) <= PeakOf(s).pos < SearchEnd(|s|)
    ensures PeakOf(s).value == Correlation(s, PeakOf(s).pos)
    ensures PeakOf(s).value / Correlation(s, 0) >= MinConfidence
    ensures Period(s) != 0.0 && Estimate(s, rate).hz == rate / Period(s)
  {
    LoudFrameHasEnergy(s);
    if PeakOf(s).pos == -1 {
      NoCandidateMeansNoPitch(s, rate);
    }
  }

  /** At a local maximum the parabola's vertex lies within half a lag of it. */
  lemma RefineNearLocalMax(c: seq<real>, t: int)
    requires 0 < t < |c| - 1
    requires c[t - 1] <= c[t] && c[t + 1] <= c[t]
    ensures t as real - 0.5 <= Refine(c, t) <= t as real + 0.5
  {
    var a := (c[t - 1] + c[t + 1] - 2.0 * c[t]) / 2.0;
    var b := (c[t + 1] - c[t - 1]) / 2.0;
    if a != 0.0 {
      assert a < 0.0;
      assert -b <= -a && b <= -a;
      var shift := b / (2.0 * a);
      assert shift * (2.0 * a) == b;
      assert -0.5 <= shift <= 0.5;
    }
  }

  /** A peak strictly inside the search range is a local maximum, so its
      refined period stays within half a sample of the integer lag. */
  lemma InteriorPeakRefinesNearby(s: seq<real>)
    requires DescentEnd(s) < PeakOf(s).pos && PeakOf(s).pos + 1 < SearchEnd(|s|)
    ensures PeakOf(s).pos as real - 0.5 <= Period(s) <= PeakOf(s).pos as real + 0.5
  {
    RefineNearLocalMax(Correlations(s), PeakOf(s).pos);
  }
}
