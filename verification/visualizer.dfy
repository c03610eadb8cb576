/**
 * The per-frame waveform extractor behind the visualiser band
 * (src/app/visualizer.rs, up to the painter calls). Samples are reals; the
 * square root, exponential and hyperbolic tangent come from a lawful `Math`.
 */
module Visualizer {
  import opened Numeric
  import opened Sorting
  import opened VisBuffers

  /** `catmull_rom`: the uniform Catmull-Rom cubic through four samples. */
  function CatmullRom(y0: real, y1: real, y2: real, y3: real, t: real): real {
    var t2 := t * t;
    var t3 := t2 * t;
    0.5 * ((2.0 * y1)
      + (-y0 + y2) * t
      + (2.0 * y0 - 5.0 * y1 + 4.0 * y2 - y3) * t2
      + (-y0 + 3.0 * y1 - 3.0 * y2 + y3) * t3)
  }

  /** Four equal control points give that value at every parameter. */
  lemma CatmullRomConstant(y: real, t: real)
    ensures CatmullRom(y, y, y, y, t) == y
  {
    assert -y + y == 0.0;
    assert 2.0 * y - 5.0 * y + 4.0 * y - y == 0.0;
    assert -y + 3.0 * y - 3.0 * y + y == 0.0;
  }

  /** The spline interpolates: it passes through `y1` at 0 and `y2` at 1. */
  lemma CatmullRomInterpolates(y0: real, y1: real, y2: real, y3: real)
    ensures CatmullRom(y0, y1, y2, y3, 0.0) == y1
    ensures CatmullRom(y0, y1, y2, y3, 1.0) == y2
  {
  }

  /** The floor the automatic gain control never lets its envelope go under. */
  const P90_FLOOR: real := 0.0001

  /**
   * `p90_in_place`: the value at rank `min(floor(0.9 * len), len - 1)` of
   * the buffer in ascending order, but never below `1e-4`; `1e-4` for an
   * empty buffer.
   */
  function P90InPlace(buf: seq<real>): (r: real)
    ensures r >= P90_FLOOR
    ensures buf == [] ==> r == P90_FLOOR
  {
    if buf == [] then P90_FLOOR else Max(NthSmallest(buf, Rank90(|buf|)), P90_FLOOR)
  }

  /**
   * On a non-empty buffer the result is the value at the 90th-percentile
   * rank, raised to the floor.
   */
  lemma P90Rank(buf: seq<real>)
    requires buf != []
    ensures Rank90(|buf|) < |buf|
    ensures P90InPlace(buf) == Max(NthSmallest(buf, Rank90(|buf|)), P90_FLOOR)
    ensures P90InPlace(buf) in buf || P90InPlace(buf) == P90_FLOOR
  {
  }

  /** The visualiser band: 28% of the panel height, clamped to [80, 200]. */
  function BandHeight(fullHeight: real): (h: real)
    ensures 80.0 <= h <= 200.0
  {
    Clamp(fullHeight * 0.28, 80.0, 200.0)
  }

  /** The band is never shorter than 40, so the early return for it never fires. */
  lemma BandNeverTooShort(fullHeight: real)
    ensures !(BandHeight(fullHeight) < 40.0)
  {
  }

  /** `fast_w`: samples per bar over one and a half, clamped to [32, 256]. */
  function FastWindow(len: nat, n: nat): (fw: nat)
    requires n >= 120
    ensures 32 <= fw <= 256
  {
    ToUsize(Clamp(len as real / (n as real * 1.5), 32.0, 256.0))
  }

  /** `slow_w = (4 * fast_w).clamp(fast_w + 8, 2048)`: always exactly `4 * fast_w`. */
  function SlowWindow(fw: nat): (sw: nat)
    requires 32 <= fw <= 256
    ensures fw + 8 <= sw <= 2048
    ensures sw == 4 * fw
  {
    ClampInt(4 * fw, fw + 8, 2048)
  }

  /** `hop = max(0.5 * fast_w, 12)`, truncated: half the fast window. */
  function Hop(fw: nat): (hop: nat)
    requires 32 <= fw <= 256
    ensures hop >= 12 && hop == fw / 2
  {
    ToUsize(Max(fw as real * 0.5, 12.0))
  }

  /** `usize::saturating_sub` */
  function SatSub(a: nat, b: nat): (r: nat)
    ensures r == if a >= b then a - b else 0
  {
    if a >= b then a - b else 0
  }

  /** The sum of the squares of `s`. */
  function SumSq(s: seq<real>): (r: real)
    ensures r >= 0.0
  {
    if s == [] then 0.0 else SumSq(s[..|s| - 1]) + Sq(s[|s| - 1])
  }

  /** The largest magnitude in `s`, or 0 for an empty run. */
  function PeakAbs(s: seq<real>): (r: real)
    ensures r >= 0.0
  {
    if s == [] then 0.0
    else
      var p := PeakAbs(s[..|s| - 1]);
      if Abs(s[|s| - 1]) > p then Abs(s[|s| - 1]) else p
  }

  /** No sample of `s` exceeds its peak in magnitude. */
  lemma {:induction false} PeakAbsBounds(s: seq<real>)
    ensures forall i :: 0 <= i < |s| ==> Abs(s[i]) <= PeakAbs(s)
  {
    if s != [] {
      var t := s[..|s| - 1];
      PeakAbsBounds(t);
      assert forall i :: 0 <= i < |t| ==> t[i] == s[i];
    }
  }

  /** The peak of a non-empty run is the magnitude of one of its samples. */
  lemma {:induction false} PeakAbsAttained(s: seq<real>)
    requires s != []
    ensures exists i :: 0 <= i < |s| && Abs(s[i]) == PeakAbs(s)
  {
    var t := s[..|s| - 1];
    if t != [] && PeakAbs(s) == PeakAbs(t) {
      PeakAbsAttained(t);
      var i :| 0 <= i < |t| && Abs(t[i]) == PeakAbs(t);
      assert s[i] == t[i];
    } else if t == [] {
      assert PeakAbs(t) == 0.0;
      assert Abs(s[0]) == PeakAbs(s);
    }
  }

  /** Prefix sums split: the squares of `s[a..b]` are a difference of two prefixes. */
  lemma {:induction false} SumSqWindow(s: seq<real>, a: nat, b: nat)
    requires a <= b <= |s|
    ensures SumSq(s[..b]) - SumSq(s[..a]) == SumSq(s[a..b])
    decreases b - a
  {
    if a < b {
      SumSqWindow(s, a, b - 1);
      assert s[..b][..b - 1] == s[..b - 1];
      assert s[a..b][..b - a - 1] == s[a..b - 1];
      assert s[a..b][b - a - 1] == s[b - 1];
    } else {
      assert s[a..b] == [];
    }
  }

  /** The index the backward hop walk has reached after `k` hops from the end. */
  function HopIdx(len: nat, hop: nat, k: nat): (idx: nat)
    ensures idx <= len
  {
    if k == 0 then len else SatSub(HopIdx(len, hop, k - 1), hop)
  }

  /** One fast-window value: 65% RMS plus 35% peak over `raw[idx - fw..idx]`. */
  function FastAt(m: Math, raw: seq<real>, fw: nat, idx: nat): real
    requires 0 < fw <= idx <= |raw|
  {
    var w := raw[idx - fw..idx];
    m.sqrt(SumSq(w) / fw as real) * 0.65 + PeakAbs(w) * 0.35
  }

  /** One slow-window value: the RMS over the up to `sw` samples before `idx`. */
  function SlowAt(m: Math, raw: seq<real>, sw: nat, idx: nat): real
    requires 0 < idx <= |raw| && sw > 0
  {
    var w := raw[SatSub(idx, sw)..idx];
    m.sqrt(SumSq(w) / |w| as real)
  }

  /** Onset weighting: 75% of the fast value plus 60% of its rise over the slow one. */
  function Onset(fast: seq<real>, slow: seq<real>): (vals: seq<real>)
    requires |fast| == |slow|
    ensures |vals| == |fast|
    ensures forall i :: 0 <= i < |fast| ==> vals[i] == fast[i] * 0.75 + Max(fast[i] - slow[i], 0.0) * 0.60
  {
    seq(|fast|, i requires 0 <= i < |fast| => fast[i] * 0.75 + Max(fast[i] - slow[i], 0.0) * 0.60)
  }

  /** The soft-saturation knee. */
  const KNEE: real := 1.8

  /** `1 / tanh(knee)`, the factor that maps the knee's saturation level to 1. */
  function InvNorm(m: Math): (r: real)
    requires Lawful(m)
    ensures r > 1.0
  {
    var th := m.tanh(KNEE);
    assert 0.0 < th < 1.0;
    InvAboveOne(th);
    1.0 / th
  }

  lemma InvAboveOne(x: real)
    requires 0.0 < x < 1.0
    ensures 1.0 / x > 1.0
  {
  }

  /** One value through the gain and the soft knee. */
  function SaturateOne(m: Math, v: real, gain: real, inv: real): real {
    Knee(m, v * gain, inv)
  }

  /** The soft knee: `tanh(KNEE * x)` rescaled by `inv`. */
  function Knee(m: Math, x: real, inv: real): real {
    m.tanh(KNEE * x) * inv
  }

  /** A silent value stays silent through the gain and the knee. */
  lemma SaturateZero(m: Math, gain: real, inv: real)
    requires Lawful(m)
    ensures SaturateOne(m, 0.0, gain, inv) == 0.0
  {
    assert KNEE * (0.0 * gain) == 0.0;
  }

  /** The knee maps every value into `(-inv, inv)`. */
  lemma SaturateBounded(m: Math, v: real, gain: real, inv: real)
    requires Lawful(m) && inv > 0.0
    ensures -inv < SaturateOne(m, v, gain, inv) < inv
  {
    var th := m.tanh(KNEE * (v * gain));
    assert -1.0 < th < 1.0;
    ScaleBoundsUnit(th, inv);
  }

  lemma ScaleBoundsUnit(th: real, inv: real)
    requires -1.0 < th < 1.0 && inv > 0.0
    ensures -inv < th * inv < inv
  {
    if th >= 0.0 {
      assert th * inv < 1.0 * inv;
    } else {
      assert (-th) * inv < 1.0 * inv;
    }
  }

  /** Gain, then `tanh(knee * v) * inv` on every value. */
  function Saturate(m: Math, vals: seq<real>, gain: real, inv: real): (r: seq<real>)
    ensures |r| == |vals|
    ensures forall i :: 0 <= i < |vals| ==> r[i] == SaturateOne(m, vals[i], gain, inv)
  {
    seq(|vals|, i requires 0 <= i < |vals| => SaturateOne(m, vals[i], gain, inv))
  }

  /** The four control-point indices of bar `k` out of `n`, resampling `m` values. */
  function ResampleIdx(k: nat, n: nat, m: nat): (r: (nat, nat, nat, nat, real))
    requires 8 <= m && 120 <= n && k < n
    ensures r.0 < m && r.1 < m && r.2 < m && r.3 < m
  {
    var u := (k as real) * ((m - 1) as real) / ((n - 1) as real);
    var i1 := u.Floor;
    var t := u - i1 as real;
    (ClampInt(i1 - 1, 0, m - 1), ClampInt(i1, 0, m - 1),
     ClampInt(i1 + 1, 0, m - 1), ClampInt(i1 + 2, 0, m - 1), t)
  }

  /** Bar `k` of the resampled curve. */
  function ResampleAt(vals: seq<real>, n: nat, k: nat): real
    requires 8 <= |vals| && 120 <= n && k < n
  {
    var r := ResampleIdx(k, n, |vals|);
    CatmullRom(vals[r.0], vals[r.1], vals[r.2], vals[r.3], r.4)
  }

  /** A constant set of values resamples to that constant on every bar. */
  lemma ResampleConstant(vals: seq<real>, n: nat, c: real)
    requires 8 <= |vals| && 120 <= n
    requires forall i :: 0 <= i < |vals| ==> vals[i] == c
    ensures forall k :: 0 <= k < n ==> ResampleAt(vals, n, k) == c
  {
    forall k | 0 <= k < n
      ensures ResampleAt(vals, n, k) == c
    {
      CatmullRomConstant(c, ResampleIdx(k, n, |vals|).4);
    }
  }

  /** One 1-2-1 pass: interior bars averaged with their original neighbours. */
  function Blur(s: seq<real>): (r: seq<real>)
    requires |s| >= 2
    ensures |r| == |s| && r[0] == s[0] && r[|s| - 1] == s[|s| - 1]
    ensures forall i :: 1 <= i < |s| - 1 ==> r[i] == 0.25 * s[i - 1] + 0.5 * s[i] + 0.25 * s[i + 1]
  {
    seq(|s|, i requires 0 <= i < |s| =>
      if i == 0 || i == |s| - 1 then s[i] else 0.25 * s[i - 1] + 0.5 * s[i] + 0.25 * s[i + 1])
  }

  /** All values of `s` lie in `[lo, hi]`. */
  predicate Within(s: seq<real>, lo: real, hi: real) {
    forall i :: 0 <= i < |s| ==> lo <= s[i] <= hi
  }

  /** A blur pass keeps every bar within the range of its input. */
  lemma BlurWithin(s: seq<real>, lo: real, hi: real)
    requires |s| >= 2 && Within(s, lo, hi)
    ensures Within(Blur(s), lo, hi)
  {
  }

  /** Attack/release integration: each bar follows its target with `aUp` or `aDn`. */
  function Integrate(cur: seq<real>, des: seq<real>, aUp: real, aDn: real): (r: seq<real>)
    requires |cur| == |des| && 0.0 < aUp < 1.0 && 0.0 < aDn < 1.0
    ensures |r| == |cur|
    ensures forall i :: 0 <= i < |cur| ==>
      r[i] == Follow(cur[i], des[i], if des[i] > cur[i] then aUp else aDn)
    ensures forall i :: 0 <= i < |cur| ==> Min(cur[i], des[i]) <= r[i] <= Max(cur[i], des[i])
  {
    seq(|cur|, i requires 0 <= i < |cur| =>
      Follow(cur[i], des[i], if des[i] > cur[i] then aUp else aDn))
  }

  /**
   * The final in-place smoothing after bars `1..i-1` have been visited:
   * each visited bar is averaged with its already smoothed left neighbour
   * and its untouched right neighbour.
   */
  function SmoothUpTo(s: seq<real>, i: nat): (r: seq<real>)
    requires 1 <= i <= |s| - 1 || (i == 1 && |s| <= 1)
    ensures |r| == |s|
    decreases i
  {
    if i <= 1 then s
    else
      var p := SmoothUpTo(s, i - 1);
      p[i - 1 := (p[i - 2] + 2.0 * p[i - 1] + p[i]) * 0.25]
  }

  /** What the final pass leaves: the left neighbour read is the smoothed one. */
  lemma {:induction false} SmoothUpToShape(s: seq<real>, i: nat)
    requires 1 <= i <= |s| - 1
    ensures forall j :: i <= j < |s| ==> SmoothUpTo(s, i)[j] == s[j]
    ensures SmoothUpTo(s, i)[0] == s[0]
    ensures forall j :: 1 <= j < i ==>
      SmoothUpTo(s, i)[j] == (SmoothUpTo(s, i)[j - 1] + 2.0 * s[j] + s[j + 1]) * 0.25
    decreases i
  {
    if i > 1 {
      SmoothUpToShape(s, i - 1);
    }
  }

  /** The largest magnitude of the bars. */
  function MaxAbs(s: seq<real>): (r: real)
    ensures r >= 0.0 && forall i :: 0 <= i < |s| ==> Abs(s[i]) <= r
  {
    PeakAbsBounds(s);
    PeakAbs(s)
  }

  /** Bars bounded by `b` in magnitude stay so through the final smoothing. */
  lemma {:induction false} SmoothUpToBounded(s: seq<real>, i: nat, b: real)
    requires 1 <= i <= |s| - 1
    requires forall j :: 0 <= j < |s| ==> Abs(s[j]) <= b
    ensures forall j :: 0 <= j < |s| ==> Abs(SmoothUpTo(s, i)[j]) <= b
    decreases i
  {
    if i > 1 {
      SmoothUpToBounded(s, i - 1, b);
    }
  }

  /** `s` in reverse order (`Vec::reverse`). */
  function Reversed(s: seq<real>): (r: seq<real>)
    ensures |r| == |s| && forall i :: 0 <= i < |s| ==> r[i] == s[|s| - 1 - i]
  {
    seq(|s|, i requires 0 <= i < |s| => s[|s| - 1 - i])
  }

  /** Entry `i` of `s2` holds the sum of the squares of the first `i` samples of `raw`. */
  ghost predicate PrefixSums(raw: seq<real>, s2: seq<real>) {
    |s2| == |raw| + 1 && forall i {:trigger s2[i]} :: 0 <= i <= |raw| ==> s2[i] == SumSq(raw[..i])
  }

  /** The prefix loop: entry `i` holds the sum of the squares of the first `i` samples. */
  method PrefixSquares(raw: seq<real>) returns (s2: seq<real>)
    ensures PrefixSums(raw, s2)
  {
    s2 := seq(|raw| + 1, _ => 0.0);
    var i := 0;
    while i < |raw|
      invariant 0 <= i <= |raw| && |s2| == |raw| + 1
      invariant forall j :: 0 <= j <= i ==> s2[j] == SumSq(raw[..j])
    {
      assert raw[..i + 1][..i] == raw[..i];
      s2 := s2[i + 1 := s2[i] + raw[i] * raw[i]];
      i := i + 1;
    }
  }

  /** The peak loop over one fast window. */
  method PeakOf(raw: seq<real>, a: nat, b: nat) returns (peak: real)
    requires a <= b <= |raw|
    ensures peak == PeakAbs(raw[a..b])
  {
    peak := 0.0;
    var i := a;
    while i < b
      invariant a <= i <= b
      invariant peak == PeakAbs(raw[a..i])
    {
      assert raw[a..i + 1][..i - a] == raw[a..i];
      var x := Abs(raw[i]);
      if x > peak {
        peak := x;
      }
      i := i + 1;
    }
  }

  /** The fast value at `idx`, read off the prefix sums and a peak scan. */
  method FastValue(m: Math, raw: seq<real>, s2: seq<real>, fw: nat, idx: nat) returns (v: real)
    requires 0 < fw <= idx <= |raw|
    requires PrefixSums(raw, s2)
    ensures v == FastAt(m, raw, fw, idx)
  {
    var startF := idx - fw;
    SumSqWindow(raw, startF, idx);
    var sumsqF := s2[idx] - s2[startF];
    var rmsF := m.sqrt(sumsqF / fw as real);
    var peak := PeakOf(raw, startF, idx);
    v := rmsF * 0.65 + peak * 0.35;
  }

  /** The slow value at `idx`, over the up to `sw` samples before it. */
  method SlowValue(m: Math, raw: seq<real>, s2: seq<real>, sw: nat, idx: nat) returns (v: real)
    requires 0 < sw && 0 < idx <= |raw|
    requires PrefixSums(raw, s2)
    ensures v == SlowAt(m, raw, sw, idx)
  {
    var startS := SatSub(idx, sw);
    SumSqWindow(raw, startS, idx);
    var lenS := idx - startS;
    var sumsqS := s2[idx] - s2[startS];
    v := m.sqrt(sumsqS / lenS as real);
  }

  /** The walk only moves backwards: each hop index is at most the previous one. */
  lemma {:induction false} HopIdxMonotone(len: nat, hop: nat, j: nat, k: nat)
    requires j <= k
    ensures HopIdx(len, hop, k) <= HopIdx(len, hop, j)
    decreases k - j
  {
    if j < k {
      HopIdxMonotone(len, hop, j, k - 1);
    }
  }

  /** The first `k` fast values of the walk, newest first. */
  function FastRun(m: Math, raw: seq<real>, fw: nat, hop: nat, k: nat): (r: seq<real>)
    requires 0 < fw && (k == 0 || fw <= HopIdx(|raw|, hop, k - 1))
    ensures |r| == k
    decreases k
  {
    if k == 0 then []
    else
      assert k == 1 || fw <= HopIdx(|raw|, hop, k - 2) by {
        if k >= 2 { HopIdxMonotone(|raw|, hop, k - 2, k - 1); }
      }
      FastRun(m, raw, fw, hop, k - 1) + [FastAt(m, raw, fw, HopIdx(|raw|, hop, k - 1))]
  }

  /** The first `k` slow values of the walk, newest first. */
  function SlowRun(m: Math, raw: seq<real>, fw: nat, sw: nat, hop: nat, k: nat): (r: seq<real>)
    requires 0 < fw && 0 < sw && (k == 0 || fw <= HopIdx(|raw|, hop, k - 1))
    ensures |r| == k
    decreases k
  {
    if k == 0 then []
    else
      assert k == 1 || fw <= HopIdx(|raw|, hop, k - 2) by {
        if k >= 2 { HopIdxMonotone(|raw|, hop, k - 2, k - 1); }
      }
      SlowRun(m, raw, fw, sw, hop, k - 1) + [SlowAt(m, raw, sw, HopIdx(|raw|, hop, k - 1))]
  }

  /** Every hop position before the last one the walk reached lies inside `raw`. */
  lemma HopIdxFits(len: nat, fw: nat, hop: nat, k: nat, j: nat)
    requires j < k && fw <= HopIdx(len, hop, k - 1)
    ensures fw <= HopIdx(len, hop, j) <= len
  {
    HopIdxMonotone(len, hop, j, k - 1);
  }

  /** The last entry of a run is the value at the last hop position. */
  lemma FastRunLast(m: Math, raw: seq<real>, fw: nat, hop: nat, k: nat)
    requires 0 < fw && 0 < k && fw <= HopIdx(|raw|, hop, k - 1)
    ensures FastRun(m, raw, fw, hop, k)[k - 1] == FastAt(m, raw, fw, HopIdx(|raw|, hop, k - 1))
  {
  }

  /** Extending a run leaves its earlier entries alone. */
  lemma FastRunStable(m: Math, raw: seq<real>, fw: nat, hop: nat, k: nat, j: nat)
    requires 0 < fw && j < k - 1 && fw <= HopIdx(|raw|, hop, k - 1)
    ensures fw <= HopIdx(|raw|, hop, k - 2)
    ensures FastRun(m, raw, fw, hop, k)[j] == FastRun(m, raw, fw, hop, k - 1)[j]
  {
    HopIdxFits(|raw|, fw, hop, k, k - 2);
  }

  /** Entry `j` of the fast run is the fast value at the `j`-th hop position. */
  lemma {:induction false} FastRunAt(m: Math, raw: seq<real>, fw: nat, hop: nat, k: nat, j: nat)
    requires 0 < fw && j < k && fw <= HopIdx(|raw|, hop, k - 1)
    ensures fw <= HopIdx(|raw|, hop, j)
    ensures FastRun(m, raw, fw, hop, k)[j] == FastAt(m, raw, fw, HopIdx(|raw|, hop, j))
    decreases k
  {
    HopIdxFits(|raw|, fw, hop, k, j);
    if j < k - 1 {
      FastRunStable(m, raw, fw, hop, k, j);
      FastRunAt(m, raw, fw, hop, k - 1, j);
    } else {
      FastRunLast(m, raw, fw, hop, k);
    }
  }

  /** The last entry of a slow run is the value at the last hop position. */
  lemma SlowRunLast(m: Math, raw: seq<real>, fw: nat, sw: nat, hop: nat, k: nat)
    requires 0 < fw && 0 < sw && 0 < k && fw <= HopIdx(|raw|, hop, k - 1)
    ensures SlowRun(m, raw, fw, sw, hop, k)[k - 1] == SlowAt(m, raw, sw, HopIdx(|raw|, hop, k - 1))
  {
  }

  /** Extending a slow run leaves its earlier entries alone. */
  lemma SlowRunStable(m: Math, raw: seq<real>, fw: nat, sw: nat, hop: nat, k: nat, j: nat)
    requires 0 < fw && 0 < sw && j < k - 1 && fw <= HopIdx(|raw|, hop, k - 1)
    ensures fw <= HopIdx(|raw|, hop, k - 2)
    ensures SlowRun(m, raw, fw, sw, hop, k)[j] == SlowRun(m, raw, fw, sw, hop, k - 1)[j]
  {
    HopIdxFits(|raw|, fw, hop, k, k - 2);
  }

  /** Entry `j` of the slow run is the slow value at the `j`-th hop position. */
  lemma {:induction false} SlowRunAt(m: Math, raw: seq<real>, fw: nat, sw: nat, hop: nat, k: nat, j: nat)
    requires 0 < fw && 0 < sw && j < k && fw <= HopIdx(|raw|, hop, k - 1)
    ensures fw <= HopIdx(|raw|, hop, j)
    ensures SlowRun(m, raw, fw, sw, hop, k)[j] == SlowAt(m, raw, sw, HopIdx(|raw|, hop, j))
    decreases k
  {
    HopIdxFits(|raw|, fw, hop, k, j);
    if j < k - 1 {
      SlowRunStable(m, raw, fw, sw, hop, k, j);
      SlowRunAt(m, raw, fw, sw, hop, k - 1, j);
    } else {
      SlowRunLast(m, raw, fw, sw, hop, k);
    }
  }

  /** The pair of values the walk appends at its `k`-th position. */
  method HopValues(m: Math, raw: seq<real>, s2: seq<real>, fw: nat, sw: nat, hop: nat, k: nat)
    returns (f: real, w: real)
    requires 0 < fw && 0 < sw && fw <= HopIdx(|raw|, hop, k)
    requires PrefixSums(raw, s2)
    ensures FastRun(m, raw, fw, hop, k + 1) == FastRun(m, raw, fw, hop, k) + [f]
    ensures SlowRun(m, raw, fw, sw, hop, k + 1) == SlowRun(m, raw, fw, sw, hop, k) + [w]
  {
    f := FastValue(m, raw, s2, fw, HopIdx(|raw|, hop, k));
    w := SlowValue(m, raw, s2, sw, HopIdx(|raw|, hop, k));
  }

  /**
   * The backward hop walk: starting at the end of `raw`, one fast and one
   * slow value per position, stepping back by `hop`, until `n` values exist
   * or the fast window no longer fits.
   */
  method HopWalk(m: Math, raw: seq<real>, s2: seq<real>, n: nat, fw: nat, sw: nat, hop: nat)
    returns (fast: seq<real>, slow: seq<real>)
    requires 0 < fw && 0 < sw && 0 < hop
    requires PrefixSums(raw, s2)
    ensures |fast| == |slow| <= n
    ensures |fast| > 0 ==> fw <= HopIdx(|raw|, hop, |fast| - 1)
    ensures fast == FastRun(m, raw, fw, hop, |fast|)
    ensures slow == SlowRun(m, raw, fw, sw, hop, |fast|)
    ensures |fast| == n || HopIdx(|raw|, hop, |fast|) < fw
  {
    // The walk's bookkeeping never looks inside a window value.
    hide FastAt;
    hide SlowAt;
    fast := [];
    slow := [];
    var idx: nat := |raw|;
    while |fast| < n && idx >= fw
      invariant |fast| == |slow| <= n
      invariant idx == HopIdx(|raw|, hop, |fast|)
      invariant |fast| > 0 ==> fw <= HopIdx(|raw|, hop, |fast| - 1)
      invariant fast == FastRun(m, raw, fw, hop, |fast|)
      invariant slow == SlowRun(m, raw, fw, sw, hop, |fast|)
      decreases idx
    {
      var f, w := HopValues(m, raw, s2, fw, sw, hop, |fast|);
      fast := fast + [f];
      slow := slow + [w];
      idx := SatSub(idx, hop);
    }
  }

  /** The resampling loop: bar `k` of `n` from the Catmull-Rom curve through `vals`. */
  method ResampleBars(vals: seq<real>, n: nat) returns (tgt: seq<real>)
    requires 8 <= |vals| && 120 <= n
    ensures tgt == Resampled(vals, n)
  {
    tgt := seq(n, _ => 0.0);
    var k := 0;
    while k < n
      invariant 0 <= k <= n && |tgt| == n
      invariant forall j :: 0 <= j < k ==> tgt[j] == ResampleAt(vals, n, j)
    {
      var r := ResampleIdx(k, n, |vals|);
      tgt := tgt[k := CatmullRom(vals[r.0], vals[r.1], vals[r.2], vals[r.3], r.4)];
      k := k + 1;
    }
  }

  /**
   * One in-place 1-2-1 pass. `prev` keeps the left neighbour's value from
   * before it was overwritten, so the pass is a true convolution.
   */
  method BlurPass(s: seq<real>) returns (t: seq<real>)
    requires |s| >= 2
    ensures t == Blur(s)
  {
    t := s;
    var prev := t[0];
    var i := 1;
    while i < |s| - 1
      invariant 1 <= i <= |s| - 1 && |t| == |s|
      invariant prev == s[i - 1]
      invariant forall j :: i <= j < |s| ==> t[j] == s[j]
      invariant forall j :: 0 <= j < i ==> t[j] == Blur(s)[j]
    {
      var cur := t[i];
      var nxt := t[i + 1];
      t := t[i := 0.25 * prev + 0.5 * cur + 0.25 * nxt];
      prev := cur;
      i := i + 1;
    }
  }

  /** The attack/release loop. */
  method IntegrateBars(cur: seq<real>, des: seq<real>, aUp: real, aDn: real) returns (r: seq<real>)
    requires |cur| == |des| && 0.0 < aUp < 1.0 && 0.0 < aDn < 1.0
    ensures r == Integrate(cur, des, aUp, aDn)
  {
    r := cur;
    var i := 0;
    while i < |cur|
      invariant 0 <= i <= |cur| && |r| == |cur|
      invariant forall j :: i <= j < |cur| ==> r[j] == cur[j]
      invariant forall j :: 0 <= j < i ==> r[j] == Integrate(cur, des, aUp, aDn)[j]
    {
      var c := r[i];
      var d := des[i];
      var a := if d > c then aUp else aDn;
      r := r[i := c + (d - c) * a];
      i := i + 1;
    }
  }

  /** The final in-place smoothing pass over the interior bars. */
  method FinalSmooth(s: seq<real>) returns (r: seq<real>)
    requires |s| >= 2
    ensures r == SmoothUpTo(s, |s| - 1)
  {
    r := s;
    var i := 1;
    while i < |s| - 1
      invariant 1 <= i <= |s| - 1
      invariant r == SmoothUpTo(s, i)
    {
      r := r[i := (r[i - 1] + 2.0 * r[i] + r[i + 1]) * 0.25];
      i := i + 1;
    }
  }

  /** The resampled curve: `n` bars through the `m` values. */
  function Resampled(vals: seq<real>, n: nat): (r: seq<real>)
    requires 8 <= |vals| && 120 <= n
    ensures |r| == n && forall k :: 0 <= k < n ==> r[k] == ResampleAt(vals, n, k)
  {
    seq(n, k requires 0 <= k < n => ResampleAt(vals, n, k))
  }

  /** The bar targets: the resampled curve through two blur passes. */
  function Target(vals: seq<real>, n: nat): (r: seq<real>)
    requires 8 <= |vals| && 120 <= n
    ensures |r| == n
  {
    Blur(Blur(Resampled(vals, n)))
  }

  /** The drawn bars: integration toward the targets, then the final smoothing. */
  function Bars(cur: seq<real>, tgt: seq<real>, aUp: real, aDn: real): (r: seq<real>)
    requires |cur| == |tgt| >= 2 && 0.0 < aUp < 1.0 && 0.0 < aDn < 1.0
    ensures |r| == |cur|
  {
    SmoothUpTo(Integrate(cur, tgt, aUp, aDn), |cur| - 1)
  }

  /** `resize(n, 0.0)` on a vector no longer than `n`: zeros appended. */
  function Resized(s: seq<real>, n: nat): (r: seq<real>)
    requires |s| <= n
    ensures |r| == n && r[..|s|] == s
    ensures forall i :: |s| <= i < n ==> r[i] == 0.0
  {
    s + Zeros(n - |s|)
  }

  /** Padding with zeros adds no larger magnitude. */
  lemma ResizedMaxAbs(s: seq<real>, n: nat)
    requires |s| <= n
    ensures MaxAbs(Resized(s, n)) <= MaxAbs(s)
  {
    var r := Resized(s, n);
    if r == [] {
      assert PeakAbs(r) == 0.0;
    } else {
      PeakAbsAttained(r);
      var i :| 0 <= i < |r| && Abs(r[i]) == PeakAbs(r);
      if i < |s| {
        assert r[i] == r[..|s|][i] == s[i];
      }
    }
  }

  /** Every sample of `raw` is zero. */
  predicate Silent(s: seq<real>) {
    forall i :: 0 <= i < |s| ==> s[i] == 0.0
  }

  lemma {:induction false} SumSqSilent(s: seq<real>)
    requires Silent(s)
    ensures SumSq(s) == 0.0
  {
    if s != [] {
      SumSqSilent(s[..|s| - 1]);
      assert Sq(s[|s| - 1]) == Sq(0.0) == 0.0;
    }
  }

  lemma {:induction false} PeakAbsSilent(s: seq<real>)
    requires Silent(s)
    ensures PeakAbs(s) == 0.0
  {
    if s != [] {
      PeakAbsSilent(s[..|s| - 1]);
    }
  }

  /** Over silent samples every fast and every slow window value is 0. */
  lemma SilentWindows(m: Math, raw: seq<real>, fw: nat, sw: nat, idx: nat)
    requires Lawful(m) && Silent(raw) && 0 < fw <= idx <= |raw| && 0 < sw
    ensures FastAt(m, raw, fw, idx) == 0.0
    ensures SlowAt(m, raw, sw, idx) == 0.0
  {
    hide Lawful;
    var w := raw[idx - fw..idx];
    var v := raw[SatSub(idx, sw)..idx];
    SumSqSilent(w);
    PeakAbsSilent(w);
    SumSqSilent(v);
    SqrtZero(m);
    assert SumSq(w) / fw as real == 0.0;
    assert SumSq(v) / |v| as real == 0.0;
  }

  /** Over silent samples the whole walk yields zeros. */
  lemma SilentRuns(m: Math, raw: seq<real>, fw: nat, sw: nat, hop: nat, k: nat)
    requires Lawful(m) && Silent(raw) && 0 < fw && 0 < sw
    requires k == 0 || fw <= HopIdx(|raw|, hop, k - 1)
    ensures Silent(FastRun(m, raw, fw, hop, k))
    ensures Silent(SlowRun(m, raw, fw, sw, hop, k))
  {
    forall j | 0 <= j < k
      ensures FastRun(m, raw, fw, hop, k)[j] == 0.0
      ensures SlowRun(m, raw, fw, sw, hop, k)[j] == 0.0
    {
      FastRunAt(m, raw, fw, hop, k, j);
      SlowRunAt(m, raw, fw, sw, hop, k, j);
      SilentWindows(m, raw, fw, sw, HopIdx(|raw|, hop, j));
    }
  }

  /** Silent fast and slow values stay silent through onset weighting, gain and knee. */
  lemma SilentShaped(m: Math, fast: seq<real>, slow: seq<real>, gain: real)
    requires Lawful(m) && |fast| == |slow| && Silent(fast) && Silent(slow)
    ensures Silent(Saturate(m, Onset(fast, slow), gain, InvNorm(m)))
  {
    var on := Onset(fast, slow);
    forall i | 0 <= i < |on|
      ensures Saturate(m, on, gain, InvNorm(m))[i] == 0.0
    {
      assert on[i] == 0.0 * 0.75 + Max(0.0 - 0.0, 0.0) * 0.60 == 0.0;
      SaturateZero(m, gain, InvNorm(m));
    }
  }

  /** Silent values resample and blur to silent targets. */
  lemma SilentTarget(vals: seq<real>, n: nat)
    requires 8 <= |vals| && 120 <= n && Silent(vals)
    ensures Silent(Target(vals, n))
  {
    ResampleConstant(vals, n, 0.0);
    var r := Resampled(vals, n);
    assert Within(r, 0.0, 0.0);
    BlurWithin(r, 0.0, 0.0);
    BlurWithin(Blur(r), 0.0, 0.0);
  }

  /** Integrating toward silent targets and smoothing never raises the largest bar. */
  lemma BarsTowardSilence(cur: seq<real>, tgt: seq<real>, aUp: real, aDn: real)
    requires |cur| == |tgt| >= 2 && 0.0 < aUp < 1.0 && 0.0 < aDn < 1.0 && Silent(tgt)
    ensures MaxAbs(Bars(cur, tgt, aUp, aDn)) <= MaxAbs(cur)
  {
    var it := Integrate(cur, tgt, aUp, aDn);
    var b := MaxAbs(cur);
    forall j | 0 <= j < |it|
      ensures Abs(it[j]) <= b
    {
      assert Min(cur[j], 0.0) <= it[j] <= Max(cur[j], 0.0);
    }
    SmoothUpToBounded(it, |it| - 1, b);
    var r := Bars(cur, tgt, aUp, aDn);
    if r != [] {
      PeakAbsAttained(r);
    }
  }

  /** The onset loop: one weighted value per hop position. */
  method OnsetValues(fast: seq<real>, slow: seq<real>) returns (vals: seq<real>)
    requires |fast| == |slow|
    ensures vals == Onset(fast, slow)
  {
    vals := [];
    var i := 0;
    while i < |fast|
      invariant 0 <= i <= |fast| && |vals| == i
      invariant forall j :: 0 <= j < i ==> vals[j] == Onset(fast, slow)[j]
    {
      var onset := Max(fast[i] - slow[i], 0.0);
      vals := vals + [fast[i] * 0.75 + onset * 0.60];
      i := i + 1;
    }
  }

  /** The gain loop, then the knee loop, both in place over the values. */
  method GainAndKnee(m: Math, vals: seq<real>, gain: real, inv: real) returns (r: seq<real>)
    ensures r == Saturate(m, vals, gain, inv)
  {
    r := vals;
    var i := 0;
    while i < |r|
      invariant 0 <= i <= |r| && |r| == |vals|
      invariant forall j :: 0 <= j < i ==> r[j] == vals[j] * gain
      invariant forall j :: i <= j < |r| ==> r[j] == vals[j]
    {
      assert r[i] == vals[i];
      r := r[i := r[i] * gain];
      i := i + 1;
    }
    i := 0;
    while i < |r|
      invariant 0 <= i <= |r| && |r| == |vals|
      invariant forall j :: 0 <= j < i ==> r[j] == SaturateOne(m, vals[j], gain, inv)
      invariant forall j :: i <= j < |r| ==> r[j] == vals[j] * gain
    {
      r := r[i := Knee(m, r[i], inv)];
      i := i + 1;
    }
  }

  /** The gain that would bring the envelope to the target, clamped to the gain bounds. */
  function GainTarget(target: real, env: real, lo: real, hi: real): (g: real)
    requires env > 0.0 && lo <= hi
    ensures lo <= g <= hi
  {
    Clamp(target / env, lo, hi)
  }

  /** The samples `draw_visualizer_bg` asks the buffer for. */
  const HORIZON: nat := 6144
  /** Fewer samples than this and the frame draws nothing new. */
  const MIN_SAMPLES: nat := 512
  /** The least number of bars. */
  const MIN_BARS: nat := 120
  /** Fewer hop values than this and the frame stops after resizing the bars. */
  const MIN_VALUES: nat := 8

  /**
   * What the hop walk over `raw` for `n` bars produced, newest first: the
   * values at successive hop positions, as many as fit, at most `n`.
   */
  ghost predicate Walked(m: Math, raw: seq<real>, n: nat, fast: seq<real>, slow: seq<real>)
    requires n >= MIN_BARS
  {
    var fw := FastWindow(|raw|, n);
    var sw := SlowWindow(fw);
    var hop := Hop(fw);
    && |fast| == |slow| <= n
    && (|fast| == n || HopIdx(|raw|, hop, |fast|) < fw)
    && (|fast| > 0 ==> fw <= HopIdx(|raw|, hop, |fast| - 1))
    && fast == FastRun(m, raw, fw, hop, |fast|)
    && slow == SlowRun(m, raw, fw, sw, hop, |fast|)
  }

  /** The scratch vectors and the gain-control state the visualiser keeps between frames. */
  class VisualizerState {
    var visDraw: seq<real>
    var visFast: seq<real>
    var visSlow: seq<real>
    var visVals: seq<real>
    var visTmp: seq<real>
    var agcEnv: real
    var agcGain: real
    var agcTarget: real
    var agcGainMin: real
    var agcGainMax: real

    /** The envelope is positive and the gain lies within its bounds. */
    ghost predicate Valid()
      reads this
    {
      agcEnv > 0.0 && agcGainMin <= agcGain <= agcGainMax
    }


    /** The visualiser fields of a new app: `nPoints` silent bars and the default gain control. */
    constructor(nPoints: nat)
      ensures visDraw == Zeros(nPoints)
      ensures visFast == [] && visSlow == [] && visVals == [] && visTmp == []
      ensures agcEnv == 0.05 && agcGain == 1.0 && agcTarget == 0.55
      ensures agcGainMin == 0.8 && agcGainMax == 3.0
      ensures Valid()
    {
      visDraw := Zeros(nPoints);
      visFast := [];
      visSlow := [];
      visVals := [];
      visTmp := [];
      agcEnv := 0.05;
      agcGain := 1.0;
      agcTarget := 0.55;
      agcGainMin := 0.8;
      agcGainMax := 3.0;
    }

    /**
     * The state a frame leaves once `raw` held enough samples: `cur` are the
     * bars after resizing to `n`, `env0` and `gain0` the gain control before
     * the frame. With fewer than 8 values the frame stops after the walk.
     */
    ghost predicate Framed(m: Math, raw: seq<real>, n: nat, dt: real, cur: seq<real>, env0: real, gain0: real)
      requires Lawful(m) && dt > 0.0 && n >= MIN_BARS && |cur| == n
      reads this
    {
      && |visDraw| == n
      && (|visFast| < MIN_VALUES ==>
        && Walked(m, raw, n, visFast, visSlow)
        && visVals == [] && PrefixSums(raw, visTmp)
        && visDraw == cur && agcEnv == env0 && agcGain == gain0)
      && (|visFast| >= MIN_VALUES ==>
        && Walked(m, raw, n, Reversed(visFast), Reversed(visSlow))
        && Shaped(m, n, dt, cur, env0, gain0))
    }

    /**
     * The gain control and the bars after a frame with enough values, the
     * fast and slow values being in chronological order.
     */
    ghost predicate Shaped(m: Math, n: nat, dt: real, cur: seq<real>, env0: real, gain0: real)
      requires Lawful(m) && dt > 0.0 && n >= MIN_BARS && |cur| == n
      reads this
    {
      && |visFast| == |visSlow| >= MIN_VALUES
      && agcEnv == Follow(env0, P90InPlace(Onset(visFast, visSlow)), Alpha(m, dt, 0.80))
      && agcEnv > 0.0 && agcGainMin <= agcGainMax
      && agcGain == Follow(gain0, GainTarget(agcTarget, agcEnv, agcGainMin, agcGainMax), Alpha(m, dt, 0.25))
      && visVals == Saturate(m, Onset(visFast, visSlow), agcGain, InvNorm(m))
      && visTmp == Target(visVals, n)
      && visDraw == Bars(cur, visTmp, Alpha(m, dt, 0.040), Alpha(m, dt, 0.120))
    }

    /**
     * `draw_visualizer_bg` up to the painter: read the latest samples, grow
     * the bars to at least 120, and run the frame; with too few samples
     * nothing changes.
     */
    method DrawVisualizerBg(m: Math, fullHeight: real, buf: VisBuffer, dt: real)
      requires Lawful(m) && dt > 0.0 && Valid()
      modifies this
      ensures Valid()
      ensures agcTarget == old(agcTarget) && agcGainMin == old(agcGainMin) && agcGainMax == old(agcGainMax)
      ensures |Recent(buf.q, HORIZON)| < MIN_SAMPLES ==>
        && visDraw == old(visDraw) && visFast == old(visFast) && visSlow == old(visSlow)
        && visVals == old(visVals) && visTmp == old(visTmp)
        && agcEnv == old(agcEnv) && agcGain == old(agcGain)
      ensures |Recent(buf.q, HORIZON)| >= MIN_SAMPLES ==>
        var n := if |old(visDraw)| >= MIN_BARS then |old(visDraw)| else MIN_BARS;
        Framed(m, Recent(buf.q, HORIZON), n, dt, Resized(old(visDraw), n), old(agcEnv), old(agcGain))
      ensures Silent(Recent(buf.q, HORIZON)) ==> MaxAbs(visDraw) <= MaxAbs(old(visDraw))
    {
      hide Framed;
      if BandHeight(fullHeight) < 40.0 {
        return;
      }
      var raw := buf.TakeRecent(HORIZON);
      if |raw| < MIN_SAMPLES {
        return;
      }
      var n := if |visDraw| >= MIN_BARS then |visDraw| else MIN_BARS;
      ghost var oldDraw := visDraw;
      if |visDraw| != n {
        visDraw := Resized(visDraw, n);
      }
      assert visDraw == Resized(oldDraw, n);
      ResizedMaxAbs(oldDraw, n);
      Frame(m, raw, n, dt);
    }

    /** The frame proper, on bars already resized to `n`. */
    method Frame(m: Math, raw: seq<real>, n: nat, dt: real)
      requires Lawful(m) && dt > 0.0 && Valid() && n >= MIN_BARS && |visDraw| == n
      modifies this
      ensures Valid()
      ensures agcTarget == old(agcTarget) && agcGainMin == old(agcGainMin) && agcGainMax == old(agcGainMax)
      ensures Framed(m, raw, n, dt, old(visDraw), old(agcEnv), old(agcGain))
      ensures Silent(raw) ==> MaxAbs(visDraw) <= MaxAbs(old(visDraw))
    {
      hide Lawful;
      hide Walked;
      hide PrefixSums;
      hide Shaped;
      hide Reversed;
      hide Silent;
      hide MaxAbs;
      visFast := [];
      visSlow := [];
      visVals := [];
      visTmp, visFast, visSlow := Extract(m, raw, n);
      if |visFast| < MIN_VALUES {
        return;
      }
      ReversedTwice(visFast);
      ReversedTwice(visSlow);
      if Silent(raw) {
        SilentReversed(visFast);
        SilentReversed(visSlow);
      }
      visFast := Reversed(visFast);
      visSlow := Reversed(visSlow);
      Shape(m, n, dt);
    }

    /**
     * From the chronological fast and slow values to the drawn bars: onset
     * values, gain control, soft knee, then `Settle`.
     */
    method Shape(m: Math, n: nat, dt: real)
      requires Lawful(m) && dt > 0.0 && Valid() && n >= MIN_BARS && |visDraw| == n
      requires |visFast| == |visSlow| >= MIN_VALUES
      modifies this
      ensures Valid()
      ensures agcTarget == old(agcTarget) && agcGainMin == old(agcGainMin) && agcGainMax == old(agcGainMax)
      ensures visFast == old(visFast) && visSlow == old(visSlow) && |visDraw| == n
      ensures Shaped(m, n, dt, old(visDraw), old(agcEnv), old(agcGain))
      ensures Silent(visFast) && Silent(visSlow) ==> MaxAbs(visDraw) <= MaxAbs(old(visDraw))
    {
      hide Lawful;
      hide Saturate;
      hide Onset;
      hide Target;
      hide Bars;
      hide P90InPlace;
      visVals := OnsetValues(visFast, visSlow);
      UpdateGain(m, dt);
      visVals := GainAndKnee(m, visVals, agcGain, InvNorm(m));
      if Silent(visFast) && Silent(visSlow) {
        SilentShaped(m, visFast, visSlow, agcGain);
      }
      visTmp, visDraw := Settle(visVals, visDraw, n, Alpha(m, dt, 0.040), Alpha(m, dt, 0.120));
    }

    /**
     * The gain control: the envelope follows the 90th percentile of the
     * values, the gain follows the clamped ratio of target to envelope.
     */
    method UpdateGain(m: Math, dt: real)
      requires Lawful(m) && dt > 0.0 && Valid()
      modifies this
      ensures Valid()
      ensures visTmp == visVals
      ensures agcEnv == Follow(old(agcEnv), P90InPlace(visVals), Alpha(m, dt, 0.80))
      ensures agcGain == Follow(old(agcGain), GainTarget(agcTarget, agcEnv, agcGainMin, agcGainMax), Alpha(m, dt, 0.25))
      ensures visDraw == old(visDraw) && visFast == old(visFast) && visSlow == old(visSlow) && visVals == old(visVals)
      ensures agcTarget == old(agcTarget) && agcGainMin == old(agcGainMin) && agcGainMax == old(agcGainMax)
    {
      hide Lawful;
      hide P90InPlace;
      visTmp := visVals;
      var p90 := P90InPlace(visTmp);
      agcEnv := Follow(agcEnv, p90, Alpha(m, dt, 0.80));
      var gTgt := GainTarget(agcTarget, agcEnv, agcGainMin, agcGainMax);
      agcGain := Follow(agcGain, gTgt, Alpha(m, dt, 0.25));
    }
  }

  /**
   * The prefix loop and the hop walk: the prefix sums of `raw` and the fast
   * and slow values, newest first.
   */
  method Extract(m: Math, raw: seq<real>, n: nat) returns (s2: seq<real>, fast: seq<real>, slow: seq<real>)
    requires Lawful(m) && n >= MIN_BARS
    ensures PrefixSums(raw, s2)
    ensures Walked(m, raw, n, fast, slow) && |fast| == |slow|
    ensures Silent(raw) ==> Silent(fast) && Silent(slow)
  {
    hide Lawful;
    hide PrefixSums;
    hide FastRun;
    hide SlowRun;
    hide FastAt;
    hide SlowAt;
    var fw := FastWindow(|raw|, n);
    var sw := SlowWindow(fw);
    var hop := Hop(fw);
    s2 := PrefixSquares(raw);
    fast, slow := HopWalk(m, raw, s2, n, fw, sw, hop);
    if Silent(raw) {
      SilentRuns(m, raw, fw, sw, hop, |fast|);
    }
  }

  /**
   * Resampling, the two blur passes, the integration and the final
   * smoothing: the new targets and the new bars.
   */
  method Settle(vals: seq<real>, cur: seq<real>, n: nat, aUp: real, aDn: real) returns (tgt: seq<real>, draw: seq<real>)
    requires 8 <= |vals| && 120 <= n == |cur| && 0.0 < aUp < 1.0 && 0.0 < aDn < 1.0
    ensures tgt == Target(vals, n)
    ensures draw == Bars(cur, tgt, aUp, aDn)
    ensures Silent(vals) ==> MaxAbs(draw) <= MaxAbs(cur)
  {
    hide Resampled;
    hide Blur;
    hide Integrate;
    hide SmoothUpTo;
    hide MaxAbs;
    tgt := ResampleBars(vals, n);
    tgt := BlurPass(tgt);
    tgt := BlurPass(tgt);
    draw := IntegrateBars(cur, tgt, aUp, aDn);
    draw := FinalSmooth(draw);
    if Silent(vals) {
      SilentTarget(vals, n);
      BarsTowardSilence(cur, tgt, aUp, aDn);
    }
  }

  lemma SilentReversed(s: seq<real>)
    requires Silent(s)
    ensures Silent(Reversed(s))
  {
  }

  lemma ReversedTwice(s: seq<real>)
    ensures Reversed(Reversed(s)) == s
  {
  }
}
