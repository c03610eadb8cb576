/**
 * The numeric helpers of the background painter
 * (src/app/anim/paint/math.rs): an inverted smoothstep, a mirrored
 * wrap into `[0, 1]`, the per-oscillator time phases, the normalised sum of
 * four plane waves, a 90th-percentile magnitude, and the least-squares
 * plane fit over the interior of the padded field buffer.
 */
module PaintMath {
  import opened Numeric
  import opened Sorting
  import opened Flow
  import opened Cache

  /** The amplitudes of the four waves and the reciprocal of their sum. */
  const A0: real := 0.48
  const A1: real := 0.36
  const A2: real := 0.30
  const A3: real := 0.24
  const INV_A_SUM: real := 1.0 / (A0 + A1 + A2 + A3)

  // ---------------------------------------------------------------------
  // smoothstep_inv
  // ---------------------------------------------------------------------

  /** The Hermite step `t * t * (3 - 2t)` stays in `[0, 1]` on `[0, 1]`. */
  lemma HermiteBounds(t: real)
    requires 0.0 <= t <= 1.0
    ensures 0.0 <= t * t * (3.0 - 2.0 * t) <= 1.0
  {
    MulNonNeg(t, t);
    MulNonNeg(t * t, 3.0 - 2.0 * t);
    MulNonNeg(1.0 - t, 1.0 - t);
    MulNonNeg((1.0 - t) * (1.0 - t), 1.0 + 2.0 * t);
    assert 1.0 - t * t * (3.0 - 2.0 * t) == (1.0 - t) * (1.0 - t) * (1.0 + 2.0 * t);
  }

  /** A quotient by a positive `d` is at most 0 for `a <= 0` and at least 1 for `a >= d`. */
  lemma QuotientBounds(a: real, d: real)
    requires d > 0.0
    ensures a <= 0.0 ==> a / d <= 0.0
    ensures a >= d ==> a / d >= 1.0
  {
    var q := a / d;
    assert q * d == a;
    if a <= 0.0 && q > 0.0 {
      MulStrict(d, 0.0, q);
    }
    if a >= d && q < 1.0 {
      MulStrict(d, q, 1.0);
    }
  }

  /**
   * `smoothstep_inv`: one minus the smoothstep of `x` between the edges;
   * 1 up to `edge0`, 0 from `edge1` on.
   */
  function SmoothstepInv(edge0: real, edge1: real, x: real): (r: real)
    requires edge0 < edge1
    ensures 0.0 <= r <= 1.0
    ensures x <= edge0 ==> r == 1.0
    ensures x >= edge1 ==> r == 0.0
  {
    var d := edge1 - edge0;
    var q := (x - edge0) / d;
    QuotientBounds(x - edge0, d);
    var t := Clamp(q, 0.0, 1.0);
    assert x <= edge0 ==> t == 0.0;
    assert x >= edge1 ==> t == 1.0;
    HermiteBounds(t);
    1.0 - t * t * (3.0 - 2.0 * t)
  }

  // ---------------------------------------------------------------------
  // mirror01
  // ---------------------------------------------------------------------

  /** `mirror01`: fold the line onto `[0, 1]` by reflecting at every integer. */
  function Mirror01(x: real): (r: real)
    ensures 0.0 <= r <= 1.0
  {
    var y := RemEuclid(x, 2.0);
    if y <= 1.0 then y else 2.0 - y
  }

  /** `rem_euclid(x, 2)` written with the floor of `x / 2`. */
  lemma RemTwo(x: real)
    ensures RemEuclid(x, 2.0) == x - 2.0 * (x / 2.0).Floor as real
  {
  }

  /** `mirror01` is the identity on `[0, 1]`. */
  lemma Mirror01Identity(x: real)
    requires 0.0 <= x <= 1.0
    ensures Mirror01(x) == x
  {
    RemTwo(x);
    assert (x / 2.0).Floor == 0;
  }

  /** `mirror01` has period 2. */
  lemma Mirror01Periodic(x: real)
    ensures Mirror01(x + 2.0) == Mirror01(x)
  {
    RemTwo(x);
    RemTwo(x + 2.0);
    assert (x + 2.0) / 2.0 == x / 2.0 + 1.0;
    assert ((x + 2.0) / 2.0).Floor == (x / 2.0).Floor + 1;
  }

  /** `mirror01` is even. */
  lemma Mirror01Even(x: real)
    ensures Mirror01(-x) == Mirror01(x)
  {
    RemTwo(x);
    RemTwo(-x);
    var q := x / 2.0;
    var f := q.Floor;
    assert -x / 2.0 == -q;
    if f as real == q {
      assert (-q).Floor == -f;
      assert RemEuclid(x, 2.0) == 0.0 && RemEuclid(-x, 2.0) == 0.0;
    } else {
      assert (-q).Floor == -f - 1;
      assert RemEuclid(-x, 2.0) == 2.0 - RemEuclid(x, 2.0);
    }
  }

  // ---------------------------------------------------------------------
  // precompute_wtph and flow_four_sines
  // ---------------------------------------------------------------------

  /** The time phase of oscillator `i` at time `t`: `2 pi w t + ph`. */
  function Wtph(p: FlowParams, t: real, i: nat): real
    requires i < |p.w| && i < |p.ph|
  {
    (p.w[i] * t) * TAU + p.ph[i]
  }

  /** `precompute_wtph`: the four time phases, filled in a loop. */
  method PrecomputeWtph(p: FlowParams, t: real) returns (a: seq<real>)
    requires |p.w| == |p.ph| == 4
    ensures |a| == 4
    ensures forall i :: 0 <= i < 4 ==> a[i] == Wtph(p, t, i)
  {
    a := [0.0, 0.0, 0.0, 0.0];
    for i := 0 to 4
      invariant |a| == 4
      invariant forall k :: 0 <= k < i ==> a[k] == Wtph(p, t, k)
    {
      a := a[i := (p.w[i] * t) * TAU + p.ph[i]];
    }
  }

  /** With time frozen at 0 each phase is the oscillator's own phase. */
  lemma WtphFrozen(p: FlowParams, i: nat)
    requires i < |p.w| && i < |p.ph|
    ensures Wtph(p, 0.0, i) == p.ph[i]
  {
  }

  /** Wave `i` at `(uu, vv)`: `sin((kx uu + ky vv) 2 pi + wtph)`. */
  function Wave(m: Math, p: FlowParams, wtph: seq<real>, uu: real, vv: real, i: nat): real
    requires |p.kx| == |p.ky| == |wtph| == 4 && i < 4
  {
    m.sin((p.kx[i] * uu + p.ky[i] * vv) * TAU + wtph[i])
  }

  /** Each wave lies in `[-1, 1]`. */
  lemma WaveBound(m: Math, p: FlowParams, wtph: seq<real>, uu: real, vv: real, i: nat)
    requires Lawful(m) && |p.kx| == |p.ky| == |wtph| == 4 && i < 4
    ensures -1.0 <= Wave(m, p, wtph, uu, vv, i) <= 1.0
  {
  }

  /** The weighted sum of the four waves, before normalisation. */
  function WaveSum(m: Math, p: FlowParams, wtph: seq<real>, uu: real, vv: real): real
    requires |p.kx| == |p.ky| == |wtph| == 4
  {
    Wave(m, p, wtph, uu, vv, 0) * A0 + Wave(m, p, wtph, uu, vv, 1) * A1
      + Wave(m, p, wtph, uu, vv, 2) * A2 + Wave(m, p, wtph, uu, vv, 3) * A3
  }

  /** `flow_four_sines`: the normalised wave sum, clamped to `[-1, 1]`. */
  function FlowFourSines(m: Math, p: FlowParams, wtph: seq<real>, uu: real, vv: real): (r: real)
    requires |p.kx| == |p.ky| == |wtph| == 4
    ensures -1.0 <= r <= 1.0
  {
    Clamp(WaveSum(m, p, wtph, uu, vv) * INV_A_SUM, -1.0, 1.0)
  }

  /** `|x * a| <= a` for `x` in `[-1, 1]` and `a >= 0`. */
  lemma UnitTimes(x: real, a: real)
    requires -1.0 <= x <= 1.0 && a >= 0.0
    ensures -a <= x * a <= a
  {
    MulNonNeg(1.0 - x, a);
    MulNonNeg(1.0 + x, a);
  }

  /**
   * Since each wave lies in `[-1, 1]`, dividing by the amplitude sum already
   * lands in `[-1, 1]`: the clamp never changes the value.
   */
  lemma FourSinesUnclamped(m: Math, p: FlowParams, wtph: seq<real>, uu: real, vv: real)
    requires Lawful(m) && |p.kx| == |p.ky| == |wtph| == 4
    ensures -1.0 <= WaveSum(m, p, wtph, uu, vv) * INV_A_SUM <= 1.0
    ensures FlowFourSines(m, p, wtph, uu, vv) == WaveSum(m, p, wtph, uu, vv) * INV_A_SUM
  {
    hide Lawful, Wave;
    var w0, w1 := Wave(m, p, wtph, uu, vv, 0), Wave(m, p, wtph, uu, vv, 1);
    var w2, w3 := Wave(m, p, wtph, uu, vv, 2), Wave(m, p, wtph, uu, vv, 3);
    WaveBound(m, p, wtph, uu, vv, 0);
    WaveBound(m, p, wtph, uu, vv, 1);
    WaveBound(m, p, wtph, uu, vv, 2);
    WaveBound(m, p, wtph, uu, vv, 3);
    UnitTimes(w0, A0);
    UnitTimes(w1, A1);
    UnitTimes(w2, A2);
    UnitTimes(w3, A3);
    var s := WaveSum(m, p, wtph, uu, vv);
    assert -1.38 <= s <= 1.38;
    assert INV_A_SUM * 1.38 == 1.0;
    if s >= 0.0 {
      MulNonNeg(1.38 - s, INV_A_SUM);
    } else {
      MulNonNeg(1.38 + s, INV_A_SUM);
    }
  }

  // ---------------------------------------------------------------------
  // p90_abs
  // ---------------------------------------------------------------------

  /**
   * `p90_abs`: 0 for no samples; otherwise the magnitude of the value at
   * rank `floor(0.9 len)` (clamped to the last index) in sorted order.
   */
  function P90Abs(v: seq<real>): (r: real)
    ensures r >= 0.0
    ensures v == [] ==> r == 0.0
    ensures v != [] ==> exists i :: 0 <= i < |v| && r == Abs(v[i])
  {
    if v == [] then 0.0
    else
      var x := NthSmallest(v, Rank90(|v|));
      assert x in v;
      Abs(x)
  }

  /**
   * On magnitudes the result is itself the sample at the 90th-percentile
   * rank.
   */
  lemma P90AbsOfMagnitudes(v: seq<real>)
    requires v != [] && forall i :: 0 <= i < |v| ==> v[i] >= 0.0
    ensures P90Abs(v) == NthSmallest(v, Rank90(|v|))
  {
  }

  // ---------------------------------------------------------------------
  // fit_plane_for_warp_padded
  // ---------------------------------------------------------------------

  /** The buffers the plane fit reads: a padded field and coordinate vectors as long as the grid. */
  predicate FitShape(iso: seq<real>, w: nat, rows: nat, cols: nat, u: seq<real>, v: seq<real>) {
    Layout(w, rows, cols) && (rows + 2) * w <= |iso| && cols <= |u| && rows <= |v|
  }

  /** The field value at grid vertex `(i, j)`: padded cell `(j + 1, i + 1)`. */
  function Z(iso: seq<real>, w: nat, rows: nat, cols: nat, i: nat, j: nat): real
    requires Layout(w, rows, cols) && (rows + 2) * w <= |iso| && i < cols && j < rows
  {
    IdxBelow(w, j + 1, i + 1, rows + 2);
    iso[Idx(w, j + 1, i + 1)]
  }

  /** The sum of the first `n` vertices of grid row `j`. */
  function RowSum(iso: seq<real>, w: nat, rows: nat, cols: nat, j: nat, n: nat): real
    requires Layout(w, rows, cols) && (rows + 2) * w <= |iso| && j < rows && n <= cols
  {
    if n == 0 then 0.0 else RowSum(iso, w, rows, cols, j, n - 1) + Z(iso, w, rows, cols, n - 1, j)
  }

  /** The sum of the vertices of the first `m` grid rows. */
  function GridSum(iso: seq<real>, w: nat, rows: nat, cols: nat, m: nat): real
    requires Layout(w, rows, cols) && (rows + 2) * w <= |iso| && m <= rows
  {
    if m == 0 then 0.0 else GridSum(iso, w, rows, cols, m - 1) + RowSum(iso, w, rows, cols, m - 1, cols)
  }

  /** The mean of the field over all `cols * rows` vertices. */
  function MeanZ(iso: seq<real>, w: nat, rows: nat, cols: nat): real
    requires Layout(w, rows, cols) && (rows + 2) * w <= |iso|
  {
    GridSum(iso, w, rows, cols, rows) / (cols * rows) as real
  }

  /** The five second moments the fit accumulates. */
  datatype Moments = Moments(su2: real, sv2: real, suv: real, suz: real, svz: real) {
    function Plus(o: Moments): Moments {
      Moments(su2 + o.su2, sv2 + o.sv2, suv + o.suv, suz + o.suz, svz + o.svz)
    }
    /** The determinant of the normal equations. */
    function Den(): real {
      su2 * sv2 - suv * suv
    }
  }

  lemma PlusAssoc(a: Moments, b: Moments, c: Moments)
    ensures a.Plus(b).Plus(c) == a.Plus(b.Plus(c))
  {
  }

  const ZERO_MOMENTS := Moments(0.0, 0.0, 0.0, 0.0, 0.0)

  /** The contribution of one vertex, with coordinates and value centred. */
  function CellMoments(uu: real, vv: real, z: real): Moments {
    Moments(uu * uu, vv * vv, uu * vv, uu * z, vv * z)
  }

  /** The moments of the first `n` vertices of grid row `j` about `(0.5, 0.5, mz)`. */
  function RowMoments(iso: seq<real>, w: nat, rows: nat, cols: nat, u: seq<real>, v: seq<real>, mz: real, j: nat, n: nat): Moments
    requires FitShape(iso, w, rows, cols, u, v) && j < rows && n <= cols
  {
    if n == 0 then ZERO_MOMENTS
    else RowMoments(iso, w, rows, cols, u, v, mz, j, n - 1).Plus(
      CellMoments(u[n - 1] - 0.5, v[j] - 0.5, Z(iso, w, rows, cols, n - 1, j) - mz))
  }

  /** The moments of the first `m` grid rows. */
  function GridMoments(iso: seq<real>, w: nat, rows: nat, cols: nat, u: seq<real>, v: seq<real>, mz: real, m: nat): Moments
    requires FitShape(iso, w, rows, cols, u, v) && m <= rows
  {
    if m == 0 then ZERO_MOMENTS
    else GridMoments(iso, w, rows, cols, u, v, mz, m - 1).Plus(RowMoments(iso, w, rows, cols, u, v, mz, m - 1, cols))
  }

  /** The moments of the whole grid about its mean. */
  function FitMoments(iso: seq<real>, w: nat, rows: nat, cols: nat, u: seq<real>, v: seq<real>): Moments
    requires FitShape(iso, w, rows, cols, u, v)
  {
    GridMoments(iso, w, rows, cols, u, v, MeanZ(iso, w, rows, cols), rows)
  }

  /** The threshold below which the normal equations count as singular. */
  const SINGULAR: real := 0.000000001

  /** `x * d == y * d` with `d != 0` gives `x == y`. */
  lemma CancelNonZero(d: real, x: real, y: real)
    requires d != 0.0 && x * d == y * d
    ensures x == y
  {
    assert (x - y) * d == 0.0;
  }

  /**
   * Cramer's rule for the 2x2 normal equations: the slopes the fit computes
   * solve `a su2 + b suv == suz` and `a suv + b sv2 == svz`.
   */
  lemma Cramer(mo: Moments)
    requires mo.Den() != 0.0
    ensures (mo.sv2 * mo.suz - mo.suv * mo.svz) / mo.Den() * mo.su2 + (mo.su2 * mo.svz - mo.suv * mo.suz) / mo.Den() * mo.suv == mo.suz
    ensures (mo.sv2 * mo.suz - mo.suv * mo.svz) / mo.Den() * mo.suv + (mo.su2 * mo.svz - mo.suv * mo.suz) / mo.Den() * mo.sv2 == mo.svz
  {
    var d := mo.Den();
    var pa, pb := mo.sv2 * mo.suz - mo.suv * mo.svz, mo.su2 * mo.svz - mo.suv * mo.suz;
    var a, b := pa / d, pb / d;
    assert a * d == pa && b * d == pb;
    assert (a * mo.su2 + b * mo.suv) * d == pa * mo.su2 + pb * mo.suv;
    assert pa * mo.su2 + pb * mo.suv == mo.suz * d;
    CancelNonZero(d, a * mo.su2 + b * mo.suv, mo.suz);
    assert (a * mo.suv + b * mo.sv2) * d == pa * mo.suv + pb * mo.sv2;
    assert pa * mo.suv + pb * mo.sv2 == mo.svz * d;
    CancelNonZero(d, a * mo.suv + b * mo.sv2, mo.svz);
  }

  /**
   * The plane `z = a u + b v + c` that `fit_plane_for_warp_padded` returns
   * for mean `mz` and moments `mo`. It always passes through `mz` at the
   * centre `(0.5, 0.5)`; when the normal equations are singular it is flat,
   * otherwise its slopes solve them (Cramer's rule).
   */
  function PlaneFrom(mz: real, mo: Moments): (r: (real, real, real))
    ensures r.0 * 0.5 + r.1 * 0.5 + r.2 == mz
    ensures Abs(mo.Den()) < SINGULAR ==> r.0 == 0.0 && r.1 == 0.0
    ensures Abs(mo.Den()) >= SINGULAR ==>
      && r.0 * mo.su2 + r.1 * mo.suv == mo.suz
      && r.0 * mo.suv + r.1 * mo.sv2 == mo.svz
  {
    var den := mo.Den();
    if Abs(den) < SINGULAR then (0.0, 0.0, mz)
    else
      Cramer(mo);
      var a := (mo.sv2 * mo.suz - mo.suv * mo.svz) / den;
      var b := (mo.su2 * mo.svz - mo.suv * mo.suz) / den;
      (a, b, mz - a * 0.5 - b * 0.5)
  }

  /** The least-squares plane through the grid vertices of the padded field. */
  function Fit(iso: seq<real>, w: nat, rows: nat, cols: nat, u: seq<real>, v: seq<real>): (real, real, real)
    requires FitShape(iso, w, rows, cols, u, v)
  {
    PlaneFrom(MeanZ(iso, w, rows, cols), FitMoments(iso, w, rows, cols, u, v))
  }

  /** Vertex `(i, j)` is the cell the source reads at `(j + 1) * w + (i + 1)`. */
  lemma ZAt(iso: seq<real>, w: nat, rows: nat, cols: nat, i: nat, j: nat)
    requires Layout(w, rows, cols) && (rows + 2) * w <= |iso| && i < cols && j < rows
    ensures (j + 1) * w + (i + 1) < |iso| && Z(iso, w, rows, cols, i, j) == iso[(j + 1) * w + (i + 1)]
  {
    IdxBelow(w, j + 1, i + 1, rows + 2);
  }

  /** One more vertex of the row, and one more row of the grid. */
  lemma SumStep(iso: seq<real>, w: nat, rows: nat, cols: nat, j: nat, i: nat)
    requires Layout(w, rows, cols) && (rows + 2) * w <= |iso| && j < rows && i < cols
    ensures GridSum(iso, w, rows, cols, 0) == 0.0 && RowSum(iso, w, rows, cols, j, 0) == 0.0
    ensures RowSum(iso, w, rows, cols, j, i + 1) == RowSum(iso, w, rows, cols, j, i) + Z(iso, w, rows, cols, i, j)
    ensures GridSum(iso, w, rows, cols, j + 1) == GridSum(iso, w, rows, cols, j) + RowSum(iso, w, rows, cols, j, cols)
  {
  }

  lemma MomentStep(iso: seq<real>, w: nat, rows: nat, cols: nat, u: seq<real>, v: seq<real>, mz: real, j: nat, i: nat)
    requires FitShape(iso, w, rows, cols, u, v) && j < rows && i < cols
    ensures RowMoments(iso, w, rows, cols, u, v, mz, j, i + 1)
      == RowMoments(iso, w, rows, cols, u, v, mz, j, i).Plus(CellMoments(u[i] - 0.5, v[j] - 0.5, Z(iso, w, rows, cols, i, j) - mz))
    ensures GridMoments(iso, w, rows, cols, u, v, mz, j + 1)
      == GridMoments(iso, w, rows, cols, u, v, mz, j).Plus(RowMoments(iso, w, rows, cols, u, v, mz, j, cols))
  {
  }

  /** `m` copies of `c`. */
  function Times(m: nat, c: real): real {
    m as real * c
  }

  /** A running total of `m - 1` copies of `c`, plus one more, is `m` copies. */
  lemma AddOne(m: nat, c: real, before: real, after: real)
    requires m > 0 && before == Times(m - 1, c) && after == before + c
    ensures after == Times(m, c)
  {
    assert (m - 1) as real + 1.0 == m as real;
  }

  /** `x / n == k` when `x == n k` and `n != 0`. */
  lemma DivExact(x: real, n: real, k: real)
    requires n != 0.0 && x == n * k
    ensures x / n == k
  {
    CancelNonZero(n, x / n, k);
  }

  /** The first pass of `fit_plane_for_warp_padded`: the sum of the grid vertices. */
  method SumPass(iso: seq<real>, w: nat, rows: nat, cols: nat) returns (sum: real)
    requires Layout(w, rows, cols) && (rows + 2) * w <= |iso|
    ensures sum == GridSum(iso, w, rows, cols, rows)
  {
    sum := 0.0;
    assert GridSum(iso, w, rows, cols, 0) == 0.0;
    assert forall j :: 0 <= j < rows ==> RowSum(iso, w, rows, cols, j, 0) == 0.0;
    hide GridSum, RowSum, Z;
    for j := 0 to rows
      invariant sum == GridSum(iso, w, rows, cols, j)
    {
      var row := (j + 1) * w;
      for i := 0 to cols
        invariant sum == GridSum(iso, w, rows, cols, j) + RowSum(iso, w, rows, cols, j, i)
      {
        ZAt(iso, w, rows, cols, i, j);
        SumStep(iso, w, rows, cols, j, i);
        sum := sum + iso[row + (i + 1)];
      }
      SumStep(iso, w, rows, cols, j, 0);
    }
  }

  /** The second pass: the moments about `(0.5, 0.5, mz)`. */
  method MomentPass(iso: seq<real>, w: nat, rows: nat, cols: nat, u: seq<real>, v: seq<real>, mz: real)
    returns (su2: real, sv2: real, suv: real, suz: real, svz: real)
    requires FitShape(iso, w, rows, cols, u, v)
    ensures Moments(su2, sv2, suv, suz, svz) == GridMoments(iso, w, rows, cols, u, v, mz, rows)
  {
    su2, sv2, suv, suz, svz := 0.0, 0.0, 0.0, 0.0, 0.0;
    assert GridMoments(iso, w, rows, cols, u, v, mz, 0) == ZERO_MOMENTS;
    assert forall j :: 0 <= j < rows ==> RowMoments(iso, w, rows, cols, u, v, mz, j, 0) == ZERO_MOMENTS;
    hide GridMoments, RowMoments, Z, CellMoments;
    for j := 0 to rows
      invariant Moments(su2, sv2, suv, suz, svz) == GridMoments(iso, w, rows, cols, u, v, mz, j)
    {
      var vv := v[j] - 0.5;
      var row := (j + 1) * w;
      ghost var g := GridMoments(iso, w, rows, cols, u, v, mz, j);
      for i := 0 to cols
        invariant Moments(su2, sv2, suv, suz, svz) == g.Plus(RowMoments(iso, w, rows, cols, u, v, mz, j, i))
      {
        var uu := u[i] - 0.5;
        ZAt(iso, w, rows, cols, i, j);
        var z := iso[row + (i + 1)] - mz;
        AccumulateStep(iso, w, rows, cols, u, v, mz, j, i, g, Moments(su2, sv2, suv, suz, svz));
        var cell := CellMoments(uu, vv, z);
        su2 := su2 + cell.su2;
        sv2 := sv2 + cell.sv2;
        suv := suv + cell.suv;
        suz := suz + cell.suz;
        svz := svz + cell.svz;
      }
      MomentStep(iso, w, rows, cols, u, v, mz, j, 0);
    }
  }

  /** One step of the inner moment loop keeps its invariant. */
  lemma AccumulateStep(iso: seq<real>, w: nat, rows: nat, cols: nat, u: seq<real>, v: seq<real>, mz: real,
                       j: nat, i: nat, g: Moments, acc: Moments)
    requires FitShape(iso, w, rows, cols, u, v) && j < rows && i < cols
    requires acc == g.Plus(RowMoments(iso, w, rows, cols, u, v, mz, j, i))
    ensures (j + 1) * w + (i + 1) < |iso|
    ensures acc.Plus(CellMoments(u[i] - 0.5, v[j] - 0.5, iso[(j + 1) * w + (i + 1)] - mz))
        == g.Plus(RowMoments(iso, w, rows, cols, u, v, mz, j, i + 1))
  {
    ZAt(iso, w, rows, cols, i, j);
  }

  /**
   * `fit_plane_for_warp_padded`: the mean pass, the moment pass about the
   * mean, then the singular test and Cramer's rule (`PlaneFrom`).
   */
  method FitPlaneForWarpPadded(iso: seq<real>, w: nat, rows: nat, cols: nat, u: seq<real>, v: seq<real>)
    returns (a: real, b: real, c: real)
    requires FitShape(iso, w, rows, cols, u, v)
    ensures (a, b, c) == Fit(iso, w, rows, cols, u, v)
  {
    var n := (cols * rows) as real;
    var sum := SumPass(iso, w, rows, cols);
    var mz := sum / n;
    assert mz == MeanZ(iso, w, rows, cols);
    var su2, sv2, suv, suz, svz := MomentPass(iso, w, rows, cols, u, v, mz);
    FitIs(iso, w, rows, cols, u, v, mz, Moments(su2, sv2, suv, suz, svz));
    var plane := PlaneFrom(mz, Moments(su2, sv2, suv, suz, svz));
    a, b, c := plane.0, plane.1, plane.2;
  }

  /** The fit is the plane `PlaneFrom` builds from the mean and the moments. */
  lemma FitIs(iso: seq<real>, w: nat, rows: nat, cols: nat, u: seq<real>, v: seq<real>, mz: real, mo: Moments)
    requires FitShape(iso, w, rows, cols, u, v)
    requires mz == MeanZ(iso, w, rows, cols) && mo == GridMoments(iso, w, rows, cols, u, v, mz, rows)
    ensures Fit(iso, w, rows, cols, u, v) == PlaneFrom(mz, mo)
  {
  }

  /** Every grid vertex holds `k`. */
  ghost predicate Flat(iso: seq<real>, w: nat, rows: nat, cols: nat, k: real)
    requires Layout(w, rows, cols) && (rows + 2) * w <= |iso|
  {
    forall i: nat, j: nat :: i < cols && j < rows ==> Z(iso, w, rows, cols, i, j) == k
  }

  lemma {:induction false} RowSumFlat(iso: seq<real>, w: nat, rows: nat, cols: nat, k: real, j: nat, n: nat)
    requires Layout(w, rows, cols) && (rows + 2) * w <= |iso| && Flat(iso, w, rows, cols, k) && j < rows && n <= cols
    ensures RowSum(iso, w, rows, cols, j, n) == Times(n, k)
  {
    if n > 0 {
      RowSumFlat(iso, w, rows, cols, k, j, n - 1);
      hide Times;
      AddOne(n, k, RowSum(iso, w, rows, cols, j, n - 1), RowSum(iso, w, rows, cols, j, n));
    } else {
      assert RowSum(iso, w, rows, cols, j, 0) == 0.0;
    }
  }

  lemma {:induction false} GridSumFlat(iso: seq<real>, w: nat, rows: nat, cols: nat, k: real, m: nat)
    requires Layout(w, rows, cols) && (rows + 2) * w <= |iso| && Flat(iso, w, rows, cols, k) && m <= rows
    ensures GridSum(iso, w, rows, cols, m) == Times(m, Times(cols, k))
  {
    SumStep(iso, w, rows, cols, 0, 0);
    hide GridSum, RowSum, Flat, Z, Times;
    if m > 0 {
      GridSumFlat(iso, w, rows, cols, k, m - 1);
      RowSumFlat(iso, w, rows, cols, k, m - 1, cols);
      SumStep(iso, w, rows, cols, m - 1, 0);
      AddOne(m, Times(cols, k), GridSum(iso, w, rows, cols, m - 1), GridSum(iso, w, rows, cols, m));
    } else {
      assert Times(0, Times(cols, k)) == 0.0 by { TimesZero(Times(cols, k)); }
    }
  }

  lemma TimesZero(c: real)
    ensures Times(0, c) == 0.0
  {
  }

  /** The mean of a flat field is its value. */
  lemma MeanFlat(iso: seq<real>, w: nat, rows: nat, cols: nat, k: real)
    requires Layout(w, rows, cols) && (rows + 2) * w <= |iso| && Flat(iso, w, rows, cols, k)
    ensures MeanZ(iso, w, rows, cols) == k
  {
    GridSumFlat(iso, w, rows, cols, k, rows);
    hide GridSum;
    var n := (cols * rows) as real;
    assert n == cols as real * rows as real;
    assert rows as real * (cols as real * k) == n * k;
    MulStrict(cols as real, 0.0, rows as real);
    DivExact(GridSum(iso, w, rows, cols, rows), n, k);
  }

  lemma {:induction false} RowMomentsFlat(iso: seq<real>, w: nat, rows: nat, cols: nat, u: seq<real>, v: seq<real>, k: real, j: nat, n: nat)
    requires FitShape(iso, w, rows, cols, u, v) && Flat(iso, w, rows, cols, k) && j < rows && n <= cols
    ensures RowMoments(iso, w, rows, cols, u, v, k, j, n).suz == 0.0
    ensures RowMoments(iso, w, rows, cols, u, v, k, j, n).svz == 0.0
  {
    if n > 0 {
      RowMomentsFlat(iso, w, rows, cols, u, v, k, j, n - 1);
      assert Z(iso, w, rows, cols, n - 1, j) - k == 0.0;
    }
  }

  lemma {:induction false} GridMomentsFlat(iso: seq<real>, w: nat, rows: nat, cols: nat, u: seq<real>, v: seq<real>, k: real, m: nat)
    requires FitShape(iso, w, rows, cols, u, v) && Flat(iso, w, rows, cols, k) && m <= rows
    ensures GridMoments(iso, w, rows, cols, u, v, k, m).suz == 0.0
    ensures GridMoments(iso, w, rows, cols, u, v, k, m).svz == 0.0
  {
    if m > 0 {
      GridMomentsFlat(iso, w, rows, cols, u, v, k, m - 1);
      RowMomentsFlat(iso, w, rows, cols, u, v, k, m - 1, cols);
    }
  }

  /** A flat field fits the flat plane at its own height, whatever the coordinates. */
  lemma FlatFit(iso: seq<real>, w: nat, rows: nat, cols: nat, u: seq<real>, v: seq<real>, k: real)
    requires FitShape(iso, w, rows, cols, u, v) && Flat(iso, w, rows, cols, k)
    ensures Fit(iso, w, rows, cols, u, v) == (0.0, 0.0, k)
  {
    MeanFlat(iso, w, rows, cols, k);
    GridMomentsFlat(iso, w, rows, cols, u, v, k, rows);
  }

  /** Two buffers that agree on every grid vertex. */
  ghost predicate SameGrid(iso: seq<real>, iso': seq<real>, w: nat, rows: nat, cols: nat)
    requires Layout(w, rows, cols) && (rows + 2) * w <= |iso| && (rows + 2) * w <= |iso'|
  {
    forall i: nat, j: nat :: i < cols && j < rows ==> Z(iso, w, rows, cols, i, j) == Z(iso', w, rows, cols, i, j)
  }

  lemma {:induction false} SameRowSums(iso: seq<real>, iso': seq<real>, w: nat, rows: nat, cols: nat, j: nat, n: nat)
    requires Layout(w, rows, cols) && (rows + 2) * w <= |iso| && (rows + 2) * w <= |iso'|
    requires SameGrid(iso, iso', w, rows, cols) && j < rows && n <= cols
    ensures RowSum(iso, w, rows, cols, j, n) == RowSum(iso', w, rows, cols, j, n)
  {
    if n > 0 {
      SameRowSums(iso, iso', w, rows, cols, j, n - 1);
    }
  }

  lemma {:induction false} SameGridSums(iso: seq<real>, iso': seq<real>, w: nat, rows: nat, cols: nat, m: nat)
    requires Layout(w, rows, cols) && (rows + 2) * w <= |iso| && (rows + 2) * w <= |iso'|
    requires SameGrid(iso, iso', w, rows, cols) && m <= rows
    ensures GridSum(iso, w, rows, cols, m) == GridSum(iso', w, rows, cols, m)
  {
    if m > 0 {
      SameGridSums(iso, iso', w, rows, cols, m - 1);
      SameRowSums(iso, iso', w, rows, cols, m - 1, cols);
    }
  }

  lemma {:induction false} SameRowMoments(iso: seq<real>, iso': seq<real>, w: nat, rows: nat, cols: nat, u: seq<real>, v: seq<real>, mz: real, j: nat, n: nat)
    requires FitShape(iso, w, rows, cols, u, v) && FitShape(iso', w, rows, cols, u, v)
    requires SameGrid(iso, iso', w, rows, cols) && j < rows && n <= cols
    ensures RowMoments(iso, w, rows, cols, u, v, mz, j, n) == RowMoments(iso', w, rows, cols, u, v, mz, j, n)
  {
    if n > 0 {
      SameRowMoments(iso, iso', w, rows, cols, u, v, mz, j, n - 1);
    }
  }

  lemma {:induction false} SameGridMoments(iso: seq<real>, iso': seq<real>, w: nat, rows: nat, cols: nat, u: seq<real>, v: seq<real>, mz: real, m: nat)
    requires FitShape(iso, w, rows, cols, u, v) && FitShape(iso', w, rows, cols, u, v)
    requires SameGrid(iso, iso', w, rows, cols) && m <= rows
    ensures GridMoments(iso, w, rows, cols, u, v, mz, m) == GridMoments(iso', w, rows, cols, u, v, mz, m)
  {
    if m > 0 {
      SameGridMoments(iso, iso', w, rows, cols, u, v, mz, m - 1);
      SameRowMoments(iso, iso', w, rows, cols, u, v, mz, m - 1, cols);
    }
  }

  /** The fit reads only the grid vertices: the padding ring and the slack past it do not matter. */
  lemma FitInteriorOnly(iso: seq<real>, iso': seq<real>, w: nat, rows: nat, cols: nat, u: seq<real>, v: seq<real>)
    requires FitShape(iso, w, rows, cols, u, v) && FitShape(iso', w, rows, cols, u, v)
    requires SameGrid(iso, iso', w, rows, cols)
    ensures Fit(iso, w, rows, cols, u, v) == Fit(iso', w, rows, cols, u, v)
  {
    SameGridSums(iso, iso', w, rows, cols, rows);
    var mz := MeanZ(iso, w, rows, cols);
    SameGridMoments(iso, iso', w, rows, cols, u, v, mz, rows);
    FitIs(iso, w, rows, cols, u, v, mz, FitMoments(iso, w, rows, cols, u, v));
    FitIs(iso', w, rows, cols, u, v, mz, FitMoments(iso, w, rows, cols, u, v));
  }

  /** In particular re-padding the buffer (`fill_padding_for`) leaves the fit alone. */
  lemma FitPadded(iso: seq<real>, w: nat, rows: nat, cols: nat, u: seq<real>, v: seq<real>)
    requires FitShape(iso, w, rows, cols, u, v)
    ensures FitShape(Padded(iso, w, rows, cols), w, rows, cols, u, v)
    ensures Fit(Padded(iso, w, rows, cols), w, rows, cols, u, v) == Fit(iso, w, rows, cols, u, v)
  {
    var p := Padded(iso, w, rows, cols);
    PaddedCell(iso, w, rows, cols);
    forall i: nat, j: nat | i < cols && j < rows
      ensures Z(p, w, rows, cols, i, j) == Z(iso, w, rows, cols, i, j)
    {
      assert p[Idx(w, j + 1, i + 1)] == iso[Idx(w, ClampInt(j + 1, 1, rows), ClampInt(i + 1, 1, cols))];
    }
    FitInteriorOnly(p, iso, w, rows, cols, u, v);
  }
}
