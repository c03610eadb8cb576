/**
 * The field pass of the background painter (src/app/anim/paint/field.rs):
 * evaluate the warped two-layer flow field at every vertex of the grid and
 * write it into the interior of the cache's padded buffer.
 *
 * The main layer reads the warp from the cache's trigonometric tables
 * rotated by the time angles; the detail layer computes the same warp
 * forms directly at shifted coordinates and a slowed time. `IsoAt` states
 * the value with the direct forms only, and the angle-addition lemmas below
 * show that the table products are exactly those forms.
 */
module Field {
  import opened Numeric
  import opened Flow
  import opened Cache
  import opened PaintMath

  /** Four oscillators, as the `[f32; 4]` arrays of `FlowParams` always hold. */
  predicate FourWaves(p: FlowParams) {
    |p.kx| == |p.ky| == |p.w| == |p.ph| == 4
  }

  /** The four time phases `precompute_wtph(p, t)` returns. */
  function Phases(p: FlowParams, t: real): (r: seq<real>)
    requires FourWaves(p)
    ensures |r| == 4 && forall i :: 0 <= i < 4 ==> r[i] == Wtph(p, t, i)
  {
    seq(4, i requires 0 <= i < 4 => Wtph(p, t, i))
  }

  // ---------------------------------------------------------------------
  // Angle addition
  // ---------------------------------------------------------------------

  /** The addition laws at one pair of angles. */
  lemma AddLaws(m: Math, a: real, b: real)
    requires Lawful(m)
    ensures m.sin(a + b) == m.sin(a) * m.cos(b) + m.cos(a) * m.sin(b)
    ensures m.cos(a + b) == m.cos(a) * m.cos(b) - m.sin(a) * m.sin(b)
  {
    hide Lawful;
    LawsAt(m, a, b);
  }

  lemma LawsAt(m: Math, a: real, b: real)
    requires Lawful(m)
    ensures SinAdd(m, a, b) && CosAdd(m, a, b)
  {
  }

  /** `sin` and `cos` of one angle lie in `[-1, 1]` and square-sum to 1. */
  lemma UnitCircle(m: Math, a: real)
    requires Lawful(m)
    ensures -1.0 <= m.sin(a) <= 1.0 && -1.0 <= m.cos(a) <= 1.0
    ensures m.sin(a) * m.sin(a) + m.cos(a) * m.cos(a) == 1.0
  {
    Pythagoras(m, a);
  }

  /** The only solution `(C, S)` of the two equations the addition laws give at `x + (-x) == 0`. */
  lemma Reflect(s: real, c: real, cc: real, ss: real)
    requires s * cc + c * ss == 0.0 && c * cc - s * ss == 1.0 && s * s + c * c == 1.0
    ensures cc == c && ss == -s
  {
    assert cc == (s * s + c * c) * cc;
    assert (s * s + c * c) * cc == s * (s * cc + c * ss) + c * (c * cc - s * ss);
    assert ss == (s * s + c * c) * ss;
    assert (s * s + c * c) * ss == c * (s * cc + c * ss) - s * (c * cc - s * ss);
  }

  /** `cos(-x) == cos(x)` and `sin(-x) == -sin(x)`, derived from the addition laws. */
  lemma Negate(m: Math, x: real)
    requires Lawful(m)
    ensures m.cos(-x) == m.cos(x) && m.sin(-x) == -m.sin(x)
  {
    hide Lawful;
    AddLaws(m, x, -x);
    UnitCircle(m, x);
    Zero(m);
    assert x + -x == 0.0;
    Reflect(m.sin(x), m.cos(x), m.cos(-x), m.sin(-x));
  }

  lemma Zero(m: Math)
    requires Lawful(m)
    ensures m.sin(0.0) == 0.0 && m.cos(0.0) == 1.0
  {
  }

  /** `sin(a) cos(b) + cos(a) sin(b) == sin(a + b)` */
  lemma SinSum(m: Math, a: real, b: real)
    requires Lawful(m)
    ensures m.sin(a) * m.cos(b) + m.cos(a) * m.sin(b) == m.sin(a + b)
  {
    hide Lawful;
    AddLaws(m, a, b);
  }

  /** `cos(a) cos(b) + sin(a) sin(b) == cos(a - b)` */
  lemma CosDiff(m: Math, a: real, b: real)
    requires Lawful(m)
    ensures m.cos(a) * m.cos(b) + m.sin(a) * m.sin(b) == m.cos(a - b)
  {
    hide Lawful;
    AddLaws(m, a, -b);
    assert a + -b == a - b;
    Negate(m, b);
  }

  // ---------------------------------------------------------------------
  // The field value of one vertex
  // ---------------------------------------------------------------------

  /** `(x y) w`: a warp factor pair scaled by the amplitude; at most `|w|` when both factors are in `[-1, 1]`. */
  function Scaled(x: real, y: real, w: real): (r: real)
    ensures -1.0 <= x <= 1.0 && -1.0 <= y <= 1.0 ==> Abs(r) <= Abs(w)
  {
    if -1.0 <= x <= 1.0 && -1.0 <= y <= 1.0 then
      UnitProduct(x, y, w);
      (x * y) * w
    else (x * y) * w
  }

  /**
   * The warp of a layer at `(u, v)` and time `t`:
   * `(sin(0.9u + 0.6t) cos(0.7v - 0.4t), cos(0.6u - 0.5t) sin(0.8v + 0.3t))`
   * scaled by the layer's warp amplitude.
   */
  function Warp(m: Math, warp: real, u: real, v: real, t: real): (real, real) {
    (Scaled(m.sin(0.9 * u + 0.6 * t), m.cos(0.7 * v - 0.4 * t), warp),
     Scaled(m.cos(0.6 * u - 0.5 * t), m.sin(0.8 * v + 0.3 * t), warp))
  }

  /** Each warp displacement is at most the warp amplitude in size. */
  lemma WarpBound(m: Math, warp: real, u: real, v: real, t: real)
    requires Lawful(m)
    ensures Abs(Warp(m, warp, u, v, t).0) <= Abs(warp) && Abs(Warp(m, warp, u, v, t).1) <= Abs(warp)
  {
    hide Lawful;
    UnitCircle(m, 0.9 * u + 0.6 * t);
    UnitCircle(m, 0.7 * v - 0.4 * t);
    UnitCircle(m, 0.6 * u - 0.5 * t);
    UnitCircle(m, 0.8 * v + 0.3 * t);
  }

  /** The product of two values in `[-1, 1]` is in `[-1, 1]`. */
  lemma UnitMul(x: real, y: real)
    requires -1.0 <= x <= 1.0 && -1.0 <= y <= 1.0
    ensures -1.0 <= x * y <= 1.0
  {
    if x >= 0.0 {
      UnitTimes(y, x);
    } else {
      UnitTimes(y, -x);
      assert y * (-x) == -(x * y);
    }
  }

  /** `|(x y) w| <= |w|` for `x` and `y` in `[-1, 1]`. */
  lemma UnitProduct(x: real, y: real, w: real)
    requires -1.0 <= x <= 1.0 && -1.0 <= y <= 1.0
    ensures Abs((x * y) * w) <= Abs(w)
  {
    UnitMul(x, y);
    UnitScaled(x * y, w);
  }

  /** `|p w| <= |w|` for `p` in `[-1, 1]`. */
  lemma UnitScaled(p: real, w: real)
    requires -1.0 <= p <= 1.0
    ensures Abs(p * w) <= Abs(w)
  {
    if w < 0.0 {
      UnitTimes(p, -w);
      assert p * (-w) == -(p * w);
    } else {
      UnitTimes(p, w);
    }
  }

  /** The detail layer's coordinates `(1.07u + 0.031, 1.03v + 0.047)`. */
  function DetailU(u: real): real { u * 1.07 + 0.031 }
  function DetailV(v: real): real { v * 1.03 + 0.047 }

  /** The detail layer runs on the slowed time `0.97t`. */
  function DetailT(t: real): real { t * 0.97 }

  /** A layer of the field: the four-sine flow of `p` at the point displaced by the layer's warp. */
  function Layer(m: Math, p: FlowParams, t: real, u: real, v: real): (r: real)
    requires FourWaves(p)
    ensures -1.0 <= r <= 1.0
  {
    var d := Warp(m, p.warp, u, v, t);
    FlowFourSines(m, p, Phases(p, t), u + d.0, v + d.1)
  }

  /**
   * The field value `fill_iso` stores for the vertex at `(u, v)`: 0.6 of the
   * main layer plus 0.4 of the detail layer, clamped to `[-1, 1]`.
   */
  function IsoAt(m: Math, pMain: FlowParams, pDetail: FlowParams, t: real, u: real, v: real): (r: real)
    requires FourWaves(pMain) && FourWaves(pDetail)
    ensures -1.0 <= r <= 1.0
  {
    var f1 := Layer(m, pMain, t, u, v);
    var f2 := Layer(m, pDetail, DetailT(t), DetailU(u), DetailV(v));
    Clamp(0.6 * f1 + 0.4 * f2, -1.0, 1.0)
  }

  /** The blend needs no clamp: 0.6 and 0.4 of values in `[-1, 1]` stay in `[-1, 1]`. */
  lemma IsoUnclamped(m: Math, pMain: FlowParams, pDetail: FlowParams, t: real, u: real, v: real)
    requires FourWaves(pMain) && FourWaves(pDetail)
    ensures IsoAt(m, pMain, pDetail, t, u, v)
      == 0.6 * Layer(m, pMain, t, u, v) + 0.4 * Layer(m, pDetail, DetailT(t), DetailU(u), DetailV(v))
  {
  }

  /**
   * The main layer's `u` factors, read from the tables and rotated by the
   * time angles `(s06, c06)` and `(s05, c05)`, are the direct forms
   * `sin(0.9u + 0.6t)` and `cos(0.6u - 0.5t)`.
   */
  lemma ColumnForms(m: Math, g: Mesh, t: real, i: nat, u: real, s06: real, c06: real, s05: real, c05: real)
    requires Lawful(m) && Tabled(m, g) && i < |g.u| && u == g.u[i]
    requires s06 == Trig(m.sin, 0.6, t) && c06 == Trig(m.cos, 0.6, t)
    requires s05 == Trig(m.sin, 0.5, t) && c05 == Trig(m.cos, 0.5, t)
    ensures |g.uTrig.sinA| == |g.uTrig.cosA| == |g.uTrig.sinB| == |g.uTrig.cosB| == |g.u|
    ensures g.uTrig.sinA[i] * c06 + g.uTrig.cosA[i] * s06 == m.sin(0.9 * u + 0.6 * t)
    ensures g.uTrig.cosB[i] * c05 + g.uTrig.sinB[i] * s05 == m.cos(0.6 * u - 0.5 * t)
  {
    hide Lawful, Tabled;
    TabledAt(m, g, i, 0);
    RotSin(m, g.uTrig.sinA[i], g.uTrig.cosA[i], 0.9 * u, c06, s06, 0.6 * t);
    RotCos(m, g.uTrig.sinB[i], g.uTrig.cosB[i], 0.6 * u, c05, s05, 0.5 * t);
  }

  /**
   * The main layer's `v` factors, rotated by `(s04, c04)` and `(s03, c03)`,
   * are the direct forms `cos(0.7v - 0.4t)` and `sin(0.8v + 0.3t)`.
   */
  lemma RowForms(m: Math, g: Mesh, t: real, j: nat, v: real, s04: real, c04: real, s03: real, c03: real)
    requires Lawful(m) && Tabled(m, g) && j < |g.v| && v == g.v[j]
    requires s04 == Trig(m.sin, 0.4, t) && c04 == Trig(m.cos, 0.4, t)
    requires s03 == Trig(m.sin, 0.3, t) && c03 == Trig(m.cos, 0.3, t)
    ensures |g.vTrig.sinA| == |g.vTrig.cosA| == |g.vTrig.sinB| == |g.vTrig.cosB| == |g.v|
    ensures g.vTrig.cosA[j] * c04 + g.vTrig.sinA[j] * s04 == m.cos(0.7 * v - 0.4 * t)
    ensures g.vTrig.sinB[j] * c03 + g.vTrig.cosB[j] * s03 == m.sin(0.8 * v + 0.3 * t)
  {
    hide Lawful, Tabled;
    TabledAt(m, g, 0, j);
    RotCos(m, g.vTrig.sinA[j], g.vTrig.cosA[j], 0.7 * v, c04, s04, 0.4 * t);
    RotSin(m, g.vTrig.sinB[j], g.vTrig.cosB[j], 0.8 * v, c03, s03, 0.3 * t);
  }

  /** A table pair `(sin x, cos x)` turned by the angle `y`: `sin(x + y)`. */
  lemma RotSin(m: Math, s: real, c: real, x: real, cy: real, sy: real, y: real)
    requires Lawful(m) && s == m.sin(x) && c == m.cos(x) && cy == m.cos(y) && sy == m.sin(y)
    ensures s * cy + c * sy == m.sin(x + y)
  {
    hide Lawful;
    SinSum(m, x, y);
  }

  /** A table pair `(sin x, cos x)` turned back by the angle `y`: `cos(x - y)`. */
  lemma RotCos(m: Math, s: real, c: real, x: real, cy: real, sy: real, y: real)
    requires Lawful(m) && s == m.sin(x) && c == m.cos(x) && cy == m.cos(y) && sy == m.sin(y)
    ensures c * cy + s * sy == m.cos(x - y)
  {
    hide Lawful;
    CosDiff(m, x, y);
  }

  /** The table lengths, and the eight table entries of vertex `(i, j)`. */
  lemma TabledAt(m: Math, g: Mesh, i: nat, j: nat)
    requires Tabled(m, g)
    ensures |g.uTrig.sinA| == |g.uTrig.cosA| == |g.uTrig.sinB| == |g.uTrig.cosB| == |g.u|
    ensures |g.vTrig.sinA| == |g.vTrig.cosA| == |g.vTrig.sinB| == |g.vTrig.cosB| == |g.v|
    ensures i < |g.u| ==> g.uTrig.sinA[i] == m.sin(0.9 * g.u[i]) && g.uTrig.cosA[i] == m.cos(0.9 * g.u[i])
    ensures i < |g.u| ==> g.uTrig.sinB[i] == m.sin(0.6 * g.u[i]) && g.uTrig.cosB[i] == m.cos(0.6 * g.u[i])
    ensures j < |g.v| ==> g.vTrig.sinA[j] == m.sin(0.7 * g.v[j]) && g.vTrig.cosA[j] == m.cos(0.7 * g.v[j])
    ensures j < |g.v| ==> g.vTrig.sinB[j] == m.sin(0.8 * g.v[j]) && g.vTrig.cosB[j] == m.cos(0.8 * g.v[j])
  {
  }

  // ---------------------------------------------------------------------
  // fill_iso
  // ---------------------------------------------------------------------

  /** The mesh fits a buffer `s`: a layout with one coordinate per column and per row. */
  predicate Fits(g: Mesh, s: seq<real>) {
    Layout(g.wPad, g.rows, g.cols) && |g.u| == g.cols && |g.v| == g.rows && (g.rows + 2) * g.wPad <= |s|
  }

  /**
   * The buffer after `fill_iso`: interior cell `(j + 1, i + 1)` holds the
   * field at vertex `(u[i], v[j])`, every other cell keeps its value.
   */
  function Filled(s: seq<real>, m: Math, g: Mesh, pMain: FlowParams, pDetail: FlowParams, t: real): (r: seq<real>)
    requires Fits(g, s) && FourWaves(pMain) && FourWaves(pDetail)
    ensures |r| == |s|
  {
    var w := g.wPad;
    seq(|s|, k requires 0 <= k < |s| =>
      if k < (g.rows + 2) * w && Interior(w, g.rows, g.cols, k) then
        IsoAt(m, pMain, pDetail, t, g.u[k % w - 1], g.v[k / w - 1])
      else s[k])
  }

  /**
   * `fill_iso` writes every vertex and nothing else: vertex `(i, j)` gets
   * the field value, ghost cells and the slack past the padded area keep
   * theirs, and every vertex value lies in `[-1, 1]`.
   */
  lemma FilledCells(s: seq<real>, m: Math, g: Mesh, pMain: FlowParams, pDetail: FlowParams, t: real)
    requires Fits(g, s) && FourWaves(pMain) && FourWaves(pDetail)
    ensures forall i: nat, j: nat :: i < g.cols && j < g.rows ==>
      Idx(g.wPad, j + 1, i + 1) < |s| &&
      Filled(s, m, g, pMain, pDetail, t)[Idx(g.wPad, j + 1, i + 1)] == IsoAt(m, pMain, pDetail, t, g.u[i], g.v[j])
    ensures forall k :: 0 <= k < |s| && !(k < (g.rows + 2) * g.wPad && Interior(g.wPad, g.rows, g.cols, k)) ==>
      Filled(s, m, g, pMain, pDetail, t)[k] == s[k]
    ensures InteriorIn(Filled(s, m, g, pMain, pDetail, t), g.wPad, g.rows, g.cols, -1.0, 1.0)
  {
    hide IsoAt;
    IdxFacts(g.wPad, g.rows + 2);
  }

  /** Vertex `(r, c)` of the padded buffer part-way through `fill_iso`, which has reached vertex `(j, i)`. */
  function FillStage(s: seq<real>, m: Math, g: Mesh, pMain: FlowParams, pDetail: FlowParams, t: real, j: nat, i: nat, r: nat, c: nat): real
    requires Fits(g, s) && FourWaves(pMain) && FourWaves(pDetail) && r <= g.rows + 1 && c <= g.cols + 1
  {
    IdxFacts(g.wPad, g.rows + 2);
    if 1 <= r <= g.rows && 1 <= c <= g.cols && Before(r, c, j, i) then
      IsoAt(m, pMain, pDetail, t, g.u[c - 1], g.v[r - 1])
    else s[Idx(g.wPad, r, c)]
  }

  /** The loops of `fill_iso` have brought `b` to vertex `(j, i)` and left the rest of `s` alone. */
  ghost predicate AtFill(b: seq<real>, s: seq<real>, m: Math, g: Mesh, pMain: FlowParams, pDetail: FlowParams, t: real, j: nat, i: nat)
    requires Fits(g, s) && |b| == |s| && FourWaves(pMain) && FourWaves(pDetail)
  {
    IdxFacts(g.wPad, g.rows + 2);
    && (forall r: nat, c: nat :: r <= g.rows + 1 && c <= g.cols + 1 ==>
          b[Idx(g.wPad, r, c)] == FillStage(s, m, g, pMain, pDetail, t, j, i, r, c))
    && (forall k :: (g.rows + 2) * g.wPad <= k < |b| ==> b[k] == s[k])
  }

  /** Before the loops of `fill_iso` nothing is written. */
  lemma FillStart(s: seq<real>, m: Math, g: Mesh, pMain: FlowParams, pDetail: FlowParams, t: real)
    requires Fits(g, s) && FourWaves(pMain) && FourWaves(pDetail)
    ensures AtFill(s, s, m, g, pMain, pDetail, t, 1, 1)
  {
    IdxFacts(g.wPad, g.rows + 2);
  }

  /** One step of `fill_iso`: vertex `(i, j)`, cell `(j + 1, i + 1)`. */
  lemma FillStep(b: seq<real>, s: seq<real>, m: Math, g: Mesh, pMain: FlowParams, pDetail: FlowParams, t: real, j: nat, i: nat)
    requires Fits(g, s) && |b| == |s| && FourWaves(pMain) && FourWaves(pDetail)
    requires j < g.rows && i < g.cols && AtFill(b, s, m, g, pMain, pDetail, t, j + 1, i + 1)
    ensures Idx(g.wPad, j + 1, i + 1) < |b|
    ensures AtFill(b[Idx(g.wPad, j + 1, i + 1) := IsoAt(m, pMain, pDetail, t, g.u[i], g.v[j])],
      s, m, g, pMain, pDetail, t, j + 1, i + 2)
  {
    hide IsoAt;
    IdxFacts(g.wPad, g.rows + 2);
  }

  /** The end of a row of `fill_iso` is the start of the next. */
  lemma FillRow(b: seq<real>, s: seq<real>, m: Math, g: Mesh, pMain: FlowParams, pDetail: FlowParams, t: real, j: nat)
    requires Fits(g, s) && |b| == |s| && FourWaves(pMain) && FourWaves(pDetail)
    requires AtFill(b, s, m, g, pMain, pDetail, t, j + 1, g.cols + 1)
    ensures AtFill(b, s, m, g, pMain, pDetail, t, j + 2, 1)
  {
  }

  /** A finished `fill_iso` leaves `Filled`. */
  lemma FillDone(b: seq<real>, s: seq<real>, m: Math, g: Mesh, pMain: FlowParams, pDetail: FlowParams, t: real)
    requires Fits(g, s) && |b| == |s| && FourWaves(pMain) && FourWaves(pDetail)
    requires AtFill(b, s, m, g, pMain, pDetail, t, g.rows + 1, 1)
    ensures b == Filled(s, m, g, pMain, pDetail, t)
  {
    hide IsoAt;
    var w, h := g.wPad, g.rows + 2;
    IdxFacts(w, h);
    forall k | 0 <= k < |b|
      ensures b[k] == Filled(s, m, g, pMain, pDetail, t)[k]
    {
      if k < h * w {
        IdxOf(w, h, k);
        var r: nat, c: nat := k / w, k % w;
        assert b[Idx(w, r, c)] == FillStage(s, m, g, pMain, pDetail, t, g.rows + 1, 1, r, c);
      }
    }
  }

  /**
   * The value `fill_iso` computes for one vertex from the main layer's
   * warp factors (already shown to be the direct forms) and the detail
   * layer's shifted coordinates is `IsoAt` at the vertex.
   */
  lemma CellValue(m: Math, pMain: FlowParams, pDetail: FlowParams, t: real, u: real, v: real,
                  sinU: real, cosV: real, cosU: real, sinV: real,
                  wtMain: seq<real>, wtDetail: seq<real>, u2: real, v2: real, t2: real)
    requires FourWaves(pMain) && FourWaves(pDetail)
    requires sinU == m.sin(0.9 * u + 0.6 * t) && cosV == m.cos(0.7 * v - 0.4 * t)
    requires cosU == m.cos(0.6 * u - 0.5 * t) && sinV == m.sin(0.8 * v + 0.3 * t)
    requires wtMain == Phases(pMain, t) && wtDetail == Phases(pDetail, t2)
    requires u2 == DetailU(u) && v2 == DetailV(v) && t2 == DetailT(t)
    ensures
      var f1 := FlowFourSines(m, pMain, wtMain, u + Scaled(sinU, cosV, pMain.warp), v + Scaled(cosU, sinV, pMain.warp));
      var d2 := Warp(m, pDetail.warp, u2, v2, t2);
      var f2 := FlowFourSines(m, pDetail, wtDetail, u2 + d2.0, v2 + d2.1);
      Clamp(0.6 * f1 + 0.4 * f2, -1.0, 1.0) == IsoAt(m, pMain, pDetail, t, u, v)
  {
    hide FlowFourSines, Phases, Scaled;
    var d1 := Warp(m, pMain.warp, u, v, t);
    assert d1 == (Scaled(sinU, cosV, pMain.warp), Scaled(cosU, sinV, pMain.warp));
    assert Layer(m, pMain, t, u, v) == FlowFourSines(m, pMain, wtMain, u + d1.0, v + d1.1);
    var d2 := Warp(m, pDetail.warp, u2, v2, t2);
    assert Layer(m, pDetail, DetailT(t), DetailU(u), DetailV(v)) == FlowFourSines(m, pDetail, wtDetail, u2 + d2.0, v2 + d2.1);
  }

  /**
   * The body of `fill_iso`'s inner loop for one vertex at `(u, v)`, given
   * the main layer's four rotated table factors: both layers and their
   * clamped blend.
   */
  method Vertex(m: Math, pMain: FlowParams, pDetail: FlowParams, wtMain: seq<real>, wtDetail: seq<real>,
                t: real, t2: real, u: real, v: real, v2: real,
                sin09uT: real, cos07vT: real, cos06uT: real, sin08vT: real) returns (val: real)
    requires FourWaves(pMain) && FourWaves(pDetail)
    requires sin09uT == m.sin(0.9 * u + 0.6 * t) && cos07vT == m.cos(0.7 * v - 0.4 * t)
    requires cos06uT == m.cos(0.6 * u - 0.5 * t) && sin08vT == m.sin(0.8 * v + 0.3 * t)
    requires wtMain == Phases(pMain, t) && wtDetail == Phases(pDetail, t2)
    requires v2 == DetailV(v) && t2 == DetailT(t)
    ensures val == IsoAt(m, pMain, pDetail, t, u, v)
  {
    hide FlowFourSines, IsoAt, Layer, Warp, Phases, Scaled;
    var du1 := Scaled(sin09uT, cos07vT, pMain.warp);
    var dv1 := Scaled(cos06uT, sin08vT, pMain.warp);
    var f1 := FlowFourSines(m, pMain, wtMain, u + du1, v + dv1);

    var u2 := u * 1.07 + 0.031;
    var d2 := Warp(m, pDetail.warp, u2, v2, t2);
    var f2 := FlowFourSines(m, pDetail, wtDetail, u2 + d2.0, v2 + d2.1);

    CellValue(m, pMain, pDetail, t, u, v, sin09uT, cos07vT, cos06uT, sin08vT, wtMain, wtDetail, u2, v2, t2);
    val := Clamp(0.6 * f1 + 0.4 * f2, -1.0, 1.0);
  }

  /** The cache of a keyed grid fits its field buffer. */
  lemma SizedFits(cache: BgCache)
    requires cache.Sized()
    ensures Fits(cache.mesh, cache.iso[..])
  {
    assert (cache.mesh.rows + 2) * cache.mesh.wPad == Cap(cache.nx, cache.ny);
  }

  /**
   * `fill_iso`: for every vertex, evaluate both layers (the main one's warp
   * from the tables, the detail one's directly) and store the clamped blend
   * at the vertex's interior cell.
   */
  method FillIso(cache: BgCache, m: Math, pMain: FlowParams, pDetail: FlowParams, t: real)
    requires Lawful(m) && cache.Sized() && Tabled(m, cache.mesh)
    requires FourWaves(pMain) && FourWaves(pDetail)
    modifies cache.iso
    ensures Fits(cache.mesh, old(cache.iso[..]))
    ensures cache.iso[..] == Filled(old(cache.iso[..]), m, cache.mesh, pMain, pDetail, t)
  {
    hide Lawful, Tabled, Shaped, AtFill, Filled, IsoAt, Layer, Warp, FlowFourSines;
    SizedFits(cache);
    var g := cache.mesh;
    var iso := cache.iso;
    var rows, cols, w := g.rows, g.cols, g.wPad;
    ghost var s := iso[..];
    TabledAt(m, g, 0, 0);

    var wtMain := PrecomputeWtph(pMain, t);
    var t2 := t * 0.97;
    var wtDetail := PrecomputeWtph(pDetail, t2);
    assert wtMain == Phases(pMain, t) && wtDetail == Phases(pDetail, t2);

    var s06, c06 := Trig(m.sin, 0.6, t), Trig(m.cos, 0.6, t);
    var s05, c05 := Trig(m.sin, 0.5, t), Trig(m.cos, 0.5, t);
    var s04, c04 := Trig(m.sin, 0.4, t), Trig(m.cos, 0.4, t);
    var s03, c03 := Trig(m.sin, 0.3, t), Trig(m.cos, 0.3, t);

    FillStart(iso[..], m, g, pMain, pDetail, t);
    for j := 0 to rows
      invariant AtFill(iso[..], s, m, g, pMain, pDetail, t, j + 1, 1)
    {
      var v := g.v[j];
      var row := (j + 1) * w;
      var v2 := v * 1.03 + 0.047;
      var cos07vT := g.vTrig.cosA[j] * c04 + g.vTrig.sinA[j] * s04;
      var sin08vT := g.vTrig.sinB[j] * c03 + g.vTrig.cosB[j] * s03;
      RowForms(m, g, t, j, v, s04, c04, s03, c03);
      for i := 0 to cols
        invariant AtFill(iso[..], s, m, g, pMain, pDetail, t, j + 1, i + 1)
      {
        var u := g.u[i];
        var idx := row + (i + 1);
        var sin09uT := g.uTrig.sinA[i] * c06 + g.uTrig.cosA[i] * s06;
        var cos06uT := g.uTrig.cosB[i] * c05 + g.uTrig.sinB[i] * s05;
        ColumnForms(m, g, t, i, u, s06, c06, s05, c05);
        var val := Vertex(m, pMain, pDetail, wtMain, wtDetail, t, t2, u, v, v2, sin09uT, cos07vT, cos06uT, sin08vT);
        FillStep(iso[..], s, m, g, pMain, pDetail, t, j, i);
        iso[idx] := val;
      }
      FillRow(iso[..], s, m, g, pMain, pDetail, t, j);
    }
    FillDone(iso[..], s, m, g, pMain, pDetail, t);
  }
}
