/**
 * The mesh renderer of the background painter
 * (src/app/anim/paint/render.rs): one coloured vertex per grid vertex, in
 * row-major order, shaded from the smoothed field, its slopes, the plane
 * and the row biases of the cache.
 */
module Render {
  import opened Numeric
  import opened Cache
  import opened PaintMath
  import opened Colour
  import opened Config

  datatype Rect = Rect(left: real, top: real, right: real, bottom: real)

  /** A vertex of an `egui::Mesh`: position and colour. */
  datatype Vertex = Vertex(x: real, y: real, col: Color32)

  datatype EguiMesh = EguiMesh(vertices: seq<Vertex>, indices: seq<nat>)

  /**
   * The per-frame inputs of `render_mesh`: the screen rectangle, the three
   * background stops, the accent hue, the light direction, the music drive,
   * the fitted plane and the two half inverse grid steps.
   */
  datatype Frame = Frame(
    rect: Rect,
    stops: (Color32, Color32, Color32),
    hAcc: real,
    light: (real, real, real),
    music: real,
    plane: (real, real, real),
    invDu2: real,
    invDv2: real)

  /** A linear blend stays between its ends. */
  lemma LerpBetween(a: real, b: real, t: real)
    ensures 0.0 <= t <= 1.0 ==> Min(a, b) <= (1.0 - t) * a + t * b <= Max(a, b)
  {
    if 0.0 <= t <= 1.0 {
      var d := b - a;
      assert (1.0 - t) * a + t * b == a + t * d;
      assert (1.0 - t) * d == d - t * d;
      if a <= b {
        MulNonNeg(t, d);
        MulNonNeg(1.0 - t, d);
      } else {
        MulNonNeg(t, -d);
        MulNonNeg(1.0 - t, -d);
      }
    }
  }

  /** `egui::lerp(a..=b, t)` */
  function Lerp(a: real, b: real, t: real): (r: real)
    ensures t == 0.0 ==> r == a
    ensures t == 1.0 ==> r == b
    ensures 0.0 <= t <= 1.0 ==> Min(a, b) <= r <= Max(a, b)
  {
    LerpBetween(a, b, t);
    (1.0 - t) * a + t * b
  }

  /** A central difference of the field, scaled by the half inverse grid step. */
  function Slope(hi: real, lo: real, inv: real): real {
    (hi - lo) * inv
  }

  /** The fitted plane at `(u, v)`. */
  function Drift(plane: (real, real, real), u: real, v: real): real {
    plane.0 * u + plane.1 * v + plane.2
  }

  /** The relief of the field once the plane and the row bias are taken away. */
  function Relief(iso: real, drift: real, bias: real): real {
    (iso - drift - bias) * 0.95
  }

  /** How far the relief bends the gradient coordinate. */
  function WarpV(p: BgAnimCfg, music: real): real {
    p.visGain * (p.warpBase + p.warpMusic * music)
  }

  /** The gradient coordinate of a vertex: its height bent by the relief and folded back into `[0, 1]`. */
  function BentHeight(v: real, relief: real, warp: real): (r: real)
    ensures 0.0 <= r <= 1.0
    ensures 0.0 <= v <= 1.0 && relief * warp == 0.0 ==> r == v
  {
    var x := v + relief * warp;
    if 0.0 <= x <= 1.0 then Mirror01Identity(x); Mirror01(x) else Mirror01(x)
  }

  /** How steeply the surface tilts along one axis. */
  function Tilt(d: real, depth: real, music: real): real {
    -d * depth * (0.85 + 0.30 * music)
  }

  /** Dividing `(a, b, 1)` by its length gives a unit vector. */
  lemma UnitNormal(a: real, b: real, q: real)
    requires q >= 1.0 && Sq(q) == a * a + b * b + 1.0 * 1.0
    ensures Sq(a * (1.0 / q)) + Sq(b * (1.0 / q)) + Sq(1.0 * (1.0 / q)) == 1.0
  {
    var inv := 1.0 / q;
    SqMul(a, inv);
    SqMul(b, inv);
    SqMul(1.0, inv);
    SqMul(inv, q);
    assert inv * q == 1.0;
    assert Sq(inv) * Sq(q) == 1.0;
    assert Sq(a * inv) + Sq(b * inv) + Sq(1.0 * inv) == Sq(inv) * (Sq(a) + Sq(b) + Sq(1.0));
  }

  /** The one law of `sqrt` the renderer needs: it inverts squaring on the non-negative reals. */
  ghost predicate SqrtLaw(m: Math) {
    forall x :: x >= 0.0 ==> m.sqrt(x) >= 0.0 && Sq(m.sqrt(x)) == x
  }

  lemma SqrtOfLawful(m: Math)
    requires Lawful(m)
    ensures SqrtLaw(m)
  {
  }

  /** The length of `(a, b, 1)` is at least 1 and squares back to the squared length. */
  lemma NormalLength(m: Math, a: real, b: real)
    requires SqrtLaw(m)
    ensures var q := m.sqrt(a * a + b * b + 1.0 * 1.0);
      q >= 1.0 && Sq(q) == a * a + b * b + 1.0 * 1.0
  {
    var len2 := a * a + b * b + 1.0 * 1.0;
    assert len2 >= 1.0 by {
      assert Sq(a) >= 0.0 && Sq(b) >= 0.0;
    }
    var q := m.sqrt(len2);
    assert q >= 0.0 && Sq(q) == len2;
    if q < 1.0 {
      SqStrict(q, 1.0);
    }
  }

  /** `(a, b, 1)` divided by its length. */
  function Unit(m: Math, a: real, b: real): (n: (real, real, real))
    requires SqrtLaw(m)
    ensures Sq(n.0) + Sq(n.1) + Sq(n.2) == 1.0
    ensures 0.0 < n.2 <= 1.0
    ensures n.0 == a * n.2 && n.1 == b * n.2
  {
    var q := m.sqrt(a * a + b * b + 1.0 * 1.0);
    NormalLength(m, a, b);
    UnitNormal(a, b, q);
    var inv := 1.0 / q;
    (a * inv, b * inv, 1.0 * inv)
  }

  /**
   * The surface normal `(nx, ny, 1)` normalised: a unit vector pointing
   * the same way, whose upward part lies in `(0, 1]`.
   */
  function Normal(m: Math, ddu: real, ddv: real, depth: real, music: real): (n: (real, real, real))
    requires SqrtLaw(m)
    ensures Sq(n.0) + Sq(n.1) + Sq(n.2) == 1.0
    ensures 0.0 < n.2 <= 1.0
    ensures n.0 == Tilt(ddu, depth, music) * n.2 && n.1 == Tilt(ddv, depth, music) * n.2
  {
    Unit(m, Tilt(ddu, depth, music), Tilt(ddv, depth, music))
  }

  /** Lambertian lighting: the normal against the light, clamped into `[0, 1]`. */
  function Lambert(n: (real, real, real), light: (real, real, real)): (r: real)
    ensures 0.0 <= r <= 1.0
  {
    Clamp(n.0 * light.0 + n.1 * light.1 + n.2 * light.2, 0.0, 1.0)
  }

  /** The rim light `max(1 - nz, 0)^2`: below 1, and none where the surface faces the viewer. */
  function Rim(nz: real): (r: real)
    requires 0.0 < nz <= 1.0
    ensures 0.0 <= r < 1.0
    ensures nz == 1.0 ==> r == 0.0
  {
    var e := Max(1.0 - nz, 0.0);
    SqStrict(e, 1.0);
    assert Sq(1.0) == 1.0;
    Sq(e)
  }

  /** The distance of `(u, v)` from the centre of the unit square. */
  function Radius(m: Math, u: real, v: real): real {
    m.sqrt((u - 0.5) * (u - 0.5) + (v - 0.5) * (v - 0.5))
  }

  /**
   * The focus weight: `p.focus` at the centre, `1 - p.focus` at the edges,
   * and a blend of the two in between.
   */
  function Focus(center: real, focus: real): (r: real)
    requires 0.0 <= center <= 1.0
    ensures Min(focus, 1.0 - focus) <= r <= Max(focus, 1.0 - focus)
    ensures center == 1.0 ==> r == focus
    ensures center == 0.0 ==> r == 1.0 - focus
  {
    LerpBetween(1.0 - focus, focus, center);
    center * focus + (1.0 - center) * (1.0 - focus)
  }

  /** The volume of the light: the gain at the music level, weighted by the focus. */
  function Vol(p: BgAnimCfg, music: real, focus: real): real {
    p.visGain * (p.volBase + p.volMusic * music) * focus
  }

  /** The lift of the light: Lambert term about one half plus the rim. */
  function Lift(p: BgAnimCfg, lambert: real, rim: real): real {
    (lambert - 0.5) * p.lambertGain + rim * p.rimGain
  }

  /** The lit brightness, clamped into `[0, 1]`. */
  function Brightness(val: real, vol: real, lift: real): (r: real)
    ensures 0.0 <= r <= 1.0
    ensures 0.0 <= val <= 1.0 && vol * lift == 0.0 ==> r == val
  {
    Clamp(val + vol * lift, 0.0, 1.0)
  }

  /**
   * The hue step toward the accent, wrapped once each way: it differs from
   * `hAcc - h` by a multiple of 360, is `hAcc - h` itself when that is
   * already the short way round, and lies in `[-180, 180]` for hues in `[0, 360)`.
   */
  function HueWrap(hAcc: real, h: real): (dh: real)
    ensures dh == hAcc - h || dh == hAcc - h - 360.0 || dh == hAcc - h + 360.0
    ensures -180.0 <= hAcc - h <= 180.0 ==> dh == hAcc - h
    ensures 0.0 <= h < 360.0 && 0.0 <= hAcc < 360.0 ==> -180.0 <= dh <= 180.0
  {
    var d := hAcc - h;
    var d1 := if d > 180.0 then d - 360.0 else d;
    if d1 < -180.0 then d1 + 360.0 else d1
  }

  /** The hue pulled toward the accent and brought back into `[0, 360)`. */
  function Hue(h: real, dh: real, follow: real, focus: real): (r: real)
    ensures 0.0 <= r < 360.0
  {
    RemEuclid(h + dh * follow * focus, 360.0)
  }

  /** The cache contents the renderer reads: a padded field, the grid and a bias per row. */
  predicate Readable(iso: seq<real>, g: Mesh, rowBias: seq<real>) {
    && Layout(g.wPad, g.rows, g.cols)
    && (g.rows + 2) * g.wPad <= |iso|
    && |g.u| == g.cols && |g.v| == g.rows && |rowBias| == g.rows
  }

  /** The cell of vertex `(i, j)` and its four neighbours lie inside the padded buffer. */
  lemma Around(g: Mesh, i: nat, j: nat)
    requires Layout(g.wPad, g.rows, g.cols) && i < g.cols && j < g.rows
    ensures Interior(g.wPad, g.rows, g.cols, Idx(g.wPad, j + 1, i + 1))
    ensures g.wPad + 1 <= Idx(g.wPad, j + 1, i + 1)
    ensures Idx(g.wPad, j + 1, i + 1) + g.wPad + 1 < (g.rows + 2) * g.wPad
  {
    IdxRowCol(g.wPad, j + 1, i + 1);
    InteriorNeighbours(g.wPad, g.rows, g.cols, Idx(g.wPad, j + 1, i + 1));
  }

  /** Everything one vertex's shading computes. */
  datatype Shade = Shade(
    vv: real,
    normal: (real, real, real),
    lambert: real,
    rim: real,
    focus: real,
    dh: real,
    h: real,
    s: real,
    val: real)

  /** Everything `render_mesh` reads: the maths, the colours, the settings, the frame and the cache's field, grid and biases. */
  datatype Scene = Scene(m: Math, pal: Palette, p: BgAnimCfg, f: Frame, iso: seq<real>, g: Mesh, bias: seq<real>)

  ghost predicate Ready(sc: Scene) {
    SqrtLaw(sc.m) && Readable(sc.iso, sc.g, sc.bias)
  }

  /**
   * The shading of vertex `(i, j)`: every intermediate quantity lies in the
   * range the renderer relies on.
   */
  function ShadeAt(sc: Scene, i: nat, j: nat): (sh: Shade)
    requires Ready(sc) && i < sc.g.cols && j < sc.g.rows
    ensures 0.0 <= sh.vv <= 1.0
    ensures Sq(sh.normal.0) + Sq(sh.normal.1) + Sq(sh.normal.2) == 1.0 && 0.0 < sh.normal.2 <= 1.0
    ensures 0.0 <= sh.lambert <= 1.0 && 0.0 <= sh.rim < 1.0
    ensures Min(sc.p.focus, 1.0 - sc.p.focus) <= sh.focus <= Max(sc.p.focus, 1.0 - sc.p.focus)
    ensures 0.0 <= sh.val <= 1.0 && 0.0 <= sh.h < 360.0
    ensures HsvRange(sc.pal) && 0.0 <= sc.f.hAcc < 360.0 ==> -180.0 <= sh.dh <= 180.0 && 0.0 <= sh.s <= 1.0
  {
    var g, iso, f, p := sc.g, sc.iso, sc.f, sc.p;
    var w := g.wPad;
    Around(g, i, j);
    var idx := Idx(w, j + 1, i + 1);
    var u, v := g.u[i], g.v[j];
    var ddu := Slope(iso[idx + 1], iso[idx - 1], f.invDu2);
    var ddv := Slope(iso[idx + w], iso[idx - w], f.invDv2);
    var relief := Relief(iso[idx], Drift(f.plane, u, v), sc.bias[j]);
    var vv := BentHeight(v, relief, WarpV(p, f.music));
    var hsv := sc.pal.rgbToHsv(BaseGradient(sc.pal, f.stops, vv));
    var n := Normal(sc.m, ddu, ddv, p.depthGain, f.music);
    var lambert := Lambert(n, f.light);
    var rim := Rim(n.2);
    var center := SmoothstepInv(0.30, 0.85, Radius(sc.m, u, v));
    var focus := Focus(center, p.focus);
    var val := Brightness(hsv.2, Vol(p, f.music, focus), Lift(p, lambert, rim));
    var dh := HueWrap(f.hAcc, hsv.0);
    assert HsvRange(sc.pal) ==> HsvIn(hsv);
    Shade(vv, n, lambert, rim, focus, dh, Hue(hsv.0, dh, p.hueFollow, focus), hsv.1, val)
  }

  /** Vertex `(i, j)`: its place in the rectangle and its shaded colour. */
  function VertexAt(sc: Scene, i: nat, j: nat): Vertex
    requires Ready(sc) && i < sc.g.cols && j < sc.g.rows
  {
    var sh := ShadeAt(sc, i, j);
    var r := sc.f.rect;
    Vertex(Lerp(r.left, r.right, sc.g.u[i]), Lerp(r.top, r.bottom, sc.g.v[j]), sc.pal.hsvToRgb(sh.h, sh.s, sh.val))
  }

  /** The vertex list `render_mesh` builds: row by row, each row left to right. */
  function Vertices(sc: Scene): (vs: seq<Vertex>)
    requires Ready(sc)
    ensures |vs| == sc.g.cols * sc.g.rows
  {
    var cols, rows := sc.g.cols, sc.g.rows;
    seq(cols * rows, k requires 0 <= k < cols * rows =>
      RowBelow(cols, k, rows);
      VertexAt(sc, k % cols, k / cols))
  }

  /** Vertex `(i, j)` is vertex number `j * cols + i`: rows outer, columns inner. */
  lemma RowMajor(sc: Scene, i: nat, j: nat)
    requires Ready(sc) && i < sc.g.cols && j < sc.g.rows
    ensures Idx(sc.g.cols, j, i) < |Vertices(sc)|
    ensures Vertices(sc)[Idx(sc.g.cols, j, i)] == VertexAt(sc, i, j)
  {
    IdxRowCol(sc.g.cols, j, i);
    IdxBelow(sc.g.cols, j, i, sc.g.rows);
  }

  /**
   * Vertex number `j * cols + i` sits at `lerp(rect, u[i], v[j])`: the grid
   * spans the rectangle from its top-left to its bottom-right corner.
   */
  lemma VertexPlace(sc: Scene, i: nat, j: nat)
    requires Ready(sc) && i < sc.g.cols && j < sc.g.rows
    ensures Idx(sc.g.cols, j, i) < |Vertices(sc)|
    ensures var vx, r := Vertices(sc)[Idx(sc.g.cols, j, i)], sc.f.rect;
      vx.x == Lerp(r.left, r.right, sc.g.u[i]) && vx.y == Lerp(r.top, r.bottom, sc.g.v[j])
  {
    RowMajor(sc, i, j);
  }

  /** One cell of the refilled buffer: the nearest interior cell of the source. */
  lemma PaddedAt(s: seq<real>, w: nat, rows: nat, cols: nat, r: nat, c: nat)
    requires Layout(w, rows, cols) && (rows + 2) * w <= |s| && r <= rows + 1 && c <= cols + 1
    ensures Idx(w, r, c) < |s|
    ensures Padded(s, w, rows, cols)[Idx(w, r, c)] == s[Idx(w, ClampInt(r, 1, rows), ClampInt(c, 1, cols))]
  {
    PaddedCell(s, w, rows, cols);
  }

  /** Ghost cell `(r, c)` takes the value of its interior neighbour `(r', c')` when refilled. */
  lemma GhostCopies(s: seq<real>, w: nat, rows: nat, cols: nat, r: nat, c: nat, r': nat, c': nat)
    requires Layout(w, rows, cols) && (rows + 2) * w <= |s|
    requires r <= rows + 1 && c <= cols + 1 && 1 <= r' <= rows && 1 <= c' <= cols
    requires r' == ClampInt(r, 1, rows) && c' == ClampInt(c, 1, cols) && (r != r' || c != c')
    ensures Idx(w, r, c) < |s| && Idx(w, r', c') < |s|
    ensures !Interior(w, rows, cols, Idx(w, r, c))
    ensures Padded(s, w, rows, cols)[Idx(w, r, c)] == Padded(s, w, rows, cols)[Idx(w, r', c')]
  {
    PaddedAt(s, w, rows, cols, r, c);
    PaddedAt(s, w, rows, cols, r', c');
    IdxRowCol(w, r, c);
  }

  /**
   * A vertex in the first or last column reads a ghost cell beside it.
   * Once the padding has been refilled, that cell holds the vertex's own
   * value, so its slope across the edge is one-sided.
   */
  lemma FreshSideBorder(s: seq<real>, g: Mesh, i: nat, j: nat)
    requires Layout(g.wPad, g.rows, g.cols) && (g.rows + 2) * g.wPad <= |s| && i < g.cols && j < g.rows
    ensures var iso, k := Padded(s, g.wPad, g.rows, g.cols), Idx(g.wPad, j + 1, i + 1);
      && 1 <= k && k + 1 < |iso|
      && (i == 0 ==> !Interior(g.wPad, g.rows, g.cols, k - 1) && iso[k - 1] == iso[k])
      && (i == g.cols - 1 ==> !Interior(g.wPad, g.rows, g.cols, k + 1) && iso[k + 1] == iso[k])
  {
    var w, rows, cols := g.wPad, g.rows, g.cols;
    var r, c := j + 1, i + 1;
    Around(g, i, j);
    hide Padded, Interior;
    if i == 0 {
      GhostCopies(s, w, rows, cols, r, 0, r, c);
    }
    if i == cols - 1 {
      GhostCopies(s, w, rows, cols, r, cols + 1, r, c);
    }
  }

  /**
   * A vertex in the first or last row reads a ghost cell above or below it.
   * Once the padding has been refilled, that cell holds the vertex's own value.
   */
  lemma FreshEndBorder(s: seq<real>, g: Mesh, i: nat, j: nat)
    requires Layout(g.wPad, g.rows, g.cols) && (g.rows + 2) * g.wPad <= |s| && i < g.cols && j < g.rows
    ensures var iso, k, w := Padded(s, g.wPad, g.rows, g.cols), Idx(g.wPad, j + 1, i + 1), g.wPad;
      && w <= k && k + w < |iso|
      && (j == 0 ==> !Interior(w, g.rows, g.cols, k - w) && iso[k - w] == iso[k])
      && (j == g.rows - 1 ==> !Interior(w, g.rows, g.cols, k + w) && iso[k + w] == iso[k])
  {
    var w, rows, cols := g.wPad, g.rows, g.cols;
    var r, c := j + 1, i + 1;
    Around(g, i, j);
    hide Padded, Interior;
    assert Idx(w, r - 1, c) + w == Idx(w, r, c) == Idx(w, r + 1, c) - w;
    if j == 0 {
      assert r - 1 == 0;
      GhostCopies(s, w, rows, cols, r - 1, c, r, c);
    }
    if j == rows - 1 {
      assert r + 1 == rows + 1;
      GhostCopies(s, w, rows, cols, r + 1, c, r, c);
    }
  }

  /** A cache the renderer may read. */
  lemma SizedReadable(nx: nat, ny: nat, g: Mesh, iso: seq<real>, rowBias: seq<real>)
    requires Shaped(nx, ny, g) && |iso| == Cap(nx, ny) && |rowBias| == g.rows
    ensures Readable(iso, g, rowBias)
  {
    assert (g.rows + 2) * g.wPad == Cap(nx, ny);
  }

  /** Appending the next element of `all` to a prefix of `all` gives the next prefix. */
  lemma Snoc<T>(all: seq<T>, n: nat, pre: seq<T>, x: T)
    requires n < |all| && pre == all[..n] && x == all[n]
    ensures pre + [x] == all[..n + 1]
  {
    assert all[..n + 1] == all[..n] + [all[n]];
  }

  /** Column `c` of row `r` lies `c` places after the row's first cell. */
  lemma IdxShift(w: nat, r: nat, c: nat)
    ensures Idx(w, r, c) == Idx(w, r, 0) + c
  {
  }

  /** The inner loop of `render_mesh`: append the vertices of grid row `j`, left to right. */
  method PushRow(sc: Scene, j: nat, verts0: seq<Vertex>) returns (verts: seq<Vertex>)
    requires Ready(sc) && j < sc.g.rows
    requires Idx(sc.g.cols, j, 0) + sc.g.cols <= |Vertices(sc)|
    requires verts0 == Vertices(sc)[..Idx(sc.g.cols, j, 0)]
    ensures verts == Vertices(sc)[..Idx(sc.g.cols, j, 0) + sc.g.cols]
  {
    ghost var all := Vertices(sc);
    var cols := sc.g.cols;
    ghost var base := Idx(cols, j, 0);
    hide *;
    verts := verts0;
    for i := 0 to cols
      invariant verts == all[..base + i]
    {
      RowMajor(sc, i, j);
      IdxShift(cols, j, i);
      Snoc(all, base + i, verts, VertexAt(sc, i, j));
      verts := verts + [VertexAt(sc, i, j)];
    }
  }

  /** The outer loop of `render_mesh`: one row of vertices after another. */
  method PushVertices(sc: Scene) returns (verts: seq<Vertex>)
    requires Ready(sc)
    ensures verts == Vertices(sc)
  {
    ghost var all := Vertices(sc);
    var cols, rows := sc.g.cols, sc.g.rows;
    assert cols >= 1 && |all| == Idx(cols, rows, 0);
    hide *;
    verts := [];
    for j := 0 to rows
      invariant Idx(cols, j, 0) <= |all|
      invariant verts == all[..Idx(cols, j, 0)]
    {
      RowMajor(sc, cols - 1, j);
      IdxShift(cols, j, cols - 1);
      verts := PushRow(sc, j, verts);
      IdxRowEnd(cols, j);
    }
  }

  /**
   * `render_mesh`: one shaded vertex per grid vertex of the cache, rows
   * outer and columns inner, and no indices (the driver appends the cached ones).
   */
  method RenderMesh(m: Math, pal: Palette, p: BgAnimCfg, cache: BgCache, f: Frame) returns (mesh: EguiMesh)
    requires SqrtLaw(m) && cache.Sized()
    ensures Ready(Scene(m, pal, p, f, cache.iso[..], cache.mesh, cache.rowBias))
    ensures mesh == EguiMesh(Vertices(Scene(m, pal, p, f, cache.iso[..], cache.mesh, cache.rowBias)), [])
  {
    SizedReadable(cache.nx, cache.ny, cache.mesh, cache.iso[..], cache.rowBias);
    var verts := PushVertices(Scene(m, pal, p, f, cache.iso[..], cache.mesh, cache.rowBias));
    mesh := EguiMesh(verts, []);
  }
}
