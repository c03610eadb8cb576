/**
 * The per-frame driver of the background painter
 * (src/app/anim/paint/driver.rs): derive the seeds from the accent colour,
 * the time and the music drive, size and refresh the cached field, and
 * hand everything to the mesh renderer. The painter itself (`painter.add`)
 * is the method's result.
 */
module Driver {
  import opened Numeric
  import opened Wrappers
  import opened TimeRng
  import opened Flow
  import opened Cache
  import opened PaintMath
  import opened Field
  import opened Surface
  import opened Colour
  import Config
  import opened Render
  import opened VisBuffers

  // ---------------------------------------------------------------------
  // The seed
  // ---------------------------------------------------------------------

  /** The three spatial-hash primes that mix the accent's channels. */
  const PRIME_R: U32 := 73856093
  const PRIME_G: U32 := 19349663
  const PRIME_B: U32 := 83492791

  /** A `u32` product as written: `None` where it overflows (a panic when overflow checks are on). */
  function CheckedMul(a: U32, k: U32): (r: Option<U32>)
    ensures r.Some? <==> a * k < WORD
    ensures r.Some? ==> r.value == a * k
  {
    if a * k < WORD then Some(a * k) else None
  }

  /** The seed as written: three checked `u32` products joined by `^`. */
  function SeedChecked(c: Color32): (r: Option<U32>)
    ensures r.Some? <==>
      CheckedMul(c.r as int, PRIME_R).Some? && CheckedMul(c.g as int, PRIME_G).Some? && CheckedMul(c.b as int, PRIME_B).Some?
  {
    match (CheckedMul(c.r as int, PRIME_R), CheckedMul(c.g as int, PRIME_G), CheckedMul(c.b as int, PRIME_B))
    case (Some(x), Some(y), Some(z)) => Some(XorW(XorW(x, y), z))
    case _ => None
  }

  /** Each product overflows exactly from its channel's first large value on. */
  lemma SeedCheckedRange(c: Color32)
    ensures SeedChecked(c).Some? <==> c.r < 59 && c.g < 222 && c.b < 52
  {
    var r, g, b := c.r as int, c.g as int, c.b as int;
    assert r < 59 <==> r * PRIME_R < WORD by {
      if r >= 59 { MulMono(59, r, PRIME_R); }
      if r < 59 { MulMono(r, 58, PRIME_R); }
    }
    assert g < 222 <==> g * PRIME_G < WORD by {
      if g >= 222 { MulMono(222, g, PRIME_G); }
      if g < 222 { MulMono(g, 221, PRIME_G); }
    }
    assert b < 52 <==> b * PRIME_B < WORD by {
      if b >= 52 { MulMono(52, b, PRIME_B); }
      if b < 52 { MulMono(b, 51, PRIME_B); }
    }
  }

  /** `a <= b ==> a k <= b k` */
  lemma MulMono(a: nat, b: nat, k: nat)
    requires a <= b
    ensures a * k <= b * k
  {
    assert b * k == a * k + (b - a) * k;
  }

  /** The default accent `(120, 160, 255)` already overflows the red product. */
  lemma DefaultAccentOverflows()
    ensures SeedChecked(Config.ToColor32(Config.DEFAULT.theme.accent)) == None
  {
    SeedCheckedRange(Config.ToColor32(Config.DEFAULT.theme.accent));
  }

  /**
   * The seed with the products wrapping mod 2^32, as a release build
   * computes it: wherever the checked seed exists, the two agree.
   */
  function Seed(c: Color32): U32 {
    XorW(XorW(MulW(c.r as int, PRIME_R), MulW(c.g as int, PRIME_G)), MulW(c.b as int, PRIME_B))
  }

  /** A product that fits in a word is its own wrap. */
  lemma MulWExact(a: U32, k: U32)
    requires a * k < WORD
    ensures MulW(a, k) == a * k
  {
  }

  /** Wherever the checked seed exists, the wrapping seed is the same word. */
  lemma SeedAgrees(c: Color32)
    ensures SeedChecked(c).Some? ==> Seed(c) == SeedChecked(c).value
  {
    var r, g, b := c.r as int, c.g as int, c.b as int;
    if SeedChecked(c).Some? {
      MulWExact(r, PRIME_R);
      MulWExact(g, PRIME_G);
      MulWExact(b, PRIME_B);
    }
  }

  /** The detail layer's seed `seed ^ 0xDEAD_BEEF`; the light's phase seed `seed ^ 0xABCD`. */
  const DETAIL_SALT: U32 := 0xDEAD_BEEF
  const LIGHT_SALT: U32 := 0xABCD

  /** The two flow layers are seeded differently from the same accent. */
  lemma LayerSeedsDiffer(c: Color32)
    ensures XorW(Seed(c), DETAIL_SALT) != Seed(c)
  {
    var s := Seed(c);
    var d := XorW(s, DETAIL_SALT);
    if d == s {
      XorComm(s, DETAIL_SALT);
      XorCancel(DETAIL_SALT, s);
      XorSelf(s);
    }
  }

  // ---------------------------------------------------------------------
  // Time, music, grid size and light
  // ---------------------------------------------------------------------

  /** The animation clock: the current time, or 0 when the animation is off. */
  function Time(enabled: bool, now: real): (t: real)
    ensures !enabled ==> t == 0.0
    ensures enabled ==> t == now
  {
    if enabled then now else 0.0
  }

  /** Every eighth sample of the recent window (`step_by(8)`), as a magnitude. */
  function Decimated(raw: seq<real>): (s: seq<real>)
    ensures |s| == (|raw| + 7) / 8
  {
    seq((|raw| + 7) / 8, k requires 0 <= k < (|raw| + 7) / 8 => Abs(raw[8 * k]))
  }

  /** Decimated sample `i` is the magnitude of raw sample `8 i`. */
  lemma DecimatedAt(raw: seq<real>, i: nat)
    requires i < |Decimated(raw)|
    ensures 8 * i < |raw| && (8 * i) % 8 == 0 && Decimated(raw)[i] == Abs(raw[8 * i])
  {
  }

  /** The number of recent samples the driver reads, and the fewest it reacts to. */
  const WINDOW: nat := 2048
  const MIN_WINDOW: nat := 256

  /**
   * The raw music drive: 1.6 times the 90th-percentile magnitude of every
   * eighth recent sample, clamped to `[0, 1]`; nothing with fewer than 256
   * samples. The value is always the scaled magnitude of one of the sampled
   * positions `0, 8, 16, ...`.
   */
  function RawMusic(raw: seq<real>): (r: real)
    ensures 0.0 <= r <= 1.0
    ensures |raw| < MIN_WINDOW ==> r == 0.0
    ensures |raw| >= MIN_WINDOW ==> exists k :: 0 <= k < |raw| && k % 8 == 0 && r == Clamp(Abs(raw[k]) * 1.6, 0.0, 1.0)
  {
    if |raw| >= MIN_WINDOW then
      var s := Decimated(raw);
      var x := P90Abs(s);
      var i :| 0 <= i < |s| && x == Abs(s[i]);
      DecimatedAt(raw, i);
      Clamp(x * 1.6, 0.0, 1.0)
    else
      0.0
  }

  /** A silent window gives no drive. */
  lemma SilentMusic(raw: seq<real>)
    requires forall k :: 0 <= k < |raw| ==> raw[k] == 0.0
    ensures RawMusic(raw) == 0.0
  {
  }

  /** A loud window (every sampled magnitude at least 0.625) saturates the drive. */
  lemma LoudMusic(raw: seq<real>)
    requires |raw| >= MIN_WINDOW
    requires forall k :: 0 <= k < |raw| && k % 8 == 0 ==> Abs(raw[k]) >= 0.625
    ensures RawMusic(raw) == 1.0
  {
  }

  /** `x a` lies in `[0, a]` for `x` in `[0, 1]` and `a >= 0`. */
  lemma UnitScale(x: real, a: real)
    ensures 0.0 <= x <= 1.0 && a >= 0.0 ==> 0.0 <= x * a <= a
  {
    if 0.0 <= x <= 1.0 && a >= 0.0 {
      MulNonNeg(a, x);
      MulNonNeg(a, 1.0 - x);
    }
  }

  /** `x a`: the share `x` of the amount `a`. */
  function Drive(x: real, a: real): (r: real)
    ensures 0.0 <= x <= 1.0 && a >= 0.0 ==> 0.0 <= r <= a
  {
    UnitScale(x, a);
    x * a
  }

  /** The music drive the renderer gets: the raw drive times `music_amount`, or 0 when the animation is off. */
  function Music(bg: Config.BgAnimCfg, rawMusic: real): (r: real)
    ensures !bg.enabled ==> r == 0.0
    ensures bg.enabled && 0.0 <= rawMusic <= 1.0 && bg.musicAmount >= 0.0 ==> 0.0 <= r <= bg.musicAmount
  {
    if bg.enabled then Drive(rawMusic, bg.musicAmount) else 0.0
  }

  /** The fewest and the most grid cells along an axis, and the screen points per cell. */
  const MIN_CELLS: nat := 90
  const MAX_CELLS: nat := 220
  const CELL: real := 20.0

  /**
   * Cells along an axis of length `extent`: one per 20 points, rounded up,
   * then clamped to `[90, 220]`.
   */
  function GridCount(extent: real): (n: nat)
    ensures MIN_CELLS <= n <= MAX_CELLS
    ensures extent <= 1800.0 ==> n == MIN_CELLS
    ensures extent > 4380.0 ==> n == MAX_CELLS
    ensures 1800.0 < extent <= 4400.0 ==> (n - 1) as real * CELL < extent <= n as real * CELL
  {
    var x := extent / CELL;
    var c := ToUsize(Ceil(x) as real);
    assert x > 90.0 ==> c == Ceil(x);
    assert extent == x * CELL;
    if c < MIN_CELLS then MIN_CELLS else if c > MAX_CELLS then MAX_CELLS else c
  }

  function Width(r: Rect): real { r.right - r.left }
  function Height(r: Rect): real { r.bottom - r.top }

  /** `0.5 / (1 / n)`: half the inverse grid step. */
  function HalfInvStep(n: nat): (r: real)
    requires n >= 1
    ensures r == 0.5 * n as real
  {
    var d := 1.0 / n as real;
    assert d * n as real == 1.0;
    0.5 / d
  }

  /**
   * The light direction: a horizontal part of length 0.7 turning slowly
   * with the clock from a seed-dependent phase, and a fixed height 0.72.
   */
  function Light(m: Math, seed: U32, t: real): (real, real, real) {
    var phi := LightPhase(seed, t);
    (m.cos(phi) * 0.7, m.sin(phi) * 0.7, 0.72)
  }

  /** The light's heading: the seed's phase in turns plus 0.03 turns per second, in radians. */
  function LightPhase(seed: U32, t: real): real {
    2.0 * PI * (0.03 * t + Rand01(XorW(seed, LIGHT_SALT)))
  }

  /** The light always has horizontal length 0.7 and height 0.72. */
  lemma LightLength(m: Math, seed: U32, t: real)
    requires Lawful(m)
    ensures Sq(Light(m, seed, t).0) + Sq(Light(m, seed, t).1) == Sq(0.7) && Light(m, seed, t).2 == 0.72
  {
    hide Lawful;
    PolarLength(m, LightPhase(seed, t), 0.7);
  }

  /** With the animation off the light stands still at its seed's phase. */
  lemma LightFrozen(m: Math, seed: U32, now: real, now': real)
    ensures Light(m, seed, Time(false, now)) == Light(m, seed, Time(false, now'))
    ensures LightPhase(seed, Time(false, now)) == 2.0 * PI * Rand01(XorW(seed, LIGHT_SALT))
  {
  }

  /** The per-frame inputs of the renderer, given the fitted plane. */
  function FrameOf(m: Math, pal: Palette, accent: Color32, stops: (Color32, Color32, Color32), bg: Config.BgAnimCfg,
                   now: real, raw: seq<real>, rect: Rect, plane: (real, real, real)): (f: Frame)
    ensures !bg.enabled ==> f.music == 0.0
    ensures f.invDu2 == 0.5 * GridCount(Width(rect)) as real && f.invDv2 == 0.5 * GridCount(Height(rect)) as real
    ensures f.rect == rect && f.stops == stops && f.plane == plane && f.hAcc == pal.rgbToHsv(accent).0
  {
    var t := Time(bg.enabled, now);
    Frame(rect, stops, pal.rgbToHsv(accent).0, Light(m, Seed(accent), t), Music(bg, RawMusic(raw)), plane,
      HalfInvStep(GridCount(Width(rect))), HalfInvStep(GridCount(Height(rect))))
  }

  /** With the animation off the frame does not depend on the clock. */
  lemma FrameFrozen(m: Math, pal: Palette, accent: Color32, stops: (Color32, Color32, Color32), bg: Config.BgAnimCfg,
                    now: real, now': real, raw: seq<real>, rect: Rect, plane: (real, real, real))
    requires !bg.enabled
    ensures FrameOf(m, pal, accent, stops, bg, now, raw, rect, plane) == FrameOf(m, pal, accent, stops, bg, now', raw, rect, plane)
  {
  }

  // ---------------------------------------------------------------------
  // The cached field
  // ---------------------------------------------------------------------

  /**
   * The field buffer after one frame's refresh, from the buffers `s` and
   * `tmp` it starts from: filled, blurred once, its ghost ring refreshed.
   */
  ghost function Refreshed(s: seq<real>, tmp: seq<real>, m: Math, g: Mesh, pMain: FlowParams, pDetail: FlowParams, t: real): (r: seq<real>)
    requires Fits(g, s) && |tmp| == |s| && FourWaves(pMain) && FourWaves(pDetail)
    ensures |r| == |s|
  {
    var w, rows, cols := g.wPad, g.rows, g.cols;
    Padded(BlurN(Filled(s, m, g, pMain, pDetail, t), tmp, w, rows, cols, 1).0, w, rows, cols)
  }

  /** The first `n` cells of `s` lie in `[-1, 1]`. */
  ghost predicate UnitField(s: seq<real>, n: nat) {
    n <= |s| && forall k :: 0 <= k < n ==> -1.0 <= s[k] <= 1.0
  }

  /**
   * The refreshed field lies in `[-1, 1]` everywhere on the padded area
   * and its ghost ring is fresh: padding it again changes nothing.
   */
  lemma RefreshedIn(s: seq<real>, tmp: seq<real>, m: Math, g: Mesh, pMain: FlowParams, pDetail: FlowParams, t: real)
    requires Fits(g, s) && |tmp| == |s| && FourWaves(pMain) && FourWaves(pDetail)
    ensures UnitField(Refreshed(s, tmp, m, g, pMain, pDetail, t), (g.rows + 2) * g.wPad)
    ensures Padded(Refreshed(s, tmp, m, g, pMain, pDetail, t), g.wPad, g.rows, g.cols) == Refreshed(s, tmp, m, g, pMain, pDetail, t)
  {
    var w, rows, cols := g.wPad, g.rows, g.cols;
    var f := Filled(s, m, g, pMain, pDetail, t);
    FilledCells(s, m, g, pMain, pDetail, t);
    var b := BlurN(f, tmp, w, rows, cols, 1).0;
    BlurNIn(f, tmp, w, rows, cols, 1, -1.0, 1.0);
    PaddedIn(b, w, rows, cols, -1.0, 1.0);
    PaddedIdempotent(b, w, rows, cols);
  }

  /** Padding does not move any grid vertex. */
  lemma PaddedSameGrid(iso: seq<real>, w: nat, rows: nat, cols: nat)
    requires Layout(w, rows, cols) && (rows + 2) * w <= |iso|
    ensures |Padded(iso, w, rows, cols)| == |iso|
    ensures SameGrid(Padded(iso, w, rows, cols), iso, w, rows, cols)
  {
    var p := Padded(iso, w, rows, cols);
    PaddedCell(iso, w, rows, cols);
    forall i: nat, j: nat | i < cols && j < rows
      ensures Z(p, w, rows, cols, i, j) == Z(iso, w, rows, cols, i, j)
    {
      assert p[Idx(w, j + 1, i + 1)] == iso[Idx(w, ClampInt(j + 1, 1, rows), ClampInt(i + 1, 1, cols))];
    }
  }

  /** Nor do the row biases see the ghost ring. */
  lemma BiasesPadded(iso: seq<real>, w: nat, rows: nat, cols: nat, v: seq<real>, plane: (real, real, real))
    requires Layout(w, rows, cols) && (rows + 2) * w <= |iso| && rows <= |v|
    ensures |Padded(iso, w, rows, cols)| == |iso|
    ensures Biases(Padded(iso, w, rows, cols), w, rows, cols, v, plane) == Biases(iso, w, rows, cols, v, plane)
  {
    var p := Padded(iso, w, rows, cols);
    PaddedSameGrid(iso, w, rows, cols);
    forall j | 0 <= j < rows
      ensures RowBias(p, w, rows, cols, v, plane, j) == RowBias(iso, w, rows, cols, v, plane, j)
    {
      SameRowSums(p, iso, w, rows, cols, j, cols);
    }
  }

  /** `plane` is the fit to the grid vertices of `iso`, and `bias` holds the row biases taken against it. */
  ghost predicate Fitted(iso: seq<real>, g: Mesh, plane: (real, real, real), bias: seq<real>) {
    && FitShape(iso, g.wPad, g.rows, g.cols, g.u, g.v)
    && plane == Fit(iso, g.wPad, g.rows, g.cols, g.u, g.v)
    && bias == Biases(iso, g.wPad, g.rows, g.cols, g.v, plane)
  }

  /**
   * `fill_iso`, `blur_iso(1)`, `compute_plane_and_bias` and
   * `fill_padding_for`, in that order: the field is refreshed, the plane is
   * the fit to the refreshed field and the row biases are taken against it.
   */
  method RefreshField(cache: BgCache, m: Math, pMain: FlowParams, pDetail: FlowParams, t: real) returns (plane: (real, real, real))
    requires Lawful(m) && cache.Sized() && Tabled(m, cache.mesh)
    requires FourWaves(pMain) && FourWaves(pDetail)
    modifies cache, cache.iso, cache.tmp
    ensures cache.nx == old(cache.nx) && cache.ny == old(cache.ny) && cache.mesh == old(cache.mesh)
    ensures cache.iso == old(cache.iso) && cache.tmp == old(cache.tmp) && cache.Sized()
    ensures Fits(cache.mesh, old(cache.iso[..])) && |old(cache.tmp[..])| == |old(cache.iso[..])|
    ensures Fitted(cache.iso[..], cache.mesh, plane, cache.rowBias)
    ensures cache.iso[..] == Refreshed(old(cache.iso[..]), old(cache.tmp[..]), m, cache.mesh, pMain, pDetail, t)
  {
    hide Lawful, Tabled, Filled, BlurN, Fit, Biases, Padded;
    var g := cache.mesh;
    var w, rows, cols := g.wPad, g.rows, g.cols;
    FillIso(cache, m, pMain, pDetail, t);
    cache.BlurIso(1);
    var a, b, c := ComputePlaneAndBias(cache);
    ghost var pre := cache.iso[..];
    FillPadding(cache.iso, w, rows, cols);
    FitPadded(pre, w, rows, cols, g.u, g.v);
    BiasesPadded(pre, w, rows, cols, g.v, (a, b, c));
    plane := (a, b, c);
  }

  // ---------------------------------------------------------------------
  // paint_bg_gradient
  // ---------------------------------------------------------------------

  /** The field buffer as `ensure` leaves it: as it was under the same key, resized otherwise. */
  ghost function AfterEnsure(s: seq<real>, sameKey: bool, nx: nat, ny: nat): seq<real> {
    if sameKey then s else Resize(s, Cap(nx, ny))
  }

  /** The plane fitted to the grid vertices of `iso` (none when the buffers do not fit the mesh). */
  ghost function Plane(iso: seq<real>, g: Mesh): (real, real, real) {
    if FitShape(iso, g.wPad, g.rows, g.cols, g.u, g.v) then Fit(iso, g.wPad, g.rows, g.cols, g.u, g.v) else (0.0, 0.0, 0.0)
  }

  /**
   * The field the renderer reads: it fits the mesh, lies in `[-1, 1]` on the
   * padded area, and the row biases are taken against the plane fitted to it.
   */
  ghost predicate Shown(iso: seq<real>, g: Mesh, bias: seq<real>) {
    && FitShape(iso, g.wPad, g.rows, g.cols, g.u, g.v)
    && bias == Biases(iso, g.wPad, g.rows, g.cols, g.v, Plane(iso, g))
    && UnitField(iso, (g.rows + 2) * g.wPad)
  }

  /** `iso` is the refresh of the buffers `s0` and `t0` by the two flow layers at time `t`. */
  ghost predicate RefreshedFrom(iso: seq<real>, s0: seq<real>, t0: seq<real>, m: Math, g: Mesh, pMain: FlowParams, pDetail: FlowParams, t: real) {
    && Fits(g, s0) && |t0| == |s0| && FourWaves(pMain) && FourWaves(pDetail)
    && iso == Refreshed(s0, t0, m, g, pMain, pDetail, t)
  }

  /**
   * `mesh` is what the painter gets for scene `sc` on an `nx` by `ny` grid:
   * the shaded vertices, the cached triangle list, and every index naming
   * one of the `(nx + 1) (ny + 1)` vertices.
   */
  ghost predicate Drawn(mesh: EguiMesh, sc: Scene, nx: nat, ny: nat) {
    && nx >= 1 && Ready(sc)
    && mesh.vertices == Vertices(sc)
    && mesh.indices == Indices(nx, ny)
    && |mesh.vertices| == (nx + 1) * (ny + 1) && |mesh.indices| == 6 * (nx * ny)
    && (forall k :: 0 <= k < |mesh.indices| ==> mesh.indices[k] < |mesh.vertices|)
  }

  /**
   * `ensure(nx, ny)` followed by the refresh: the cache is keyed by
   * `(nx, ny)`, its field is the refresh of the buffers `ensure` left, and
   * it is shown against the plane returned.
   */
  method KeyAndRefresh(cache: BgCache, m: Math, pMain: FlowParams, pDetail: FlowParams, t: real, nx: nat, ny: nat)
    returns (plane: (real, real, real))
    requires Lawful(m) && cache.Valid(m) && nx >= 1 && ny >= 1
    requires FourWaves(pMain) && FourWaves(pDetail)
    modifies cache, cache.iso, cache.tmp
    ensures cache.Valid(m) && cache.Sized() && cache.nx == nx && cache.ny == ny
    ensures plane == Plane(cache.iso[..], cache.mesh) && Shown(cache.iso[..], cache.mesh, cache.rowBias)
    ensures var sameKey := old(cache.nx) == nx && old(cache.ny) == ny;
      RefreshedFrom(cache.iso[..], AfterEnsure(old(cache.iso[..]), sameKey, nx, ny), AfterEnsure(old(cache.tmp[..]), sameKey, nx, ny),
        m, cache.mesh, pMain, pDetail, t)
  {
    hide Lawful, Tabled, Shaped, Fit, Biases, Refreshed, UnitField, Resize, Cap, Grid, Indices;
    cache.Ensure(m, nx, ny);
    ghost var s0, t0 := cache.iso[..], cache.tmp[..];
    plane := RefreshField(cache, m, pMain, pDetail, t);
    RefreshedIn(s0, t0, m, cache.mesh, pMain, pDetail, t);
  }

  /** Every cached index names one of the `(nx + 1) (ny + 1)` vertices. */
  lemma IndicesInRange(nx: nat, ny: nat)
    requires nx >= 1
    ensures forall k :: 0 <= k < |Indices(nx, ny)| ==> Indices(nx, ny)[k] < (nx + 1) * (ny + 1)
  {
    TrisBound(nx, nx + 1, ny, nx * ny);
  }

  /**
   * `render_mesh` followed by `mesh.indices.extend_from_slice(&cache.indices)`:
   * the shaded vertices with the cached triangle list, every index in range.
   */
  method DrawMesh(m: Math, pal: Palette, bg: Config.BgAnimCfg, cache: BgCache, f: Frame) returns (mesh: EguiMesh)
    requires SqrtLaw(m) && cache.Sized()
    ensures Drawn(mesh, Scene(m, pal, bg, f, cache.iso[..], cache.mesh, cache.rowBias), cache.nx, cache.ny)
  {
    var rendered := RenderMesh(m, pal, bg, cache, f);
    mesh := EguiMesh(rendered.vertices, rendered.indices + cache.mesh.indices);
    assert mesh.indices == cache.mesh.indices;
    IndicesInRange(cache.nx, cache.ny);
  }

  /**
   * `paint_bg_gradient`: key the cache by the screen size, refresh its
   * field from the accent-seeded flow layers at the animation clock, and
   * draw the mesh for this frame's inputs with the cached triangle list.
   */
  method PaintBgGradient(m: Math, pal: Palette, bg: Config.BgAnimCfg, accent: Color32, stops: (Color32, Color32, Color32),
                         now: real, buf: VisBuffer, rect: Rect, cache: BgCache) returns (mesh: EguiMesh)
    requires Lawful(m) && cache.Valid(m)
    modifies cache, cache.iso, cache.tmp
    ensures cache.Valid(m) && cache.Sized()
    ensures cache.nx == GridCount(Width(rect)) && cache.ny == GridCount(Height(rect))
    ensures Shown(cache.iso[..], cache.mesh, cache.rowBias)
    ensures var sameKey := old(cache.nx) == cache.nx && old(cache.ny) == cache.ny;
      var seed := Seed(accent);
      RefreshedFrom(cache.iso[..], AfterEnsure(old(cache.iso[..]), sameKey, cache.nx, cache.ny),
        AfterEnsure(old(cache.tmp[..]), sameKey, cache.nx, cache.ny),
        m, cache.mesh, Params(m, seed), Params(m, XorW(seed, DETAIL_SALT)), Time(bg.enabled, now))
    ensures var f := FrameOf(m, pal, accent, stops, bg, now, Recent(buf.q, WINDOW), rect, Plane(cache.iso[..], cache.mesh));
      Drawn(mesh, Scene(m, pal, bg, f, cache.iso[..], cache.mesh, cache.rowBias), cache.nx, cache.ny)
  {
    hide Lawful, SqrtLaw, Tabled, Shaped, Shown, RefreshedFrom, Drawn, Plane, Params, AfterEnsure, Resize, Cap;
    var seed := Seed(accent);
    var pMain := MakeParams(m, seed);
    var pDetail := MakeParams(m, XorW(seed, DETAIL_SALT));
    var t := Time(bg.enabled, now);
    var raw := buf.TakeRecent(WINDOW);
    var nx := GridCount(Width(rect));
    var ny := GridCount(Height(rect));
    var invDu2 := HalfInvStep(nx);
    var invDv2 := HalfInvStep(ny);

    var light := Light(m, seed, t);
    var hAcc := pal.rgbToHsv(accent).0;
    var plane := KeyAndRefresh(cache, m, pMain, pDetail, t, nx, ny);

    var f := Frame(rect, stops, hAcc, light, Music(bg, RawMusic(raw)), plane, invDu2, invDv2);
    assert f == FrameOf(m, pal, accent, stops, bg, now, raw, rect, plane);
    SqrtOfLawful(m);
    hide FrameOf;
    mesh := DrawMesh(m, pal, bg, cache, f);
  }
}
