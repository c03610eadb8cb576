/**
 * The surface pass of the background painter
 * (src/app/anim/paint/surface.rs): fit the least-squares plane to the
 * blurred field, then store for every grid row the bias that the mesh
 * renderer subtracts, i.e. the row's mean minus the plane at the row.
 */
module Surface {
  import opened Numeric
  import opened Cache
  import opened PaintMath

  /** The sum of the first `n` entries of `s`. */
  function Sum(s: seq<real>, n: nat): real
    requires n <= |s|
  {
    if n == 0 then 0.0 else Sum(s, n - 1) + s[n - 1]
  }

  /**
   * The bias of grid row `j` against `plane = (a, b, c)`: the mean of the
   * row minus the plane taken at the mean `u` of 1/2 and the row's `v`.
   */
  function RowBias(iso: seq<real>, w: nat, rows: nat, cols: nat, v: seq<real>, plane: (real, real, real), j: nat): real
    requires Layout(w, rows, cols) && (rows + 2) * w <= |iso| && rows <= |v| && j < rows
  {
    RowSum(iso, w, rows, cols, j, cols) / cols as real - (0.5 * plane.0 + plane.1 * v[j] + plane.2)
  }

  /** The biases of all the grid rows. */
  function Biases(iso: seq<real>, w: nat, rows: nat, cols: nat, v: seq<real>, plane: (real, real, real)): (r: seq<real>)
    requires Layout(w, rows, cols) && (rows + 2) * w <= |iso| && rows <= |v|
    ensures |r| == rows
  {
    seq(rows, j requires 0 <= j < rows => RowBias(iso, w, rows, cols, v, plane, j))
  }

  /** What is left of vertex `(i, j)` once the plane is taken away. */
  function Residual(iso: seq<real>, w: nat, rows: nat, cols: nat, u: seq<real>, v: seq<real>, plane: (real, real, real), i: nat, j: nat): real
    requires FitShape(iso, w, rows, cols, u, v) && i < cols && j < rows
  {
    Z(iso, w, rows, cols, i, j) - (plane.0 * u[i] + plane.1 * v[j] + plane.2)
  }

  /** The sum of the residuals of the first `n` vertices of row `j`. */
  function ResidualSum(iso: seq<real>, w: nat, rows: nat, cols: nat, u: seq<real>, v: seq<real>, plane: (real, real, real), j: nat, n: nat): real
    requires FitShape(iso, w, rows, cols, u, v) && j < rows && n <= cols
  {
    if n == 0 then 0.0
    else ResidualSum(iso, w, rows, cols, u, v, plane, j, n - 1) + Residual(iso, w, rows, cols, u, v, plane, n - 1, j)
  }

  /** `a (x + y) == a x + a y` */
  lemma MulAdd(a: real, x: real, y: real)
    ensures a * (x + y) == a * x + a * y
  {
  }

  /** One more vertex adds its residual to the residual sum, and its `u` to the `u` sum. */
  lemma ResidualSumStep(iso: seq<real>, w: nat, rows: nat, cols: nat, u: seq<real>, v: seq<real>, plane: (real, real, real), j: nat, n: nat)
    requires FitShape(iso, w, rows, cols, u, v) && j < rows && 0 < n <= cols
    ensures ResidualSum(iso, w, rows, cols, u, v, plane, j, n)
      == ResidualSum(iso, w, rows, cols, u, v, plane, j, n - 1)
       + (Z(iso, w, rows, cols, n - 1, j) - (plane.0 * u[n - 1] + (plane.1 * v[j] + plane.2)))
    ensures Sum(u, n) == Sum(u, n - 1) + u[n - 1]
  {
  }

  /** No vertices: every sum is zero, and so is the number of offsets. */
  lemma ResidualSumEmpty(iso: seq<real>, w: nat, rows: nat, cols: nat, u: seq<real>, v: seq<real>, plane: (real, real, real), j: nat)
    requires FitShape(iso, w, rows, cols, u, v) && j < rows
    ensures ResidualSum(iso, w, rows, cols, u, v, plane, j, 0)
      == RowSum(iso, w, rows, cols, j, 0) - (plane.0 * Sum(u, 0) + Times(0, plane.1 * v[j] + plane.2))
  {
    if cols > 0 {
      SumStep(iso, w, rows, cols, j, 0);
    }
    TimesZero(plane.1 * v[j] + plane.2);
  }

  /** Summing residuals splits into the row sum, the `u` sum and `n` copies of the row's offset. */
  lemma {:induction false} ResidualSumSplit(iso: seq<real>, w: nat, rows: nat, cols: nat, u: seq<real>, v: seq<real>, plane: (real, real, real), j: nat, n: nat)
    requires FitShape(iso, w, rows, cols, u, v) && j < rows && n <= cols
    ensures ResidualSum(iso, w, rows, cols, u, v, plane, j, n)
      == RowSum(iso, w, rows, cols, j, n) - (plane.0 * Sum(u, n) + Times(n, plane.1 * v[j] + plane.2))
  {
    hide RowSum, Z, Times, Sum, ResidualSum, Residual;
    var off := plane.1 * v[j] + plane.2;
    if n == 0 {
      ResidualSumEmpty(iso, w, rows, cols, u, v, plane, j);
    } else {
      ResidualSumStep(iso, w, rows, cols, u, v, plane, j, n);
      var t1 := Times(n - 1, off);
      ResidualSumSplit(iso, w, rows, cols, u, v, plane, j, n - 1);
      SumStep(iso, w, rows, cols, j, n - 1);
      AddOne(n, off, t1, t1 + off);
      Regroup(ResidualSum(iso, w, rows, cols, u, v, plane, j, n), ResidualSum(iso, w, rows, cols, u, v, plane, j, n - 1),
        RowSum(iso, w, rows, cols, j, n), RowSum(iso, w, rows, cols, j, n - 1), Z(iso, w, rows, cols, n - 1, j),
        plane.0, Sum(u, n), Sum(u, n - 1), u[n - 1], Times(n, off), t1, off);
    }
  }

  /** The bookkeeping of one step of `ResidualSumSplit`, on plain numbers. */
  lemma Regroup(rs: real, rs1: real, row: real, row1: real, z: real, p: real, s: real, s1: real, x: real, t: real, t1: real, off: real)
    requires rs == rs1 + (z - (p * x + off)) && rs1 == row1 - (p * s1 + t1)
    requires row == row1 + z && s == s1 + x && t == t1 + off
    ensures rs == row - (p * s + t)
  {
    MulAdd(p, s1, x);
  }

  /**
   * When the `u` coordinates average 1/2, the stored bias of a row is the
   * mean residual of that row: what the plane leaves over on average.
   */
  lemma BiasIsResidualMean(iso: seq<real>, w: nat, rows: nat, cols: nat, u: seq<real>, v: seq<real>, plane: (real, real, real), j: nat)
    requires FitShape(iso, w, rows, cols, u, v) && j < rows
    requires Sum(u, cols) == Times(cols, 0.5)
    ensures RowBias(iso, w, rows, cols, v, plane, j) == ResidualSum(iso, w, rows, cols, u, v, plane, j, cols) / cols as real
  {
    ResidualSumSplit(iso, w, rows, cols, u, v, plane, j, cols);
    var n := cols as real;
    var s := RowSum(iso, w, rows, cols, j, cols);
    var off := plane.1 * v[j] + plane.2;
    var q := ResidualSum(iso, w, rows, cols, u, v, plane, j, cols);
    assert RowBias(iso, w, rows, cols, v, plane, j) == s / n - (0.5 * plane.0 + off);
    hide RowSum, ResidualSum, Z, RowBias;
    assert q == s - (plane.0 * (n * 0.5) + n * off);
    assert q == n * (s / n - (0.5 * plane.0 + off));
    DivExact(q, n, s / n - (0.5 * plane.0 + off));
  }

  /** Twice `n` times the sum of the first `m` grid coordinates is `m (m - 1)`. */
  lemma {:induction false} GridPrefixSum(n: nat, m: nat)
    requires n >= 1 && m <= n + 1
    ensures 2.0 * n as real * Sum(Grid(n), m) == m as real * (m as real - 1.0)
  {
    if m > 0 {
      GridPrefixSum(n, m - 1);
      GridAt(n, m - 1);
      var nr, s, g, p := n as real, Sum(Grid(n), m - 1), Grid(n)[m - 1], (m - 1) as real;
      assert Sum(Grid(n), m) == s + g;
      assert 2.0 * nr * (s + g) == 2.0 * nr * s + 2.0 * (g * nr);
      assert p * (p - 1.0) + 2.0 * p == (p + 1.0) * p;
    }
  }

  /** The grid coordinates `0, 1/n, ..., 1` average 1/2. */
  lemma GridSumHalf(n: nat)
    requires n >= 1
    ensures Sum(Grid(n), n + 1) == Times(n + 1, 0.5)
  {
    GridPrefixSum(n, n + 1);
    var nr, s := n as real, Sum(Grid(n), n + 1);
    assert 2.0 * nr * s == (nr + 1.0) * nr;
    CancelNonZero(nr, 2.0 * s, nr + 1.0);
    assert Times(n + 1, 0.5) == (nr + 1.0) * 0.5;
  }

  /**
   * On the cache's own grid (`u` the grid coordinates, so their mean is
   * 1/2) every stored bias is the mean residual of its row.
   */
  lemma CacheBiasIsResidualMean(iso: seq<real>, nx: nat, ny: nat, g: Mesh, plane: (real, real, real), j: nat)
    requires Shaped(nx, ny, g) && (g.rows + 2) * g.wPad <= |iso| && j < g.rows
    ensures FitShape(iso, g.wPad, g.rows, g.cols, g.u, g.v)
    ensures RowBias(iso, g.wPad, g.rows, g.cols, g.v, plane, j)
      == ResidualSum(iso, g.wPad, g.rows, g.cols, g.u, g.v, plane, j, g.cols) / g.cols as real
  {
    GridSumHalf(nx);
    BiasIsResidualMean(iso, g.wPad, g.rows, g.cols, g.u, g.v, plane, j);
  }

  /** A flat field leaves no bias in any row. */
  lemma FlatBiases(iso: seq<real>, w: nat, rows: nat, cols: nat, u: seq<real>, v: seq<real>, k: real)
    requires FitShape(iso, w, rows, cols, u, v) && Flat(iso, w, rows, cols, k)
    ensures Biases(iso, w, rows, cols, v, Fit(iso, w, rows, cols, u, v)) == seq(rows, _ => 0.0)
  {
    FlatFit(iso, w, rows, cols, u, v, k);
    var n := cols as real;
    forall j | 0 <= j < rows
      ensures RowBias(iso, w, rows, cols, v, (0.0, 0.0, k), j) == 0.0
    {
      RowSumFlat(iso, w, rows, cols, k, j, cols);
      DivExact(Times(cols, k), n, k);
    }
  }

  /** The cache's buffers have the shape the plane fit reads. */
  lemma MeshFits(nx: nat, ny: nat, g: Mesh, iso: seq<real>)
    requires Shaped(nx, ny, g) && |iso| == Cap(nx, ny)
    ensures FitShape(iso, g.wPad, g.rows, g.cols, g.u, g.v)
  {
    assert (g.rows + 2) * g.wPad == Cap(nx, ny);
  }

  /**
   * `compute_plane_and_bias`: fit the plane to the cache's field and rewrite
   * the row biases, leaving every other part of the cache as it was.
   */
  method ComputePlaneAndBias(cache: BgCache) returns (a: real, b: real, c: real)
    requires cache.Sized()
    modifies cache
    ensures cache.nx == old(cache.nx) && cache.ny == old(cache.ny) && cache.mesh == old(cache.mesh)
    ensures cache.iso == old(cache.iso) && cache.tmp == old(cache.tmp)
    ensures cache.Sized()
    ensures FitShape(cache.iso[..], cache.mesh.wPad, cache.mesh.rows, cache.mesh.cols, cache.mesh.u, cache.mesh.v)
    ensures (a, b, c) == Fit(cache.iso[..], cache.mesh.wPad, cache.mesh.rows, cache.mesh.cols, cache.mesh.u, cache.mesh.v)
    ensures cache.rowBias == Biases(cache.iso[..], cache.mesh.wPad, cache.mesh.rows, cache.mesh.cols, cache.mesh.v, (a, b, c))
  {
    hide Shaped, Fit, PlaneFrom, MeanZ, FitMoments, GridMoments, GridSum, RowSum, Z;
    var mesh := cache.mesh;
    var iso := cache.iso;
    var cols, rows, w := mesh.cols, mesh.rows, mesh.wPad;
    MeshFits(cache.nx, cache.ny, mesh, iso[..]);
    a, b, c := FitPlaneForWarpPadded(iso[..], w, rows, cols, mesh.u, mesh.v);

    var driftUAvg := 0.5 * a;
    for j := 0 to rows
      invariant cache.nx == old(cache.nx) && cache.ny == old(cache.ny) && cache.mesh == mesh
      invariant cache.iso == iso && cache.tmp == old(cache.tmp)
      invariant |cache.rowBias| == rows
      invariant forall k :: 0 <= k < j ==> cache.rowBias[k] == RowBias(iso[..], w, rows, cols, mesh.v, (a, b, c), k)
    {
      var vj := mesh.v[j];
      var row := (j + 1) * w;
      var sum := 0.0;
      SumStep(iso[..], w, rows, cols, j, 0);
      for i := 0 to cols
        modifies {}
        invariant sum == RowSum(iso[..], w, rows, cols, j, i)
      {
        ZAt(iso[..], w, rows, cols, i, j);
        SumStep(iso[..], w, rows, cols, j, i);
        sum := sum + iso[row + (i + 1)];
      }
      var mean := sum / (cols as real);
      cache.rowBias := cache.rowBias[j := mean - (driftUAvg + b * vj + c)];
    }
  }
}
