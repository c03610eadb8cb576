/**
 * The resolution-keyed grid cache of the flow-field background
 * (src/app/anim/paint/cache.rs).
 *
 * A grid of `nx` by `ny` cells has `cols = nx + 1` by `rows = ny + 1`
 * vertices. The scalar field lives in a padded row-major buffer `w_pad =
 * cols + 2` cells wide and `rows + 2` cells high: vertex `(j, i)` is cell
 * `(j + 1, i + 1)`, and the outer ring of ghost cells holds copies of the
 * nearest interior cell, so that every vertex has four neighbours.
 */
module Cache {
  import opened Numeric

  // ---------------------------------------------------------------------
  // Layout of a padded row-major buffer
  // ---------------------------------------------------------------------

  /** Cell `(r, c)` of a row-major buffer `w` cells wide. */
  function Idx(w: nat, r: nat, c: nat): nat {
    r * w + c
  }

  lemma MulLe(a: nat, b: nat, w: nat)
    requires a <= b
    ensures a * w <= b * w
  {
  }

  /** Row and column can be read back from a cell index. */
  lemma IdxRowCol(w: nat, r: nat, c: nat)
    requires c < w
    ensures Idx(w, r, c) / w == r && Idx(w, r, c) % w == c
  {
    var k := Idx(w, r, c);
    var q, m := k / w, k % w;
    assert k == q * w + m;
    if q > r {
      MulLe(r + 1, q, w);
      assert false;
    } else if q < r {
      MulLe(q + 1, r, w);
      assert false;
    }
  }

  /** A cell of one of the first `h` rows lies in the first `h * w` cells. */
  lemma IdxBelow(w: nat, r: nat, c: nat, h: nat)
    requires c < w && r < h
    ensures Idx(w, r, c) < h * w
  {
    MulLe(r + 1, h, w);
  }

  /** Conversely, an index below `h * w` is in one of the first `h` rows. */
  lemma RowBelow(w: nat, k: nat, h: nat)
    requires w > 0 && k < h * w
    ensures k / w < h
  {
    if k / w >= h {
      MulLe(h, k / w, w);
      assert false;
    }
  }

  /** The shape the cache keeps: a non-empty grid with one ghost cell on every side. */
  predicate Layout(w: nat, rows: nat, cols: nat) {
    rows >= 1 && cols >= 1 && w == cols + 2
  }

  /** Index `k` is an interior (vertex) cell of the padded buffer. */
  predicate Interior(w: nat, rows: nat, cols: nat, k: nat)
    requires w > 0
  {
    1 <= k / w <= rows && 1 <= k % w <= cols
  }

  /** An interior cell has its four neighbours inside the padded area. */
  lemma InteriorNeighbours(w: nat, rows: nat, cols: nat, k: nat)
    requires Layout(w, rows, cols) && Interior(w, rows, cols, k)
    ensures w + 1 <= k && k + w + 1 < (rows + 2) * w
  {
    var r, c := k / w, k % w;
    assert k == Idx(w, r, c);
    MulLe(1, r, w);
    IdxBelow(w, r + 1, c + 1, rows + 2);
    assert Idx(w, r + 1, c + 1) == k + w + 1;
  }

  /** The interior cell nearest to cell `k`: its row and column clamped into the interior. */
  function Src(w: nat, rows: nat, cols: nat, k: nat): (s: nat)
    requires Layout(w, rows, cols) && k < (rows + 2) * w
    ensures s < (rows + 2) * w && Interior(w, rows, cols, s)
  {
    var r := ClampInt(k / w, 1, rows);
    var c := ClampInt(k % w, 1, cols);
    IdxRowCol(w, r, c);
    IdxBelow(w, r, c, rows + 2);
    Idx(w, r, c)
  }

  /** An interior cell is its own nearest interior cell. */
  lemma SrcInterior(w: nat, rows: nat, cols: nat, k: nat)
    requires Layout(w, rows, cols) && k < (rows + 2) * w && Interior(w, rows, cols, k)
    ensures Src(w, rows, cols, k) == k
  {
    assert k == Idx(w, k / w, k % w);
  }

  // ---------------------------------------------------------------------
  // fill_padding_for
  // ---------------------------------------------------------------------

  /** The buffer after `fill_padding_for`: every cell of the padded area takes its nearest interior cell. */
  function Padded(s: seq<real>, w: nat, rows: nat, cols: nat): (p: seq<real>)
    requires Layout(w, rows, cols) && (rows + 2) * w <= |s|
    ensures |p| == |s|
  {
    seq(|s|, k requires 0 <= k < |s| =>
      if k < (rows + 2) * w then s[Src(w, rows, cols, k)] else s[k])
  }

  /** Facts about cell indices, stated once for every cell of a buffer `w` wide and `h` high. */
  lemma IdxFacts(w: nat, h: nat)
    requires w > 0
    ensures forall r: nat, c: nat :: c < w ==> Idx(w, r, c) / w == r && Idx(w, r, c) % w == c
    ensures forall r: nat, c: nat :: c < w && r < h ==> Idx(w, r, c) < h * w
  {
    forall r: nat, c: nat | c < w
      ensures Idx(w, r, c) / w == r && Idx(w, r, c) % w == c
      ensures r < h ==> Idx(w, r, c) < h * w
    {
      IdxRowCol(w, r, c);
      if r < h {
        IdxBelow(w, r, c, h);
      }
    }
  }

  /** Every index of the padded area is a cell `(r, c)` of it. */
  lemma IdxOf(w: nat, h: nat, k: nat)
    requires w > 0 && k < h * w
    ensures k / w < h && k % w < w && k == Idx(w, k / w, k % w)
  {
    RowBelow(w, k, h);
  }

  /**
   * `fill_padding_for` cell by cell: cell `(r, c)` of the padded area takes
   * the value of the interior cell with the row and column clamped into the
   * interior. So the top and bottom ghost rows repeat the first and last
   * interior rows, the side ghost columns the first and last interior
   * columns, each corner the interior corner, and the interior is unchanged.
   */
  lemma PaddedCell(s: seq<real>, w: nat, rows: nat, cols: nat)
    requires Layout(w, rows, cols) && (rows + 2) * w <= |s|
    ensures forall r: nat, c: nat :: r <= rows + 1 && c <= cols + 1 ==>
      Idx(w, r, c) < |s| && Padded(s, w, rows, cols)[Idx(w, r, c)] == s[Idx(w, ClampInt(r, 1, rows), ClampInt(c, 1, cols))]
  {
    IdxFacts(w, rows + 2);
    hide Idx;
  }

  /** Padding leaves everything past the padded area alone. */
  lemma PaddedBeyond(s: seq<real>, w: nat, rows: nat, cols: nat)
    requires Layout(w, rows, cols) && (rows + 2) * w <= |s|
    ensures forall k :: (rows + 2) * w <= k < |s| ==> Padded(s, w, rows, cols)[k] == s[k]
  {
  }

  /** Padding twice is padding once. */
  lemma PaddedIdempotent(s: seq<real>, w: nat, rows: nat, cols: nat)
    requires Layout(w, rows, cols) && (rows + 2) * w <= |s|
    ensures Padded(Padded(s, w, rows, cols), w, rows, cols) == Padded(s, w, rows, cols)
  {
    var p := Padded(s, w, rows, cols);
    forall k | 0 <= k < |s|
      ensures Padded(p, w, rows, cols)[k] == p[k]
    {
      if k < (rows + 2) * w {
        var q := Src(w, rows, cols, k);
        SrcInterior(w, rows, cols, q);
      }
    }
  }

  /**
   * Whether `fill_padding_for` has written ghost cell `(r, c)` once it has
   * done the top and bottom cells of columns `1 .. ti - 1`, the side cells of
   * rows `1 .. sj - 1` and the first `nc` of the four corners.
   */
  predicate Written(rows: nat, cols: nat, r: nat, c: nat, ti: nat, sj: nat, nc: nat) {
    || ((r == 0 || r == rows + 1) && 1 <= c < ti)
    || ((c == 0 || c == cols + 1) && 1 <= r < sj)
    || (nc >= 1 && r == 0 && c == 0)
    || (nc >= 2 && r == 0 && c == cols + 1)
    || (nc >= 3 && r == rows + 1 && c == 0)
    || (nc >= 4 && r == rows + 1 && c == cols + 1)
  }

  /** Cell `(r, c)` part-way through `fill_padding_for` on the original buffer `s`. */
  function PadStage(s: seq<real>, w: nat, rows: nat, cols: nat, ti: nat, sj: nat, nc: nat, r: nat, c: nat): real
    requires Layout(w, rows, cols) && (rows + 2) * w <= |s| && r <= rows + 1 && c <= cols + 1
  {
    IdxBelow(w, r, c, rows + 2);
    IdxBelow(w, ClampInt(r, 1, rows), ClampInt(c, 1, cols), rows + 2);
    if Written(rows, cols, r, c, ti, sj, nc) then s[Idx(w, ClampInt(r, 1, rows), ClampInt(c, 1, cols))]
    else s[Idx(w, r, c)]
  }

  /** The padding loops have brought `b` to the given stage and left the rest of it alone. */
  ghost predicate AtStage(b: seq<real>, s: seq<real>, w: nat, rows: nat, cols: nat, ti: nat, sj: nat, nc: nat)
    requires Layout(w, rows, cols) && (rows + 2) * w <= |s| == |b|
  {
    IdxFacts(w, rows + 2);
    && (forall r: nat, c: nat :: r <= rows + 1 && c <= cols + 1 ==>
          b[Idx(w, r, c)] == PadStage(s, w, rows, cols, ti, sj, nc, r, c))
    && (forall k :: (rows + 2) * w <= k < |b| ==> b[k] == s[k])
  }

  /** Once every ghost cell is written, the buffer is the padded original. */
  lemma StageComplete(b: seq<real>, s: seq<real>, w: nat, rows: nat, cols: nat)
    requires Layout(w, rows, cols) && (rows + 2) * w <= |s| == |b|
    requires AtStage(b, s, w, rows, cols, cols + 1, rows + 1, 4)
    ensures b == Padded(s, w, rows, cols)
  {
    var h := rows + 2;
    IdxFacts(w, h);
    PaddedCell(s, w, rows, cols);
    PaddedBeyond(s, w, rows, cols);
    hide Idx, Padded, Src;
    forall k | 0 <= k < |b|
      ensures b[k] == Padded(s, w, rows, cols)[k]
    {
      if k < h * w {
        IdxOf(w, h, k);
        var r: nat, c: nat := k / w, k % w;
        assert b[Idx(w, r, c)] == PadStage(s, w, rows, cols, cols + 1, rows + 1, 4, r, c);
      }
    }
  }

  /** One step of the first padding loop: column `i` of the top and bottom ghost rows. */
  lemma TopBottomStep(b: seq<real>, s: seq<real>, w: nat, rows: nat, cols: nat, i: nat)
    requires Layout(w, rows, cols) && (rows + 2) * w <= |s| == |b| && 1 <= i <= cols
    requires AtStage(b, s, w, rows, cols, i, 1, 0)
    ensures Idx(w, 0, i) < |b| && Idx(w, 1, i) < |b| && Idx(w, rows + 1, i) < |b| && Idx(w, rows, i) < |b|
    ensures AtStage(b[Idx(w, 0, i) := b[Idx(w, 1, i)]][Idx(w, rows + 1, i) := b[Idx(w, rows, i)]],
      s, w, rows, cols, i + 1, 1, 0)
  {
    IdxFacts(w, rows + 2);
    var top, bot := Idx(w, 0, i), Idx(w, rows + 1, i);
    var b1 := b[top := b[Idx(w, 1, i)]][bot := b[Idx(w, rows, i)]];
    hide Idx;
    forall r: nat, c: nat | r <= rows + 1 && c <= cols + 1
      ensures b1[Idx(w, r, c)] == PadStage(s, w, rows, cols, i + 1, 1, 0, r, c)
    {
      if (r == 0 || r == rows + 1) && c == i {
      } else {
        assert b1[Idx(w, r, c)] == b[Idx(w, r, c)];
      }
    }
  }

  /** One step of the second padding loop: row `j` of the side ghost columns. */
  lemma SideStep(b: seq<real>, s: seq<real>, w: nat, rows: nat, cols: nat, j: nat)
    requires Layout(w, rows, cols) && (rows + 2) * w <= |s| == |b| && 1 <= j <= rows
    requires AtStage(b, s, w, rows, cols, cols + 1, j, 0)
    ensures Idx(w, j, 0) < |b| && Idx(w, j, 1) < |b| && Idx(w, j, cols + 1) < |b| && Idx(w, j, cols) < |b|
    ensures AtStage(b[Idx(w, j, 0) := b[Idx(w, j, 1)]][Idx(w, j, cols + 1) := b[Idx(w, j, cols)]],
      s, w, rows, cols, cols + 1, j + 1, 0)
  {
    IdxFacts(w, rows + 2);
  }

  /** The corner writes, one at a time: corner `nc` of `(0, 0)`, `(0, cols + 1)`, `(rows + 1, 0)`, `(rows + 1, cols + 1)`. */
  lemma CornerStep(b: seq<real>, s: seq<real>, w: nat, rows: nat, cols: nat, nc: nat, r: nat, c: nat, r0: nat, c0: nat)
    requires Layout(w, rows, cols) && (rows + 2) * w <= |s| == |b| && nc < 4
    requires || (nc == 0 && r == 0 && c == 0 && r0 == 1 && c0 == 1)
             || (nc == 1 && r == 0 && c == cols + 1 && r0 == 1 && c0 == cols)
             || (nc == 2 && r == rows + 1 && c == 0 && r0 == rows && c0 == 1)
             || (nc == 3 && r == rows + 1 && c == cols + 1 && r0 == rows && c0 == cols)
    requires AtStage(b, s, w, rows, cols, cols + 1, rows + 1, nc)
    ensures Idx(w, r, c) < |b| && Idx(w, r0, c0) < |b|
    ensures AtStage(b[Idx(w, r, c) := b[Idx(w, r0, c0)]], s, w, rows, cols, cols + 1, rows + 1, nc + 1)
  {
    IdxFacts(w, rows + 2);
  }

  /**
   * `BgCache::fill_padding_for`: copy the nearest interior cell into every
   * ghost cell, top and bottom rows first, then the side columns, then the
   * corners. It is called with the cache's own layout only.
   */
  method FillPadding(buf: array<real>, w: nat, rows: nat, cols: nat)
    requires Layout(w, rows, cols) && (rows + 2) * w <= buf.Length
    modifies buf
    ensures buf[..] == Padded(old(buf[..]), w, rows, cols)
  {
    ghost var s := buf[..];
    var h := rows + 2;
    assert AtStage(buf[..], s, w, rows, cols, 1, 1, 0) by {
      IdxFacts(w, h);
    }
    hide Idx, Padded, Src, AtStage;
    for i := 1 to cols + 1
      invariant AtStage(buf[..], s, w, rows, cols, i, 1, 0)
    {
      TopBottomStep(buf[..], s, w, rows, cols, i);
      buf[Idx(w, 0, i)] := buf[Idx(w, 1, i)];
      buf[Idx(w, h - 1, i)] := buf[Idx(w, rows, i)];
    }
    for j := 1 to rows + 1
      invariant AtStage(buf[..], s, w, rows, cols, cols + 1, j, 0)
    {
      SideStep(buf[..], s, w, rows, cols, j);
      buf[Idx(w, j, 0)] := buf[Idx(w, j, 1)];
      buf[Idx(w, j, w - 1)] := buf[Idx(w, j, cols)];
    }
    PadCorners(buf, s, w, rows, cols);
    StageComplete(buf[..], s, w, rows, cols);
  }

  /** The last four writes of `fill_padding_for`: each corner copies the interior corner next to it. */
  method PadCorners(buf: array<real>, ghost s: seq<real>, w: nat, rows: nat, cols: nat)
    requires Layout(w, rows, cols) && (rows + 2) * w <= |s| == buf.Length
    requires AtStage(buf[..], s, w, rows, cols, cols + 1, rows + 1, 0)
    modifies buf
    ensures AtStage(buf[..], s, w, rows, cols, cols + 1, rows + 1, 4)
  {
    var h := rows + 2;
    hide Idx, AtStage;
    CornerStep(buf[..], s, w, rows, cols, 0, 0, 0, 1, 1);
    buf[Idx(w, 0, 0)] := buf[Idx(w, 1, 1)];
    CornerStep(buf[..], s, w, rows, cols, 1, 0, w - 1, 1, cols);
    buf[Idx(w, 0, w - 1)] := buf[Idx(w, 1, cols)];
    CornerStep(buf[..], s, w, rows, cols, 2, h - 1, 0, rows, 1);
    buf[Idx(w, h - 1, 0)] := buf[Idx(w, rows, 1)];
    CornerStep(buf[..], s, w, rows, cols, 3, h - 1, w - 1, rows, cols);
    buf[Idx(w, h - 1, w - 1)] := buf[Idx(w, rows, cols)];
  }

  // ---------------------------------------------------------------------
  // blur_iso
  // ---------------------------------------------------------------------

  /** The 1-2-1 filter at cell `k` along offset `d`: `d == 1` is horizontal, `d == w` vertical. */
  function Filter(s: seq<real>, k: nat, d: nat): real
    requires d <= k && k + d < |s|
  {
    (s[k - d] + 2.0 * s[k] + s[k + d]) * 0.25
  }

  /** `dst` with every interior cell replaced by the filter of `src` there; the ghost ring and the rest keep `dst`. */
  function Smoothed(src: seq<real>, dst: seq<real>, w: nat, rows: nat, cols: nat, d: nat): (r: seq<real>)
    requires Layout(w, rows, cols) && (rows + 2) * w <= |src| == |dst| && (d == 1 || d == w)
    ensures |r| == |dst|
  {
    seq(|dst|, k requires 0 <= k < |dst| =>
      if k < (rows + 2) * w && Interior(w, rows, cols, k) then
        InteriorNeighbours(w, rows, cols, k);
        Filter(src, k, d)
      else dst[k])
  }

  /**
   * One pass of `blur_iso` on the field `a` and the scratch buffer `b`:
   * refresh `a`'s ghost ring, filter it horizontally into `b`'s interior,
   * refresh `b`'s ghost ring, filter that vertically into `a`'s interior.
   * Returns the new field and the new scratch buffer.
   */
  function BlurPass(a: seq<real>, b: seq<real>, w: nat, rows: nat, cols: nat): (r: (seq<real>, seq<real>))
    requires Layout(w, rows, cols) && (rows + 2) * w <= |a| == |b|
    ensures |r.0| == |a| && |r.1| == |b|
  {
    var p := Padded(a, w, rows, cols);
    var t := Padded(Smoothed(p, b, w, rows, cols, 1), w, rows, cols);
    (Smoothed(t, p, w, rows, cols, w), t)
  }

  /** `passes` passes of `blur_iso`. */
  function BlurN(a: seq<real>, b: seq<real>, w: nat, rows: nat, cols: nat, passes: nat): (r: (seq<real>, seq<real>))
    requires Layout(w, rows, cols) && (rows + 2) * w <= |a| == |b|
    ensures |r.0| == |a| && |r.1| == |b|
  {
    if passes == 0 then (a, b)
    else
      var prev := BlurN(a, b, w, rows, cols, passes - 1);
      BlurPass(prev.0, prev.1, w, rows, cols)
  }

  /** Every interior cell of `s` lies in `[lo, hi]`. */
  ghost predicate InteriorIn(s: seq<real>, w: nat, rows: nat, cols: nat, lo: real, hi: real)
    requires Layout(w, rows, cols) && (rows + 2) * w <= |s|
  {
    forall k :: 0 <= k < (rows + 2) * w && Interior(w, rows, cols, k) ==> lo <= s[k] <= hi
  }

  /** Padding copies interior values only, so the whole padded area stays in the interior's range. */
  lemma PaddedIn(s: seq<real>, w: nat, rows: nat, cols: nat, lo: real, hi: real)
    requires Layout(w, rows, cols) && (rows + 2) * w <= |s| && InteriorIn(s, w, rows, cols, lo, hi)
    ensures forall k :: 0 <= k < (rows + 2) * w ==> lo <= Padded(s, w, rows, cols)[k] <= hi
  {
  }

  /** A 1-2-1 filter of values in `[lo, hi]` lies in `[lo, hi]`. */
  lemma SmoothedIn(src: seq<real>, dst: seq<real>, w: nat, rows: nat, cols: nat, d: nat, lo: real, hi: real)
    requires Layout(w, rows, cols) && (rows + 2) * w <= |src| == |dst| && (d == 1 || d == w)
    requires forall k :: 0 <= k < (rows + 2) * w ==> lo <= src[k] <= hi
    ensures InteriorIn(Smoothed(src, dst, w, rows, cols, d), w, rows, cols, lo, hi)
  {
    forall k | 0 <= k < (rows + 2) * w && Interior(w, rows, cols, k)
      ensures lo <= Smoothed(src, dst, w, rows, cols, d)[k] <= hi
    {
      InteriorNeighbours(w, rows, cols, k);
    }
  }

  /**
   * A pass keeps every interior value within the range of the previous
   * interior; in particular a constant field is a fixed point.
   */
  lemma BlurPassIn(a: seq<real>, b: seq<real>, w: nat, rows: nat, cols: nat, lo: real, hi: real)
    requires Layout(w, rows, cols) && (rows + 2) * w <= |a| == |b| && InteriorIn(a, w, rows, cols, lo, hi)
    ensures InteriorIn(BlurPass(a, b, w, rows, cols).0, w, rows, cols, lo, hi)
  {
    var p := Padded(a, w, rows, cols);
    PaddedIn(a, w, rows, cols, lo, hi);
    var h := Smoothed(p, b, w, rows, cols, 1);
    SmoothedIn(p, b, w, rows, cols, 1, lo, hi);
    var t := Padded(h, w, rows, cols);
    PaddedIn(h, w, rows, cols, lo, hi);
    SmoothedIn(t, p, w, rows, cols, w, lo, hi);
  }

  /** The range bound over any number of passes. */
  lemma {:induction false} BlurNIn(a: seq<real>, b: seq<real>, w: nat, rows: nat, cols: nat, passes: nat, lo: real, hi: real)
    requires Layout(w, rows, cols) && (rows + 2) * w <= |a| == |b| && InteriorIn(a, w, rows, cols, lo, hi)
    ensures InteriorIn(BlurN(a, b, w, rows, cols, passes).0, w, rows, cols, lo, hi)
  {
    hide BlurPass, InteriorIn;
    if passes > 0 {
      var prev := BlurN(a, b, w, rows, cols, passes - 1);
      BlurNIn(a, b, w, rows, cols, passes - 1, lo, hi);
      BlurPassIn(prev.0, prev.1, w, rows, cols, lo, hi);
    }
  }

  /**
   * `blur_iso` does not refresh the field's ghost ring after the vertical
   * half: on return every ghost cell still holds the nearest interior value
   * from before the pass, not from after it.
   */
  lemma BlurPassStaleRing(a: seq<real>, b: seq<real>, w: nat, rows: nat, cols: nat)
    requires Layout(w, rows, cols) && (rows + 2) * w <= |a| == |b|
    ensures forall k :: 0 <= k < (rows + 2) * w && !Interior(w, rows, cols, k) ==>
      BlurPass(a, b, w, rows, cols).0[k] == a[Src(w, rows, cols, k)]
  {
  }

  /** Whether interior cell `(r, c)` comes before `(j, i)` in row-major order. */
  predicate Before(r: nat, c: nat, j: nat, i: nat) {
    r < j || (r == j && c < i)
  }

  /** Cell `(r, c)` of `dst` part-way through a filter loop that has reached `(j, i)`. */
  function SmoothStage(src: seq<real>, dst: seq<real>, w: nat, rows: nat, cols: nat, d: nat, j: nat, i: nat, r: nat, c: nat): real
    requires Layout(w, rows, cols) && (rows + 2) * w <= |src| == |dst| && (d == 1 || d == w)
    requires r <= rows + 1 && c <= cols + 1
  {
    IdxFacts(w, rows + 2);
    if 1 <= r <= rows && 1 <= c <= cols && Before(r, c, j, i) then
      InteriorNeighbours(w, rows, cols, Idx(w, r, c));
      Filter(src, Idx(w, r, c), d)
    else dst[Idx(w, r, c)]
  }

  /** The filter loop has brought `b` to `(j, i)` and left the rest of `dst` alone. */
  ghost predicate AtSmooth(b: seq<real>, src: seq<real>, dst: seq<real>, w: nat, rows: nat, cols: nat, d: nat, j: nat, i: nat)
    requires Layout(w, rows, cols) && (rows + 2) * w <= |src| == |dst| == |b| && (d == 1 || d == w)
  {
    IdxFacts(w, rows + 2);
    && (forall r: nat, c: nat :: r <= rows + 1 && c <= cols + 1 ==>
          b[Idx(w, r, c)] == SmoothStage(src, dst, w, rows, cols, d, j, i, r, c))
    && (forall k :: (rows + 2) * w <= k < |b| ==> b[k] == dst[k])
  }

  /** One step of a filter loop: interior cell `(j, i)`. */
  lemma SmoothStep(b: seq<real>, src: seq<real>, dst: seq<real>, w: nat, rows: nat, cols: nat, d: nat, j: nat, i: nat)
    requires Layout(w, rows, cols) && (rows + 2) * w <= |src| == |dst| == |b| && (d == 1 || d == w)
    requires 1 <= j <= rows && 1 <= i <= cols && AtSmooth(b, src, dst, w, rows, cols, d, j, i)
    ensures d <= Idx(w, j, i) && Idx(w, j, i) + d < |b|
    ensures AtSmooth(b[Idx(w, j, i) := Filter(src, Idx(w, j, i), d)], src, dst, w, rows, cols, d, j, i + 1)
  {
    IdxFacts(w, rows + 2);
    IdxRowCol(w, j, i);
    InteriorNeighbours(w, rows, cols, Idx(w, j, i));
  }

  /** The end of a row of a filter loop is the start of the next. */
  lemma SmoothRow(b: seq<real>, src: seq<real>, dst: seq<real>, w: nat, rows: nat, cols: nat, d: nat, j: nat)
    requires Layout(w, rows, cols) && (rows + 2) * w <= |src| == |dst| == |b| && (d == 1 || d == w)
    requires AtSmooth(b, src, dst, w, rows, cols, d, j, cols + 1)
    ensures AtSmooth(b, src, dst, w, rows, cols, d, j + 1, 1)
  {
  }

  /** A finished filter loop leaves `Smoothed`. */
  lemma SmoothDone(b: seq<real>, src: seq<real>, dst: seq<real>, w: nat, rows: nat, cols: nat, d: nat)
    requires Layout(w, rows, cols) && (rows + 2) * w <= |src| == |dst| == |b| && (d == 1 || d == w)
    requires AtSmooth(b, src, dst, w, rows, cols, d, rows + 1, 1)
    ensures b == Smoothed(src, dst, w, rows, cols, d)
  {
    var h := rows + 2;
    IdxFacts(w, h);
    forall k | 0 <= k < |b|
      ensures b[k] == Smoothed(src, dst, w, rows, cols, d)[k]
    {
      if k < h * w {
        IdxOf(w, h, k);
        var r: nat, c: nat := k / w, k % w;
        assert b[Idx(w, r, c)] == SmoothStage(src, dst, w, rows, cols, d, rows + 1, 1, r, c);
      }
    }
  }

  /**
   * One half of a `blur_iso` pass: the filter loop over the interior, from
   * `src` into `dst`, along offset `d` (1 for the horizontal half, `w` for the
   * vertical one).
   */
  method Smooth(src: array<real>, dst: array<real>, w: nat, rows: nat, cols: nat, d: nat)
    requires Layout(w, rows, cols) && (rows + 2) * w <= src.Length == dst.Length && (d == 1 || d == w)
    requires src != dst
    modifies dst
    ensures dst[..] == Smoothed(src[..], old(dst[..]), w, rows, cols, d)
  {
    ghost var s0, d0 := src[..], dst[..];
    assert AtSmooth(dst[..], s0, d0, w, rows, cols, d, 1, 1) by {
      IdxFacts(w, rows + 2);
    }
    hide Idx, AtSmooth, Smoothed;
    for j := 1 to rows + 1
      invariant AtSmooth(dst[..], s0, d0, w, rows, cols, d, j, 1)
    {
      var row := Idx(w, j, 0);
      for i := 1 to cols + 1
        invariant AtSmooth(dst[..], s0, d0, w, rows, cols, d, j, i)
      {
        SmoothStep(dst[..], s0, d0, w, rows, cols, d, j, i);
        var idx := Idx(w, j, i);
        dst[idx] := (src[idx - d] + 2.0 * src[idx] + src[idx + d]) * 0.25;
      }
      SmoothRow(dst[..], s0, d0, w, rows, cols, d, j);
    }
    SmoothDone(dst[..], s0, d0, w, rows, cols, d);
  }

  // ---------------------------------------------------------------------
  // Grid coordinates, trigonometric tables, triangle indices
  // ---------------------------------------------------------------------

  /** `Vec::resize(n, 0.0)`: truncate, or pad with zeros. */
  function Resize(s: seq<real>, n: nat): (r: seq<real>)
    ensures |r| == n
  {
    if n <= |s| then s[..n] else s + seq(n - |s|, _ => 0.0)
  }

  /** Resizing keeps the old prefix and fills the new tail with zeros. */
  lemma ResizeAt(s: seq<real>, n: nat)
    ensures forall k :: 0 <= k < n ==> Resize(s, n)[k] == if k < |s| then s[k] else 0.0
  {
  }

  /** The `n + 1` grid coordinates `i / n` along an axis of `n` cells. */
  function Grid(n: nat): (g: seq<real>)
    requires n >= 1
    ensures |g| == n + 1
  {
    seq(n + 1, i requires 0 <= i <= n => i as real / n as real)
  }

  /** Slot `i` of the grid, scaled back by `n`, is `i`. */
  lemma GridAt(n: nat, i: nat)
    requires n >= 1 && i <= n
    ensures Grid(n)[i] * (n as real) == i as real
  {
  }

  /** Cancelling a positive factor. */
  lemma Cancel(n: real, x: real, y: real)
    requires n > 0.0 && x * n == y * n
    ensures x == y
  {
    if x < y {
      MulStrict(n, x, y);
    } else if y < x {
      MulStrict(n, y, x);
    }
  }

  /** Each coordinate lies in `[0, 1]` and mirrors its partner about 1/2. */
  lemma GridCell(n: nat, i: nat)
    requires n >= 1 && i <= n
    ensures 0.0 <= Grid(n)[i] <= 1.0 && Grid(n)[i] + Grid(n)[n - i] == 1.0
  {
    hide Grid;
    GridAt(n, i);
    GridAt(n, n - i);
    Unscaled(n as real, Grid(n)[i], Grid(n)[n - i], i as real, (n - i) as real);
  }

  /** Two numbers that `n` scales to `a` and `b`, with `0 <= a <= n` and `a + b == n`: the first lies in `[0, 1]` and they sum to 1. */
  lemma Unscaled(n: real, x: real, y: real, a: real, b: real)
    requires n > 0.0 && x * n == a && y * n == b && 0.0 <= a <= n && a + b == n
    ensures 0.0 <= x <= 1.0 && x + y == 1.0
  {
    if x < 0.0 {
      MulStrict(n, x, 0.0);
    }
    if 1.0 < x {
      MulStrict(n, 1.0, x);
    }
    assert (x + y) * n == x * n + y * n;
    Cancel(n, x + y, 1.0);
  }

  /** Neighbouring coordinates are `1 / n` apart. */
  lemma GridStep(n: nat, i: nat)
    requires n >= 1 && i < n
    ensures Grid(n)[i + 1] - Grid(n)[i] == 1.0 / n as real
  {
    var nr := n as real;
    var x, y := Grid(n)[i], Grid(n)[i + 1];
    GridAt(n, i);
    GridAt(n, i + 1);
    hide Grid;
    assert (y - x) * nr == y * nr - x * nr;
    assert (1.0 / nr) * nr == 1.0;
    Cancel(nr, y - x, 1.0 / nr);
  }

  /**
   * The coordinates run from 0 to 1 in equal steps of `1 / n`, and are
   * symmetric about 1/2, so they average 1/2.
   */
  lemma GridProps(n: nat)
    requires n >= 1
    ensures Grid(n)[0] == 0.0 && Grid(n)[n] == 1.0
    ensures forall i :: 0 <= i <= n ==> 0.0 <= Grid(n)[i] <= 1.0 && Grid(n)[i] + Grid(n)[n - i] == 1.0
    ensures forall i :: 0 <= i < n ==> Grid(n)[i + 1] - Grid(n)[i] == 1.0 / n as real
  {
    hide Grid;
    GridAt(n, 0);
    GridCell(n, 0);
    forall i | 0 <= i <= n
      ensures 0.0 <= Grid(n)[i] <= 1.0 && Grid(n)[i] + Grid(n)[n - i] == 1.0
    {
      GridCell(n, i);
    }
    forall i | 0 <= i < n
      ensures Grid(n)[i + 1] - Grid(n)[i] == 1.0 / n as real
    {
      GridStep(n, i);
    }
  }

  /** One table entry, `f(a * x)`. */
  function Trig(f: real -> real, a: real, x: real): real {
    f(a * x)
  }

  /** The table `f(a * x)` over the coordinates `xs`. */
  function Table(f: real -> real, a: real, xs: seq<real>): (t: seq<real>)
    ensures |t| == |xs|
  {
    seq(|xs|, i requires 0 <= i < |xs| => Trig(f, a, xs[i]))
  }

  lemma TableAt(f: real -> real, a: real, xs: seq<real>)
    ensures forall i :: 0 <= i < |xs| ==> Table(f, a, xs)[i] == Trig(f, a, xs[i])
  {
  }

  /** The two triangles `[i0, i2, i1, i1, i2, i3]` of cell `(i, j)`. */
  function Quad(cols: nat, i: nat, j: nat): seq<nat> {
    var i0 := j * cols + i;
    var i2 := i0 + cols;
    [i0, i2, i0 + 1, i0 + 1, i2, i2 + 1]
  }

  /** The triangles of the first `n` cells in row-major order (`j` outer, `i` inner). */
  function Tris(nx: nat, cols: nat, n: nat): (t: seq<nat>)
    requires nx >= 1
    ensures |t| == 6 * n
  {
    if n == 0 then [] else Tris(nx, cols, n - 1) + Quad(cols, (n - 1) % nx, (n - 1) / nx)
  }

  /** The triangle list of an `nx` by `ny` grid. */
  function Indices(nx: nat, ny: nat): (t: seq<nat>)
    requires nx >= 1
    ensures |t| == 6 * (nx * ny)
  {
    Tris(nx, nx + 1, nx * ny)
  }

  /** The slot after the last of row `r` is the first of row `r + 1`. */
  lemma IdxRowEnd(w: nat, r: nat)
    ensures Idx(w, r, w) == Idx(w, r + 1, 0)
  {
  }

  /** Appending cell `(i, j)` extends the row-major prefix by one cell. */
  lemma TrisNext(nx: nat, cols: nat, j: nat, i: nat)
    requires 1 <= nx && i < nx
    ensures Tris(nx, cols, Idx(nx, j, i) + 1) == Tris(nx, cols, Idx(nx, j, i)) + Quad(cols, i, j)
  {
    IdxRowCol(nx, j, i);
  }

  /** A shorter prefix of cells is a prefix of the triangle list. */
  lemma {:induction false} TrisPrefix(nx: nat, cols: nat, m: nat, n: nat)
    requires nx >= 1 && m <= n
    ensures Tris(nx, cols, m) == Tris(nx, cols, n)[..6 * m]
  {
    if m < n {
      TrisPrefix(nx, cols, m, n - 1);
      assert Tris(nx, cols, n)[..6 * (n - 1)] == Tris(nx, cols, n - 1);
    }
  }

  /** Cell `(i, j)` owns entries `6 * (j * nx + i) .. + 6` of the list. */
  lemma IndicesCell(nx: nat, ny: nat, i: nat, j: nat)
    requires nx >= 1 && i < nx && j < ny
    ensures 6 * Idx(nx, j, i) + 6 <= |Indices(nx, ny)|
    ensures Indices(nx, ny)[6 * Idx(nx, j, i) .. 6 * Idx(nx, j, i) + 6] == Quad(nx + 1, i, j)
  {
    var k := Idx(nx, j, i);
    IdxBelow(nx, j, i, ny);
    assert ny * nx == nx * ny;
    hide Tris, Idx;
    TrisPrefix(nx, nx + 1, k + 1, nx * ny);
    TrisNext(nx, nx + 1, j, i);
    var pre := Tris(nx, nx + 1, k + 1);
    assert pre[6 * k ..] == Quad(nx + 1, i, j);
    assert Indices(nx, ny)[6 * k .. 6 * k + 6] == pre[6 * k ..];
  }

  /** Every index names one of the `cols * rows` vertices. */
  lemma {:induction false} TrisBound(nx: nat, cols: nat, ny: nat, n: nat)
    requires nx >= 1 && cols == nx + 1 && n <= nx * ny
    ensures forall t :: 0 <= t < 6 * n ==> Tris(nx, cols, n)[t] < cols * (ny + 1)
  {
    if n > 0 {
      TrisBound(nx, cols, ny, n - 1);
      var i, j := (n - 1) % nx, (n - 1) / nx;
      assert nx * ny == ny * nx;
      RowBelow(nx, n - 1, ny);
      MulLe(j + 1, ny, cols);
      assert j * cols + cols == (j + 1) * cols;
      assert cols * (ny + 1) == ny * cols + cols;
      assert Tris(nx, cols, n) == Tris(nx, cols, n - 1) + Quad(cols, i, j);
    }
  }

  /** `ensure`'s coordinate loop: resize, then write `i / n` into every slot. */
  method FillCoords(s: seq<real>, n: nat) returns (g: seq<real>)
    requires n >= 1
    ensures g == Grid(n)
  {
    g := Resize(s, n + 1);
    for i := 0 to n + 1
      invariant |g| == n + 1
      invariant forall k :: 0 <= k < i ==> g[k] == k as real / n as real
    {
      g := g[i := i as real / n as real];
    }
  }

  /** Four tables over one axis: `sin` and `cos` of `a * x` and of `b * x`. */
  datatype AxisTables = AxisTables(sinA: seq<real>, cosA: seq<real>, sinB: seq<real>, cosB: seq<real>)

  /** The tables `ensure` builds for coordinates `xs` and frequencies `a`, `b`. */
  function Tables(m: Math, xs: seq<real>, a: real, b: real): AxisTables {
    AxisTables(Table(m.sin, a, xs), Table(m.cos, a, xs), Table(m.sin, b, xs), Table(m.cos, b, xs))
  }

  /**
   * One of `ensure`'s table loops: resize the four tables to the coordinates
   * and fill them with `sin` and `cos` of `a * x` and `b * x`.
   */
  method FillTables(m: Math, xs: seq<real>, a: real, b: real, t0: AxisTables) returns (t: AxisTables)
    ensures t == Tables(m, xs, a, b)
  {
    hide Resize, Table;
    var n := |xs|;
    var sa, ca, sb, cb := Resize(t0.sinA, n), Resize(t0.cosA, n), Resize(t0.sinB, n), Resize(t0.cosB, n);
    for i := 0 to n
      invariant |sa| == |ca| == |sb| == |cb| == n
      invariant forall k :: 0 <= k < i ==> sa[k] == Trig(m.sin, a, xs[k]) && ca[k] == Trig(m.cos, a, xs[k])
      invariant forall k :: 0 <= k < i ==> sb[k] == Trig(m.sin, b, xs[k]) && cb[k] == Trig(m.cos, b, xs[k])
    {
      var x := xs[i];
      sa, ca := sa[i := Trig(m.sin, a, x)], ca[i := Trig(m.cos, a, x)];
      sb, cb := sb[i := Trig(m.sin, b, x)], cb[i := Trig(m.cos, b, x)];
    }
    TableAt(m.sin, a, xs);
    TableAt(m.cos, a, xs);
    TableAt(m.sin, b, xs);
    TableAt(m.cos, b, xs);
    t := AxisTables(sa, ca, sb, cb);
  }

  /** `ensure`'s index loop: two triangles per cell, rows outer, columns inner. */
  method BuildIndices(nx: nat, ny: nat) returns (ind: seq<nat>)
    requires nx >= 1
    ensures ind == Indices(nx, ny)
  {
    var cols := nx + 1;
    assert Tris(nx, cols, 0) == [];
    hide Tris;
    ind := [];
    for j := 0 to ny
      invariant ind == Tris(nx, cols, Idx(nx, j, 0))
    {
      for i := 0 to nx
        invariant ind == Tris(nx, cols, Idx(nx, j, i))
      {
        var i0 := j * cols + i;
        var i1 := i0 + 1;
        var i2 := i0 + cols;
        var i3 := i2 + 1;
        TrisNext(nx, cols, j, i);
        ind := ind + [i0, i2, i1, i1, i2, i3];
      }
      IdxRowEnd(nx, j);
    }
  }

  /** `Vec::resize` on a buffer held as an array: a fresh array of the new size. */
  method ResizeArray(a: array<real>, n: nat) returns (b: array<real>)
    ensures fresh(b) && b[..] == Resize(a[..], n)
  {
    b := new real[n];
    for k := 0 to n
      invariant forall q :: 0 <= q < k ==> b[q] == if q < a.Length then a[q] else 0.0
    {
      b[k] := if k < a.Length then a[k] else 0.0;
    }
    ResizeAt(a[..], n);
  }

  /**
   * `ensure`'s rebuild of the mesh for a new key: coordinates, the two table
   * loops and the index loop, each reusing the old vector's storage.
   */
  method BuildMesh(m: Math, nx: nat, ny: nat, g0: Mesh) returns (g: Mesh)
    requires nx >= 1 && ny >= 1
    ensures Shaped(nx, ny, g) && Tabled(m, g)
  {
    var u := FillCoords(g0.u, nx);
    var v := FillCoords(g0.v, ny);
    var ut := FillTables(m, u, 0.9, 0.6, g0.uTrig);
    var vt := FillTables(m, v, 0.7, 0.8, g0.vTrig);
    var ind := BuildIndices(nx, ny);
    g := Mesh(nx + 1, ny + 1, nx + 3, u, v, ut, vt, ind);
  }

  // ---------------------------------------------------------------------
  // The cache
  // ---------------------------------------------------------------------

  /**
   * The part of the cache that `ensure` rebuilds as a whole when the key
   * changes: the vertex counts, the padded row width, the coordinate and
   * trigonometric tables and the triangle list.
   */
  datatype Mesh = Mesh(
    cols: nat,
    rows: nat,
    wPad: nat,
    u: seq<real>,
    v: seq<real>,
    /** `sin_09u`, `cos_09u`, `sin_06u`, `cos_06u` */
    uTrig: AxisTables,
    /** `sin_07v`, `cos_07v`, `sin_08v`, `cos_08v` */
    vTrig: AxisTables,
    indices: seq<nat>)

  /** The mesh `BgCache::new` starts with. */
  const EMPTY_MESH := Mesh(0, 0, 0, [], [], AxisTables([], [], [], []), AxisTables([], [], [], []), [])

  /**
   * The shape of the mesh for `nx` by `ny` cells: `nx + 1` by `ny + 1`
   * vertices at the grid coordinates, a ring of ghost cells around them
   * (two more columns per padded row), and the triangle list of the grid.
   */
  ghost predicate Shaped(nx: nat, ny: nat, g: Mesh) {
    && nx >= 1 && ny >= 1
    && g.cols == nx + 1 && g.rows == ny + 1 && g.wPad == g.cols + 2
    && g.u == Grid(nx) && g.v == Grid(ny)
    && g.indices == Indices(nx, ny)
  }

  /** The tables over `u` use frequencies 0.9 and 0.6, those over `v` 0.7 and 0.8. */
  ghost predicate Tabled(m: Math, g: Mesh) {
    g.uTrig == Tables(m, g.u, 0.9, 0.6) && g.vTrig == Tables(m, g.v, 0.7, 0.8)
  }

  /** The slots of each padded field buffer for `nx` by `ny` cells. */
  function Cap(nx: nat, ny: nat): nat {
    (ny + 3) * (nx + 3)
  }

  /** `BgCache`: the key, the mesh, the two padded field buffers and the row biases. */
  class BgCache {
    var nx: nat
    var ny: nat
    var mesh: Mesh
    var iso: array<real>
    var tmp: array<real>
    var rowBias: seq<real>

    /** The state `BgCache::new` builds: no grid yet. */
    ghost predicate Initial()
      reads this, iso, tmp
    {
      nx == ny == 0 && mesh == EMPTY_MESH && rowBias == [] && iso.Length == tmp.Length == 0
    }

    /** A cache keyed by `(nx, ny)`: its mesh, two distinct buffers of `Cap` slots and a bias per vertex row. */
    ghost predicate Sized()
      reads this
    {
      && Shaped(nx, ny, mesh)
      && iso.Length == tmp.Length == Cap(nx, ny) && iso != tmp
      && |rowBias| == mesh.rows
    }

    ghost predicate Valid(m: Math)
      reads this, iso, tmp
    {
      iso != tmp && (Initial() || (Sized() && Tabled(m, mesh)))
    }

    /** `BgCache::new` */
    constructor ()
      ensures Initial() && iso != tmp
    {
      nx, ny, mesh := 0, 0, EMPTY_MESH;
      iso := new real[0];
      tmp := new real[0];
      rowBias := [];
    }

    /**
     * `BgCache::ensure`: with the stored key nothing changes; otherwise the
     * cache is rebuilt for `nx` by `ny` cells, the field buffers keeping
     * their old prefix as `Vec::resize` does.
     */
    method Ensure(m: Math, nx: nat, ny: nat)
      requires Valid(m) && nx >= 1 && ny >= 1
      modifies this
      ensures Valid(m) && Sized() && Tabled(m, mesh) && this.nx == nx && this.ny == ny
      ensures old(this.nx) == nx && old(this.ny) == ny ==> unchanged(this) && iso[..] == old(iso[..])
      ensures old(this.nx) != nx || old(this.ny) != ny ==>
        && fresh(iso) && fresh(tmp)
        && iso[..] == Resize(old(iso[..]), Cap(nx, ny))
        && tmp[..] == Resize(old(tmp[..]), Cap(nx, ny))
        && rowBias == Resize(old(rowBias), ny + 1)
    {
      if this.nx == nx && this.ny == ny {
        return;
      }
      var g := BuildMesh(m, nx, ny, mesh);
      var cap := (ny + 3) * (nx + 3);
      var iso1 := ResizeArray(iso, cap);
      var tmp1 := ResizeArray(tmp, cap);
      this.nx, this.ny, mesh := nx, ny, g;
      iso, tmp, rowBias := iso1, tmp1, Resize(rowBias, ny + 1);
    }

    /** `BgCache::blur_iso`: `passes` passes, each refreshing the ghost ring before each half. */
    method BlurIso(passes: nat)
      requires Sized()
      modifies iso, tmp
      ensures (iso[..], tmp[..]) == BlurN(old(iso[..]), old(tmp[..]), mesh.wPad, mesh.rows, mesh.cols, passes)
    {
      var w, rows, cols := mesh.wPad, mesh.rows, mesh.cols;
      ghost var a0, b0 := iso[..], tmp[..];
      hide Padded, Smoothed;
      for p := 0 to passes
        invariant (iso[..], tmp[..]) == BlurN(a0, b0, w, rows, cols, p)
      {
        FillPadding(iso, w, rows, cols);
        Smooth(iso, tmp, w, rows, cols, 1);
        FillPadding(tmp, w, rows, cols);
        Smooth(tmp, iso, w, rows, cols, w);
      }
    }
  }
}
