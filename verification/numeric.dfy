/**
 * Numeric ground shared by the whole model.
 *
 * `f32` arithmetic is modelled as `real`. The transcendental functions the
 * renderer calls (`sin`, `cos`, `sqrt`, `exp`, `tanh`) are not defined here:
 * they are carried as a record of function values, `Math`, and every member
 * that uses them requires `Lawful(m)`, the handful of mathematical facts the
 * proofs rely on. The idealised functions of real analysis, with PI taken
 * as exact, satisfy it; `f32` implementations satisfy it only approximately.
 */
module Numeric {

  /** `std::f32::consts::PI` and `TAU`, as exact reals with TAU == 2 * PI. */
  const PI: real := 3.14159265358979
  const TAU: real := 2.0 * PI

  /** The value space of an `f32`: a finite number, an infinity or NaN. */
  datatype F32 = Finite(value: real) | Inf(negative: bool) | NaN {
    /** `f32::is_finite` */
    predicate IsFinite() { Finite? }
  }

  function Min(a: real, b: real): (r: real)
    ensures r <= a && r <= b && (r == a || r == b)
  {
    if a <= b then a else b
  }

  function Max(a: real, b: real): (r: real)
    ensures r >= a && r >= b && (r == a || r == b)
  {
    if a >= b then a else b
  }

  function Abs(x: real): (r: real)
    ensures r >= 0.0 && (r == x || r == -x)
  {
    if x < 0.0 then -x else x
  }

  /** `f32::clamp`; it panics when `lo > hi`, hence the precondition. */
  function Clamp(x: real, lo: real, hi: real): (r: real)
    requires lo <= hi
    ensures lo <= r <= hi
    ensures lo <= x <= hi ==> r == x
    ensures x < lo ==> r == lo
    ensures x > hi ==> r == hi
  {
    if x < lo then lo else if x > hi then hi else x
  }

  /** `Ord::clamp` on integers; it panics when `lo > hi`. */
  function ClampInt(x: int, lo: int, hi: int): (r: int)
    requires lo <= hi
    ensures lo <= r <= hi
    ensures lo <= x <= hi ==> r == x
  {
    if x < lo then lo else if x > hi then hi else x
  }

  function MinNat(a: nat, b: nat): (r: nat)
    ensures r <= a && r <= b && (r == a || r == b)
  {
    if a <= b then a else b
  }

  /** `f32::ceil` */
  function Ceil(x: real): (r: int)
    ensures x <= r as real < x + 1.0
  {
    -((-x).Floor)
  }

  /** `x as usize` for an `f32`: truncation toward zero, saturating at 0. */
  function ToUsize(x: real): (r: nat)
    ensures x < 0.0 ==> r == 0
    ensures x >= 0.0 ==> r as real <= x < r as real + 1.0
  {
    if x < 0.0 then 0 else x.Floor
  }

  /** `f32::rem_euclid`: the non-negative remainder. */
  function RemEuclid(x: real, m: real): (r: real)
    requires m > 0.0
    ensures 0.0 <= r < m
  {
    var q := x / m;
    assert m * q == x;
    ScaledFraction(x, m, q, q.Floor as real);
    x - m * q.Floor as real
  }

  /** Rust's `%` on `f32` (`fmod`): the remainder truncated toward zero. */
  function FMod(x: real, m: real): (r: real)
    requires m > 0.0
    ensures x >= 0.0 ==> 0.0 <= r < m
    ensures 0.0 <= x < m ==> r == x
  {
    var q := x / m;
    assert m * q == x;
    var tq := if q >= 0.0 then q.Floor else -((-q).Floor);
    if q >= 0.0 then
      assert x < m ==> q < 1.0 by {
        if x < m && q >= 1.0 { MulNonNeg(m, q - 1.0); }
      }
      ScaledFraction(x, m, q, tq as real);
      x - m * tq as real
    else
      x - m * tq as real
  }

  /** `x - m * f` lies in `[0, m)` when `x == m * q` and `f <= q < f + 1`. */
  lemma ScaledFraction(x: real, m: real, q: real, f: real)
    requires m > 0.0 && m * q == x && f <= q < f + 1.0
    ensures 0.0 <= x - m * f < m
  {
    MulNonNeg(m, q - f);
    MulStrict(m, q - f, 1.0);
    assert m * (q - f) == x - m * f;
  }

  lemma MulNonNeg(a: real, b: real)
    requires a >= 0.0 && b >= 0.0
    ensures a * b >= 0.0
  {
  }

  /** `m * a < m * b` for `m > 0` and `a < b`. */
  lemma MulStrict(m: real, a: real, b: real)
    requires m > 0.0 && a < b
    ensures m * a < m * b
  {
    assert m * b - m * a == m * (b - a);
  }

  /** The transcendental functions the renderer calls. */
  datatype Math = Math(
    sin: real -> real,
    cos: real -> real,
    sqrt: real -> real,
    exp: real -> real,
    tanh: real -> real)

  ghost predicate SinAdd(m: Math, a: real, b: real) {
    m.sin(a + b) == m.sin(a) * m.cos(b) + m.cos(a) * m.sin(b)
  }

  ghost predicate CosAdd(m: Math, a: real, b: real) {
    m.cos(a + b) == m.cos(a) * m.cos(b) - m.sin(a) * m.sin(b)
  }

  /** The facts about the transcendental functions that the proofs use. */
  ghost predicate Lawful(m: Math) {
    && (forall x :: -1.0 <= m.sin(x) <= 1.0)
    && (forall x :: -1.0 <= m.cos(x) <= 1.0)
    && (forall x :: Sq(m.sin(x)) + Sq(m.cos(x)) == 1.0)
    && (forall a, b :: SinAdd(m, a, b))
    && (forall a, b :: CosAdd(m, a, b))
    && m.sin(0.0) == 0.0 && m.cos(0.0) == 1.0 && m.cos(PI) == -1.0
    && (forall x :: x >= 0.0 ==> m.sqrt(x) >= 0.0 && Sq(m.sqrt(x)) == x)
    && (forall x :: m.exp(x) > 0.0)
    && (forall x :: x < 0.0 ==> m.exp(x) < 1.0)
    && (forall x :: -1.0 < m.tanh(x) < 1.0)
    && (forall x :: x > 0.0 ==> m.tanh(x) > 0.0)
    && m.tanh(0.0) == 0.0
  }

  /**
   * The smoothing factor `1 - exp(-dt / tau)` used by every exponential
   * follower of the source.
   */
  function Alpha(m: Math, dt: real, tau: real): (a: real)
    requires Lawful(m) && dt > 0.0 && tau > 0.0
    ensures 0.0 < a < 1.0
  {
    assert -dt / tau < 0.0;
    1.0 - m.exp(-dt / tau)
  }

  /**
   * `d * a` for a factor strictly between 0 and 1: a strict fraction of `d`
   * with the sign of `d`.
   */
  function Scale(d: real, a: real): (r: real)
    requires 0.0 < a < 1.0
    ensures d > 0.0 ==> 0.0 < r < d
    ensures d < 0.0 ==> d < r < 0.0
    ensures d == 0.0 ==> r == 0.0
  {
    ScaleBounds(d, a);
    d * a
  }

  lemma ScaleBounds(d: real, a: real)
    requires 0.0 < a < 1.0
    ensures d > 0.0 ==> 0.0 < d * a < d
    ensures d < 0.0 ==> d < d * a < 0.0
    ensures d == 0.0 ==> d * a == 0.0
  {
    if d < 0.0 {
      assert (-d) * a > 0.0;
      assert (-d) * a < -d;
      assert (-d) * a == -(d * a);
    }
  }

  /**
   * One step of an exponential follower, `x += (target - x) * a`: the value
   * moves strictly toward the target and never overshoots it.
   */
  function Follow(x: real, target: real, a: real): (r: real)
    requires 0.0 < a < 1.0
    ensures Min(x, target) <= r <= Max(x, target)
    ensures x < target ==> x < r < target
    ensures target < x ==> target < r < x
    ensures x == target ==> r == x
  {
    x + Scale(target - x, a)
  }

  /** `x * x`, kept behind a name so that the solver treats it as a term. */
  function Sq(x: real): (r: real)
    ensures r >= 0.0
  {
    MulNonNeg(Abs(x), Abs(x));
    x * x
  }

  /** Squaring is strictly monotone on the non-negative reals. */
  lemma SqStrict(a: real, b: real)
    requires 0.0 <= a < b
    ensures Sq(a) < Sq(b)
  {
    MulNonNeg(a, b - a);
    MulStrict(b, a, b);
    var lo, hi := a * a, b * b;
    assert lo <= a * b by {
      assert a * b - lo == a * (b - a);
    }
    assert lo < hi;
    assert Sq(a) == lo && Sq(b) == hi;
  }

  /** `sin(x)^2 + cos(x)^2 == 1` at one point. */
  lemma Pythagoras(m: Math, x: real)
    requires Lawful(m)
    ensures Sq(m.sin(x)) + Sq(m.cos(x)) == 1.0
  {
  }

  /** `(a * b)^2 == a^2 * b^2` */
  lemma SqMul(a: real, b: real)
    ensures Sq(a * b) == Sq(a) * Sq(b)
  {
    assert (a * b) * (a * b) == (a * a) * (b * b);
  }

  /** A fraction `r` in `[0, 1]` of a non-negative `c`. */
  function Part(r: real, c: real): (x: real)
    requires 0.0 <= r <= 1.0 && c >= 0.0
    ensures 0.0 <= x <= c
  {
    MulNonNeg(r, c);
    MulNonNeg(1.0 - r, c);
    r * c
  }

  lemma SqrtZero(m: Math)
    requires Lawful(m)
    ensures m.sqrt(0.0) == 0.0
  {
    var s := m.sqrt(0.0);
    assert s >= 0.0 && Sq(s) == 0.0;
    if s > 0.0 { SqStrict(0.0, s); }
  }

  /** `sqrt(x) >= 1` whenever `x >= 1`. */
  lemma SqrtAtLeastOne(m: Math, x: real)
    requires Lawful(m) && x >= 1.0
    ensures m.sqrt(x) >= 1.0
  {
    var s := m.sqrt(x);
    assert s >= 0.0 && Sq(s) == x;
    if s < 1.0 { SqStrict(s, 1.0); }
  }
}
