/**
 * The seeded oscillator parameters of the flow-field background
 * (src/app/anim/flow.rs): four plane waves with wave vectors, angular
 * speeds and phases drawn from `rand01`, and one warp amplitude.
 */
module Flow {
  import opened Numeric
  import opened Wrappers
  import opened TimeRng

  /** `FlowParams`: four oscillators and the warp amplitude. */
  datatype FlowParams = FlowParams(kx: seq<real>, ky: seq<real>, w: seq<real>, ph: seq<real>, warp: real)

  /** The golden-ratio increment that spreads the oscillator seeds. */
  const GOLDEN: U32 := 0x9E37_79B9

  /** `a ^ b` on words. */
  function XorW(a: U32, b: U32): (r: U32)
    ensures Xor(r, b) == a
  {
    Pow2Word();
    XorBound(a, b, 32);
    XorCancel(a, b);
    Xor(a, b)
  }

  /**
   * The multiplication `(i + 1) * 0x9E37_79B9` as written: a plain `u32`
   * product, which panics on overflow when overflow checks are on (`None`).
   */
  function OscSeedChecked(seed: U32, i: nat): (r: Option<U32>)
    requires i < 4
    ensures r.Some? <==> (i + 1) * GOLDEN < WORD
  {
    var p := (i + 1) * GOLDEN;
    if p < WORD then Some(XorW(seed, p)) else None
  }

  /** Every oscillator after the first overflows the `u32` product. */
  lemma OscSeedOverflows(seed: U32, i: nat)
    requires 1 <= i < 4
    ensures OscSeedChecked(seed, i) == None
  {
  }

  /** The seed of oscillator `i`, with the product wrapping mod 2^32. */
  function OscSeed(seed: U32, i: nat): (r: U32)
    requires i < 4
    ensures OscSeedChecked(seed, i).Some? ==> r == OscSeedChecked(seed, i).value
  {
    XorW(seed, MulW(i + 1, GOLDEN))
  }

  /** With the wrapping product the four oscillators get four distinct seeds. */
  lemma OscSeedsDistinct(seed: U32, i: nat, j: nat)
    requires i < 4 && j < 4 && i != j
    ensures OscSeed(seed, i) != OscSeed(seed, j)
  {
    var a, b := MulW(i + 1, GOLDEN), MulW(j + 1, GOLDEN);
    assert MulW(1, GOLDEN) == 0x9E37_79B9;
    assert MulW(2, GOLDEN) == 0x3C6E_F372;
    assert MulW(3, GOLDEN) == 0xDAA6_6D2B;
    assert MulW(4, GOLDEN) == 0x78DD_E6E4;
    assert a != b;
    XorComm(seed, a);
    XorComm(seed, b);
    XorCancel(a, seed);
    XorCancel(b, seed);
  }

  /** The direction of oscillator `i`'s wave vector, in `[0, TAU]`. */
  function Angle(si: U32): (r: real)
    ensures 0.0 <= r <= TAU
  {
    Part(Rand01(XorW(si, 0x11)), TAU)
  }

  /** The length of oscillator `i`'s wave vector. */
  function Mag(si: U32): (r: real)
    ensures 0.22 <= r <= 0.48
  {
    0.22 + 0.26 * Rand01(XorW(si, 0x22))
  }

  function Speed(si: U32): (r: real)
    ensures 0.015 <= r <= 0.045
  {
    0.015 + 0.030 * Rand01(XorW(si, 0x33))
  }

  function Phase(si: U32): (r: real)
    ensures 0.0 <= r <= TAU
  {
    Part(Rand01(XorW(si, 0x44)), TAU)
  }

  function Warp(seed: U32): (r: real)
    ensures 0.008 <= r <= 0.020
  {
    0.008 + 0.012 * Rand01(XorW(seed, 0x55))
  }

  /** The wave vector of oscillator `i`: `(cos ang, sin ang) * mag`. */
  function Kx(m: Math, seed: U32, i: nat): real
    requires i < 4
  {
    m.cos(Angle(OscSeed(seed, i))) * Mag(OscSeed(seed, i))
  }

  function Ky(m: Math, seed: U32, i: nat): real
    requires i < 4
  {
    m.sin(Angle(OscSeed(seed, i))) * Mag(OscSeed(seed, i))
  }

  /** The parameters `make_params(seed)` returns: a function of the seed alone. */
  function Params(m: Math, seed: U32): (p: FlowParams)
    ensures |p.kx| == |p.ky| == |p.w| == |p.ph| == 4
    ensures forall i :: 0 <= i < 4 ==> p.kx[i] == Kx(m, seed, i) && p.ky[i] == Ky(m, seed, i)
    ensures forall i :: 0 <= i < 4 ==> p.w[i] == Speed(OscSeed(seed, i)) && p.ph[i] == Phase(OscSeed(seed, i))
    ensures p.warp == Warp(seed)
  {
    FlowParams(
      seq(4, i requires 0 <= i < 4 => Kx(m, seed, i)),
      seq(4, i requires 0 <= i < 4 => Ky(m, seed, i)),
      seq(4, i requires 0 <= i < 4 => Speed(OscSeed(seed, i))),
      seq(4, i requires 0 <= i < 4 => Phase(OscSeed(seed, i))),
      Warp(seed))
  }

  /** Well-formed parameters: four oscillators, each value in the range `make_params` draws from. */
  ghost predicate InRange(m: Math, p: FlowParams) {
    && |p.kx| == |p.ky| == |p.w| == |p.ph| == 4
    && (forall i :: 0 <= i < 4 ==>
      && 0.22 * 0.22 <= Sq(p.kx[i]) + Sq(p.ky[i]) <= 0.48 * 0.48
      && 0.015 <= p.w[i] <= 0.045
      && 0.0 <= p.ph[i] <= TAU)
    && 0.008 <= p.warp <= 0.020
  }

  /** `|(cos a, sin a) * g|^2 == g^2` */
  lemma PolarLength(m: Math, a: real, g: real)
    requires Lawful(m)
    ensures Sq(m.cos(a) * g) + Sq(m.sin(a) * g) == Sq(g)
  {
    hide Lawful;
    var c, s := m.cos(a), m.sin(a);
    Pythagoras(m, a);
    SqMul(c, g);
    SqMul(s, g);
    assert Sq(c) * Sq(g) + Sq(s) * Sq(g) == (Sq(c) + Sq(s)) * Sq(g);
  }

  /**
   * Each wave vector has length `Mag` in `[0.22, 0.48]`; speeds, phases and
   * the warp lie in their ranges (the phase range is closed: `rand01` can
   * return 1).
   */
  lemma ParamsInRange(m: Math, seed: U32)
    requires Lawful(m)
    ensures InRange(m, Params(m, seed))
    ensures forall i :: 0 <= i < 4 ==>
      Sq(Params(m, seed).kx[i]) + Sq(Params(m, seed).ky[i]) == Sq(Mag(OscSeed(seed, i)))
  {
    hide Lawful, Params, Rand01, XorW, OscSeed, Angle, Mag, Speed, Phase, Warp;
    var p := Params(m, seed);
    forall i | 0 <= i < 4
      ensures Sq(p.kx[i]) + Sq(p.ky[i]) == Sq(Mag(OscSeed(seed, i)))
      ensures 0.22 * 0.22 <= Sq(p.kx[i]) + Sq(p.ky[i]) <= 0.48 * 0.48
    {
      var g := Mag(OscSeed(seed, i));
      PolarLength(m, Angle(OscSeed(seed, i)), g);
      SqMono(0.22, g);
      SqMono(g, 0.48);
    }
  }

  /** Squaring is monotone on the non-negative reals. */
  lemma SqMono(a: real, b: real)
    requires 0.0 <= a <= b
    ensures Sq(a) <= Sq(b)
  {
    if a < b {
      SqStrict(a, b);
    }
  }

  /**
   * `make_params`: fill the four oscillators in a loop, then draw the warp.
   * The source's `[f32; 4]` locals are values, so they are sequences here.
   */
  method MakeParams(m: Math, seed: U32) returns (p: FlowParams)
    ensures p == Params(m, seed)
  {
    hide Params, Rand01, XorW, OscSeed, Angle, Mag, Speed, Phase, Warp;
    var kx, ky, w, ph := [0.0, 0.0, 0.0, 0.0], [0.0, 0.0, 0.0, 0.0], [0.0, 0.0, 0.0, 0.0], [0.0, 0.0, 0.0, 0.0];
    for i := 0 to 4
      invariant |kx| == |ky| == |w| == |ph| == 4
      invariant forall k :: 0 <= k < i ==> kx[k] == Kx(m, seed, k) && ky[k] == Ky(m, seed, k)
      invariant forall k :: 0 <= k < i ==> w[k] == Speed(OscSeed(seed, k)) && ph[k] == Phase(OscSeed(seed, k))
    {
      var si := OscSeed(seed, i);
      var ang := Angle(si);
      var mag := Mag(si);
      kx := kx[i := m.cos(ang) * mag];
      ky := ky[i := m.sin(ang) * mag];
      w := w[i := Speed(si)];
      ph := ph[i := Phase(si)];
    }
    p := FlowParams(kx, ky, w, ph, Warp(seed));
  }
}
