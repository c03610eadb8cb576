/**
 * The background's deterministic randomness (src/app/anim/time_rng.rs): a
 * 32-bit integer hash and the unit-interval value drawn from it.
 *
 * A `u32` is a natural number below 2^32; `^`, `>>` and `wrapping_mul` are
 * defined on such numbers bit by bit, so that the facts the hash relies on
 * (xor cancels itself, shifts distribute over xor, odd multipliers have
 * inverses mod 2^32) are proved rather than left to a bit-vector solver.
 * The process clock `time_now` is left out; time is a parameter wherever
 * it is read.
 */
module TimeRng {

  /** 2^32 */
  const WORD: nat := 0x1_0000_0000

  type U32 = x: nat | x < WORD

  /** `u32::MAX` */
  const U32_MAX: U32 := 0xFFFF_FFFF

  function Pow2(n: nat): (p: nat)
    ensures p >= 1
  {
    if n == 0 then 1 else 2 * Pow2(n - 1)
  }

  /** Bitwise exclusive or. */
  function Xor(a: nat, b: nat): nat
    decreases a + b
  {
    if a == 0 then b
    else if b == 0 then a
    else 2 * Xor(a / 2, b / 2) + (if a % 2 == b % 2 then 0 else 1)
  }

  /** Logical shift right by `k` bits. */
  function Shr(a: nat, k: nat): (r: nat)
    ensures r <= a
  {
    if k == 0 then a else Shr(a / 2, k - 1)
  }

  /** `wrapping_mul` on `u32`: the product reduced mod 2^32. */
  function MulW(a: U32, c: U32): U32 {
    (a * c) % WORD
  }

  // ---------------------------------------------------------------------
  // Facts about xor and shifts

  /** The lowest bit of `a ^ b` and the bits above it. */
  lemma XorHalf(a: nat, b: nat)
    ensures Xor(a, b) % 2 == (if a % 2 == b % 2 then 0 else 1)
    ensures Xor(a, b) / 2 == Xor(a / 2, b / 2)
  {
    if a != 0 && b != 0 {
      var bit := if a % 2 == b % 2 then 0 else 1;
      var h := Xor(a / 2, b / 2);
      assert Xor(a, b) == 2 * h + bit;
    }
  }

  /** Two numbers with the same lowest bit and the same bits above it are equal. */
  lemma HalvesEqual(x: nat, y: nat)
    requires x % 2 == y % 2 && x / 2 == y / 2
    ensures x == y
  {
  }

  lemma {:induction false} XorSelf(a: nat)
    ensures Xor(a, a) == 0
  {
    if a != 0 {
      XorSelf(a / 2);
    }
  }

  lemma XorZero(a: nat)
    ensures Xor(a, 0) == a && Xor(0, a) == a
  {
  }

  lemma {:induction false} XorComm(a: nat, b: nat)
    ensures Xor(a, b) == Xor(b, a)
    decreases a + b
  {
    if a != 0 && b != 0 {
      XorComm(a / 2, b / 2);
    }
  }

  lemma {:induction false} XorAssoc(a: nat, b: nat, c: nat)
    ensures Xor(Xor(a, b), c) == Xor(a, Xor(b, c))
    decreases a + b + c
  {
    var l := Xor(Xor(a, b), c);
    var r := Xor(a, Xor(b, c));
    if a == 0 || b == 0 || c == 0 {
      XorZero(a);
      XorZero(b);
      XorZero(c);
    } else {
      XorHalf(a, b);
      XorHalf(Xor(a, b), c);
      XorHalf(b, c);
      XorHalf(a, Xor(b, c));
      XorAssoc(a / 2, b / 2, c / 2);
      HalvesEqual(l, r);
    }
  }

  /** `(a ^ b) >> k == (a >> k) ^ (b >> k)` */
  lemma {:induction false} ShrXor(a: nat, b: nat, k: nat)
    ensures Shr(Xor(a, b), k) == Xor(Shr(a, k), Shr(b, k))
  {
    if k > 0 {
      XorHalf(a, b);
      ShrXor(a / 2, b / 2, k - 1);
    }
  }

  /** `(a >> j) >> k == a >> (j + k)` */
  lemma {:induction false} ShrShr(a: nat, j: nat, k: nat)
    ensures Shr(Shr(a, j), k) == Shr(a, j + k)
  {
    if j > 0 {
      ShrShr(a / 2, j - 1, k);
    }
  }

  /** Shifting out every bit leaves zero. */
  lemma {:induction false} ShrPast(a: nat, k: nat)
    requires a < Pow2(k)
    ensures Shr(a, k) == 0
  {
    if k > 0 {
      ShrPast(a / 2, k - 1);
    }
  }

  /** Xor of two `k`-bit numbers has `k` bits. */
  lemma {:induction false} XorBound(a: nat, b: nat, k: nat)
    requires a < Pow2(k) && b < Pow2(k)
    ensures Xor(a, b) < Pow2(k)
  {
    if k > 0 && a != 0 && b != 0 {
      XorBound(a / 2, b / 2, k - 1);
    }
  }

  lemma Pow2Word()
    ensures Pow2(32) == WORD
  {
    assert Pow2(4) == 16;
    assert Pow2(8) == 256;
    assert Pow2(12) == 4096;
    assert Pow2(16) == 65536;
    assert Pow2(20) == 1048576;
    assert Pow2(24) == 16777216;
    assert Pow2(28) == 268435456;
  }

  /** `x >> k` for a word shifted by at least 32 bits is zero. */
  lemma ShrWordPast(x: U32, k: nat)
    requires k >= 32
    ensures Shr(x, k) == 0
  {
    Pow2Word();
    ShrPast(x, 32);
    ShrShr(x, 32, k - 32);
    ShrZero(k - 32);
  }

  lemma {:induction false} ShrZero(k: nat)
    ensures Shr(0, k) == 0
  {
    if k > 0 {
      ShrZero(k - 1);
    }
  }

  /** `x ^ (x >> k)`, one xor-shift step of the hash. */
  function XorShift(x: U32, k: nat): U32 {
    Pow2Word();
    XorBound(x, Shr(x, k), 32);
    Xor(x, Shr(x, k))
  }

  // ---------------------------------------------------------------------
  // The hash

  /** `hash1`: two xor-shift / odd-multiply rounds, then a final xor-shift. */
  function Hash1(x: U32): U32 {
    var x1 := XorShift(x, 16);
    var x2 := MulW(x1, 0x7feb_352d);
    var x3 := XorShift(x2, 15);
    var x4 := MulW(x3, 0x846c_a68b);
    XorShift(x4, 16)
  }

  /** Undoes `x ^ (x >> 15)`: `y ^ (y >> 15) ^ (y >> 30)`. */
  function UnXorShift15(y: U32): U32 {
    Pow2Word();
    XorBound(y, Shr(y, 30), 32);
    XorShift(Xor(y, Shr(y, 30)), 15)
  }

  /**
   * The inverse of `hash1`, step by step: `x ^ (x >> 16)` is its own
   * inverse, and the two multipliers have inverses mod 2^32.
   */
  function Unhash1(h: U32): U32 {
    var x4 := XorShift(h, 16);
    var x3 := MulW(x4, 0x4302_1123);
    var x2 := UnXorShift15(x3);
    var x1 := MulW(x2, 0x1d69_e2a5);
    XorShift(x1, 16)
  }

  /** `(x ^ a) ^ a == x` */
  lemma XorCancel(x: nat, a: nat)
    ensures Xor(Xor(x, a), a) == x
  {
    XorAssoc(x, a, a);
    XorSelf(a);
    XorZero(x);
  }

  /** `((x ^ a) ^ b) ^ (a ^ b) == x` */
  lemma XorCancel2(x: nat, a: nat, b: nat)
    ensures Xor(Xor(Xor(x, a), b), Xor(a, b)) == x
  {
    XorAssoc(x, a, b);
    XorCancel(x, Xor(a, b));
  }

  /** `x ^ (x >> 16)` applied twice is the identity on words. */
  lemma XorShift16Twice(x: U32)
    ensures XorShift(XorShift(x, 16), 16) == x
  {
    var s := Shr(x, 16);
    ShrXor(x, s, 16);
    ShrShr(x, 16, 16);
    ShrWordPast(x, 32);
    XorZero(s);
    XorCancel(x, s);
  }

  /** `UnXorShift15` undoes `x ^ (x >> 15)` ... */
  lemma UnXorShift15Left(x: U32)
    ensures UnXorShift15(XorShift(x, 15)) == x
  {
    var s15, s30, s45 := Shr(x, 15), Shr(x, 30), Shr(x, 45);
    ShrShr(x, 15, 15);
    ShrShr(x, 15, 30);
    ShrShr(x, 30, 15);
    ShrWordPast(x, 45);
    var y := Xor(x, s15);
    ShrXor(x, s15, 30);
    XorZero(s30);
    assert Shr(y, 30) == s30;
    var z := Xor(y, s30);
    ShrXor(x, s15, 15);
    ShrXor(y, s30, 15);
    assert Shr(z, 15) == Xor(s15, s30);
    XorCancel2(x, s15, s30);
  }

  /** ... and `x ^ (x >> 15)` undoes `UnXorShift15`. */
  lemma UnXorShift15Right(y: U32)
    ensures XorShift(UnXorShift15(y), 15) == y
  {
    var y15, y30, y45 := Shr(y, 15), Shr(y, 30), Shr(y, 45);
    ShrShr(y, 15, 15);
    ShrShr(y, 30, 15);
    ShrWordPast(y, 45);
    var z := Xor(y, y30);
    ShrXor(y, y30, 15);
    XorZero(y15);
    assert Shr(z, 15) == y15;
    var x := Xor(z, y15);
    ShrXor(z, y15, 15);
    assert Shr(x, 15) == Xor(y15, y30);
    XorComm(y30, y15);
    XorCancel2(y, y30, y15);
  }

  /** Multiplying by `c` and then by `d` mod 2^32 is the identity when `c * d == 1` mod 2^32. */
  lemma MulInverse(a: U32, c: U32, d: U32, k: nat)
    requires c * d == 1 + k * WORD
    ensures MulW(MulW(a, c), d) == a
  {
    var p := a * c;
    var q := p / WORD;
    var r := p % WORD;
    assert p == q * WORD + r;
    assert r * d == p * d - q * d * WORD;
    assert p * d == a * (c * d) == a + a * k * WORD;
    var m := a * k - q * d;
    assert r * d == a + m * WORD;
    ModOfMultiple(r * d, a, m);
  }

  /** `x % 2^32 == a` whenever `x == a + m * 2^32` and `0 <= a < 2^32`. */
  lemma ModOfMultiple(x: int, a: int, m: int)
    requires x == a + m * WORD && 0 <= a < WORD
    ensures x % WORD == a
  {
  }

  /** Every step of `hash1` is undone: the hash loses no information. */
  lemma UnhashHash(x: U32)
    ensures Unhash1(Hash1(x)) == x
  {
    var x1 := XorShift(x, 16);
    var x2 := MulW(x1, 0x7feb_352d);
    var x3 := XorShift(x2, 15);
    var x4 := MulW(x3, 0x846c_a68b);
    XorShift16Twice(x4);
    MulInverse(x3, 0x846c_a68b, 0x4302_1123, 581534029);
    UnXorShift15Left(x2);
    MulInverse(x1, 0x7feb_352d, 0x1d69_e2a5, 246582719);
    XorShift16Twice(x);
  }

  /** And the other way round: every word is the hash of some seed. */
  lemma HashUnhash(h: U32)
    ensures Hash1(Unhash1(h)) == h
  {
    var x4 := XorShift(h, 16);
    var x3 := MulW(x4, 0x4302_1123);
    var x2 := UnXorShift15(x3);
    var x1 := MulW(x2, 0x1d69_e2a5);
    XorShift16Twice(x1);
    MulInverse(x2, 0x1d69_e2a5, 0x7feb_352d, 246582719);
    UnXorShift15Right(x3);
    MulInverse(x4, 0x4302_1123, 0x846c_a68b, 581534029);
    XorShift16Twice(h);
  }

  /** Distinct seeds give distinct hashes. */
  lemma Hash1Injective(a: U32, b: U32)
    ensures Hash1(a) == Hash1(b) <==> a == b
  {
    if Hash1(a) == Hash1(b) {
      UnhashHash(a);
      UnhashHash(b);
    }
  }

  /** Seed 0 hashes to 0: every step maps 0 to 0. */
  lemma Hash1Zero()
    ensures Hash1(0) == 0
  {
    ShrZero(16);
    ShrZero(15);
    XorZero(0);
    assert XorShift(0, 16) == 0 && XorShift(0, 15) == 0;
    assert MulW(0, 0x7feb_352d) == 0 && MulW(0, 0x846c_a68b) == 0;
  }

  /** `rand01`: the hash scaled by `u32::MAX` into the unit interval. */
  function Rand01(seed: U32): (r: real)
    ensures 0.0 <= r <= 1.0
  {
    Hash1(seed) as real / U32_MAX as real
  }

  /** Both ends of the unit interval are drawn: 0 from seed 0, 1 from the preimage of `u32::MAX`. */
  lemma Rand01Endpoints()
    ensures Rand01(0) == 0.0
    ensures Rand01(Unhash1(U32_MAX)) == 1.0
  {
    hide Hash1, Unhash1;
    Hash1Zero();
    HashUnhash(U32_MAX);
    Rand01Of(0, 0);
    Rand01Of(Unhash1(U32_MAX), U32_MAX);
  }

  lemma Rand01Of(seed: U32, h: U32)
    requires Hash1(seed) == h
    ensures Rand01(seed) == h as real / U32_MAX as real
  {
  }
}
