/**
 * 64-bit word helpers shared by the encoders and the lifecycle: single-bit
 * masks written the way the C source writes them, and low-bit extraction.
 */
module Bits {

  const U64: int := 0x1_0000_0000_0000_0000

  /** `1ULL << k`. A shift count outside 0..63 is undefined in C; the model yields 0. */
  function Bit(k: int): bv64
  {
    if 0 <= k < 64 then Shift(k) else 0
  }

  function Shift(k: nat): bv64
    requires k < 64
  {
    (1 as bv64) << (k as bv8)
  }

  /** `1ULL << b` for an 8-bit shift count `b`; a count of 64 or more yields 0. */
  function ByteBit(b: bv8): bv64
  {
    if b < 64 then (1 as bv64) << b else 0
  }

  /**
   * `1ULL << (j + 4*i)`: bit `j` of the `i`-th four-bit group, the layout of
   * the fixed-counter control register. The position is computed in 8-bit
   * arithmetic; a group outside the word yields 0.
   */
  function NibbleBit(i: nat, j: nat): bv64
  {
    if i < 16 && j < 4 then (1 as bv64) << (4 * (i as bv8) + j as bv8) else 0
  }

  /** Bit `j` of group `i` of `v` is set. */
  predicate NibbleSet(v: bv64, i: nat, j: nat)
  {
    v & NibbleBit(i, j) != 0
  }

  /**
   * `1 << k` evaluated on a 32-bit signed `int` and then widened to 64 bits,
   * as the uncore status masks are: bit 31 is the sign bit and sign-extends.
   */
  function IntBit(k: int): bv64
  {
    if 0 <= k < 31 then Bit(k) else if k == 31 then 0xFFFF_FFFF_8000_0000 else 0
  }

  /**
   * A value computed in 32-bit signed `int` arithmetic and ORed into a 64-bit
   * unsigned word: only its low 32 bits exist, and bit 31, the sign bit,
   * sign-extends into bits 32..63.
   */
  function IntWiden(v: bv64): bv64
  {
    var low := v & 0xFFFF_FFFF;
    if low & 0x8000_0000 != 0 then low | 0xFFFF_FFFF_0000_0000 else low
  }

  /** The low `w` bits of `v`: `field64(v, 0, w)` and `extractBitField(v, w, 0)`. */
  function LowBits(v: bv64, w: nat): bv64
  {
    if w >= 64 then v else v & (Bit(w) - 1)
  }

  /** `a < b` on unsigned 64-bit values. */
  predicate Below(a: bv64, b: bv64)
  {
    a < b
  }

  /** `x & m` is not zero. */
  predicate Meets(x: bv64, m: bv64)
  {
    x & m != 0
  }

  predicate IsSet(v: bv64, k: int)
  {
    v & Bit(k) != 0
  }

  lemma LowBitsOfZero(w: nat)
    ensures LowBits(0, w) == 0
  {
  }

  /** `x` has every bit of `m` set. */
  predicate Carries(x: bv64, m: bv64)
  {
    x & m == m
  }

  /** `x` has no bit of `m` set. */
  predicate Avoids(x: bv64, m: bv64)
  {
    x & m == 0
  }

  lemma OrKeepLeft(a: bv64, b: bv64, m: bv64)
    requires Carries(a, m)
    ensures Carries(a | b, m)
  {
  }

  lemma OrKeepRight(a: bv64, b: bv64, m: bv64)
    requires Carries(b, m)
    ensures Carries(a | b, m)
  {
  }

  lemma MiddleCarries(a: bv64, b: bv64, c: bv64, m: bv64)
    requires Carries(b, m)
    ensures Carries(a | b | c, m)
  {
  }

  lemma OrNone(a: bv64, b: bv64, m: bv64)
    requires Avoids(a, m) && Avoids(b, m)
    ensures Avoids(a | b, m)
  {
  }

  /** A mask with a bit set cannot be both carried and avoided. */
  lemma AvoidsNotCarries(x: bv64, m: bv64)
    requires m != 0 && Avoids(x, m)
    ensures !Carries(x, m)
  {
  }

  /** Carrying a mask means carrying every part of it. */
  lemma CarriesPart(x: bv64, big: bv64, m: bv64)
    requires Carries(x, big) && m & big == m
    ensures Carries(x, m)
  {
  }

  /** OR-ing in a word that avoids `m` does not change the bits of `m`. */
  lemma OrAvoided(a: bv64, b: bv64, m: bv64)
    requires Avoids(b, m)
    ensures (a | b) & m == a & m
  {
  }

  /** Avoiding a mask means avoiding every part of it. */
  lemma AvoidsPart(x: bv64, big: bv64, m: bv64)
    requires Avoids(x, big) && m & big == m
    ensures Avoids(x, m)
  {
  }
}
