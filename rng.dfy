/** The counter-based hash generator `RNG` of src/apd.rs.
    A generator is a fixed 32-bit seed and a 32-bit position that starts at 1.
    Each draw hashes (seed, position) with wrapping 32-bit arithmetic, advances
    the position and scales the hash into [0, 1]. The hash is computed on
    `bv32`, where `*`, `+`, `-`, `^`, `<<` and `>>` wrap exactly as Rust's
    `wrapping_*` operations and shifts do. The final `f32` division is
    idealised as a division over `real`. */
module Rng {

  // The steps of the hash, one function per statement of `RNG::sample`.
  // The constants are written out in place so that the solver can fold them.

  /** `mangled.wrapping_mul(NOISE1)`, NOISE1 = 0x68E31DA4 */
  function MulNoise1(x: bv32): bv32 { x * 0x68E3_1DA4 }

  /** `mangled.wrapping_add(self.seed)` */
  function AddSeed(x: bv32, seed: bv32): bv32 { x + seed }

  /** `mangled ^= mangled >> 8` */
  function XorShiftRight8(x: bv32): bv32 { x ^ (x >> 8) }

  /** `mangled.wrapping_add(NOISE2)`, NOISE2 = 0xB5297A4D */
  function AddNoise2(x: bv32): bv32 { x + 0xB529_7A4D }

  /** `mangled ^= mangled << 8` */
  function XorShiftLeft8(x: bv32): bv32 { x ^ (x << 8) }

  /** `mangled.wrapping_mul(NOISE3)`, NOISE3 = 0x1B56C4E9 */
  function MulNoise3(x: bv32): bv32 { x * 0x1B56_C4E9 }

  /** The steps that follow the addition of the seed. */
  function Scramble(m: bv32): bv32 {
    XorShiftRight8(MulNoise3(XorShiftLeft8(AddNoise2(XorShiftRight8(m)))))
  }

  /** The value `mangled` that `RNG::sample` computes from the 32 bits of
      the seed and of the position. */
  function Mangle(seed: bv32, pos: bv32): bv32 {
    Scramble(AddSeed(MulNoise1(pos), seed))
  }

  /** `(mangled as f32) / (u32::MAX as f32)`, over reals: the draw lies in the
      closed interval [0, 1]; it is 1 exactly for the largest hash and 0
      exactly for the hash 0. */
  function ToUnit(m: bv32): (r: real)
    ensures 0.0 <= r <= 1.0
    ensures r == 1.0 <==> m == 0xFFFF_FFFF
    ensures r == 0.0 <==> m == 0
  {
    (m as int) as real / 4294967295.0
  }

  /** The value returned by the draw made at position `pos`. */
  function Draw(seed: bv32, pos: bv32): (r: real)
    ensures 0.0 <= r <= 1.0
  {
    ToUnit(Mangle(seed, pos))
  }

  /** The position reached after `n` draws made from position `from`. */
  function Advance(from: bv32, n: nat): bv32
    decreases n
  {
    if n == 0 then from else Advance(from, n - 1) + 1
  }

  /** The `n` values drawn one after the other from position `from` on. */
  function Stream(seed: bv32, from: bv32, n: nat): (s: seq<real>)
    ensures |s| == n
    decreases n
  {
    if n == 0 then [] else Stream(seed, from, n - 1) + [Draw(seed, Advance(from, n - 1))]
  }

  /** The `i`-th value of a stream is the draw at the position reached
      after `i` draws. */
  lemma {:induction false} StreamAt(seed: bv32, from: bv32, n: nat, i: nat)
    requires i < n
    ensures Stream(seed, from, n)[i] == Draw(seed, Advance(from, i))
    decreases n
  {
    if i < n - 1 {
      StreamAt(seed, from, n - 1, i);
    }
  }

  // Inverses of the steps. Every step after the multiplication by NOISE1 is
  // a bijection on 32-bit words; the multiplication by NOISE1 is not, since
  // NOISE1 = 4 * 0x1A38C769 is even and loses the top two bits.

  function UnXorShiftRight8(y: bv32): bv32 { y ^ (y >> 8) ^ (y >> 16) ^ (y >> 24) }

  function UnXorShiftLeft8(y: bv32): bv32 { y ^ (y << 8) ^ (y << 16) ^ (y << 24) }

  function SubNoise2(x: bv32): bv32 { x - 0xB529_7A4D }

  /** Multiplication by the inverse of NOISE3 modulo 2^32. */
  function UnMulNoise3(x: bv32): bv32 { x * 0xAE4E_5359 }

  function SubSeed(x: bv32, seed: bv32): bv32 { x - seed }

  /** Multiplication by the odd part of NOISE1. */
  function MulOddNoise1(x: bv32): bv32 { x * 0x1A38_C769 }

  /** Multiplication by the inverse of the odd part of NOISE1 modulo 2^32. */
  function UnMulOddNoise1(x: bv32): bv32 { x * 0x8040_38D9 }

  function Unscramble(y: bv32): bv32 {
    UnXorShiftRight8(SubNoise2(UnXorShiftLeft8(UnMulNoise3(UnXorShiftRight8(y)))))
  }

  lemma XorShiftRight8Inverse(x: bv32)
    ensures UnXorShiftRight8(XorShiftRight8(x)) == x
  {
    assert XorShiftRight8(x) == x ^ (x >> 8);
    assert UnXorShiftRight8(x ^ (x >> 8))
        == (x ^ (x >> 8)) ^ ((x ^ (x >> 8)) >> 8) ^ ((x ^ (x >> 8)) >> 16) ^ ((x ^ (x >> 8)) >> 24);
    assert (x ^ (x >> 8)) ^ ((x ^ (x >> 8)) >> 8) ^ ((x ^ (x >> 8)) >> 16) ^ ((x ^ (x >> 8)) >> 24) == x;
  }

  lemma XorShiftLeft8Inverse(x: bv32)
    ensures UnXorShiftLeft8(XorShiftLeft8(x)) == x
  {
    assert XorShiftLeft8(x) == x ^ (x << 8);
    assert UnXorShiftLeft8(x ^ (x << 8))
        == (x ^ (x << 8)) ^ ((x ^ (x << 8)) << 8) ^ ((x ^ (x << 8)) << 16) ^ ((x ^ (x << 8)) << 24);
    assert (x ^ (x << 8)) ^ ((x ^ (x << 8)) << 8) ^ ((x ^ (x << 8)) << 16) ^ ((x ^ (x << 8)) << 24) == x;
  }

  lemma MulNoise3Inverse(x: bv32)
    ensures UnMulNoise3(MulNoise3(x)) == x
  {
    assert MulNoise3(x) == x * 0x1B56_C4E9;
    assert UnMulNoise3(x * 0x1B56_C4E9) == x * 0x1B56_C4E9 * 0xAE4E_5359;
    assert x * 0x1B56_C4E9 * 0xAE4E_5359 == x;
  }

  lemma AddNoise2Inverse(x: bv32)
    ensures SubNoise2(AddNoise2(x)) == x
  {
  }

  lemma AddSeedInverse(x: bv32, seed: bv32)
    ensures SubSeed(AddSeed(x, seed), seed) == x
  {
    assert AddSeed(x, seed) == x + seed;
    assert SubSeed(x + seed, seed) == x + seed - seed;
  }

  lemma MulOddNoise1Inverse(x: bv32)
    ensures UnMulOddNoise1(MulOddNoise1(x)) == x
  {
    assert MulOddNoise1(x) == x * 0x1A38_C769;
    assert UnMulOddNoise1(x * 0x1A38_C769) == x * 0x1A38_C769 * 0x8040_38D9;
    assert x * 0x1A38_C769 * 0x8040_38D9 == x;
  }

  /** Scramble loses nothing: Unscramble undoes it. */
  lemma ScrambleInverse(m: bv32)
    ensures Unscramble(Scramble(m)) == m
  {
    var a := AddNoise2(XorShiftRight8(m));
    XorShiftRight8Inverse(MulNoise3(XorShiftLeft8(a)));
    MulNoise3Inverse(XorShiftLeft8(a));
    XorShiftLeft8Inverse(a);
    AddNoise2Inverse(XorShiftRight8(m));
    XorShiftRight8Inverse(m);
  }

  /** Multiplying by NOISE1 is multiplying by 4, then by an odd number. */
  lemma MulNoise1Split(x: bv32)
    ensures MulNoise1(x) == MulOddNoise1(x * 4)
  {
  }

  lemma Times4LowBits(p: bv32, q: bv32)
    ensures p * 4 == q * 4 <==> p % 0x4000_0000 == q % 0x4000_0000
  {}

  /** The multiplication by NOISE1 identifies exactly the words that agree in
      their low 30 bits. */
  lemma MulNoise1Collision(p: bv32, q: bv32)
    ensures MulNoise1(p) == MulNoise1(q) <==> p % 0x4000_0000 == q % 0x4000_0000
  {
    MulNoise1Split(p);
    MulNoise1Split(q);
    MulOddNoise1Inverse(p * 4);
    MulOddNoise1Inverse(q * 4);
    Times4LowBits(p, q);
  }

  /** Two positions give the same hash exactly when they agree in their low
      30 bits: within any 2^30 consecutive positions the hashes are pairwise
      distinct, and the hash repeats with period 2^30. */
  lemma HashCollision(seed: bv32, p: bv32, q: bv32)
    ensures Mangle(seed, p) == Mangle(seed, q) <==> p % 0x4000_0000 == q % 0x4000_0000
  {
    MulNoise1Collision(p, q);
    if Mangle(seed, p) == Mangle(seed, q) {
      ScrambleInverse(AddSeed(MulNoise1(p), seed));
      ScrambleInverse(AddSeed(MulNoise1(q), seed));
      AddSeedInverse(MulNoise1(p), seed);
      AddSeedInverse(MulNoise1(q), seed);
    }
  }

  /** The draws at positions 1 and 2^30 + 1 are equal for every seed. */
  lemma DrawsRepeat(seed: bv32)
    ensures Draw(seed, 1) == Draw(seed, 0x4000_0001)
  {
  }

  /** The closed upper end of the range is reached: the first draw of the
      generator created with seed 0xF03CEF1B is exactly 1. */
  lemma DrawReachesOne()
    ensures Draw(0xF03C_EF1B, 1) == 1.0
  {
  }

  /** The closed lower end of the range is reached too: the first draw of
      the generator created with seed 0xE1B8FC06 is exactly 0. */
  lemma DrawReachesZero()
    ensures Draw(0xE1B8_FC06, 1) == 0.0
  {
  }

  /** The statements of `RNG::sample` that compute `mangled` from the seed
      and the position, one reassignment per step. */
  method Hash(seed: bv32, pos: bv32) returns (mangled: bv32)
    ensures mangled == Mangle(seed, pos)
  {
    mangled := pos;
    mangled := MulNoise1(mangled);
    mangled := AddSeed(mangled, seed);
    mangled := XorShiftRight8(mangled);
    mangled := AddNoise2(mangled);
    mangled := XorShiftLeft8(mangled);
    mangled := MulNoise3(mangled);
    mangled := XorShiftRight8(mangled);
  }

  /** The value drawn at `pos`: the hash, scaled into [0, 1]. */
  method DrawAt(seed: bv32, pos: bv32) returns (x: real)
    ensures x == Draw(seed, pos)
  {
    var mangled := Hash(seed, pos);
    x := ToUnit(mangled);
  }

  /** The generator `RNG`. `seed` never changes after construction; `pos`
      is the position of the next draw. The ghost field `drawn` records every
      value returned so far. */
  class Generator {
    const seed: bv32
    var pos: bv32
    ghost var drawn: seq<real>

    /** What has been returned is exactly the stream of the seed from
        position 1, and `pos` is the position reached after that many draws:
        the output depends on nothing but the seed and the number of draws. */
    ghost predicate Valid()
      reads this
    {
      pos == Advance(1, |drawn|) && drawn == Stream(seed, 1, |drawn|)
    }

    /** `RNG::new` */
    constructor (seed: bv32)
      ensures Valid()
      ensures this.seed == seed && pos == 1 && drawn == []
    {
      this.seed := seed;
      pos := 1;
      drawn := [];
    }

    /** `RNG::sample`. `self.pos += 1` is taken as in a release build, where
        it wraps from `u32::MAX` to 0 and the generator goes on drawing. */
    method Sample() returns (x: real)
      requires Valid()
      modifies this
      ensures Valid()
      ensures pos == old(pos) + 1
      ensures x == Draw(seed, old(pos))
      ensures drawn == old(drawn) + [x]
    {
      x := DrawAt(seed, pos);
      Record(x);
    }

    /** The `self.pos += 1` of `RNG::sample`: moves to the next position and
        records the value drawn at the current one. */
    method Record(x: real)
      requires Valid()
      requires x == Draw(seed, pos)
      modifies this
      ensures Valid()
      ensures pos == old(pos) + 1
      ensures drawn == old(drawn) + [x]
    {
      pos := pos + 1;
      drawn := drawn + [x];
    }
  }

  /** Two generators built with the same seed and sampled the same number of
      times have returned the same values and stand at the same position. */
  lemma SameSeedSameDraws(g1: Generator, g2: Generator)
    requires g1.Valid() && g2.Valid()
    requires g1.seed == g2.seed && |g1.drawn| == |g2.drawn|
    ensures g1.drawn == g2.drawn && g1.pos == g2.pos
  {
  }
}
