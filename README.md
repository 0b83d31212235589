# Sampling core of nes_rust (`src/apd.rs`)

This project models the random sampling that the evolution-strategy optimizer
in `src/apd.rs` is built on, and proves properties of it in Dafny.

- **`RNG`** (module `Rng`, `rng.dfy`) is a counter-based hash generator. It
  holds a fixed 32-bit `seed` and a 32-bit position `pos` that starts at 1.
  Each draw hashes `(seed, pos)` with a fixed chain of wrapping 32-bit
  operations, then increments `pos` and divides the hash by `u32::MAX`. The
  generator is a class whose `pos` field `Sample` updates in place. A ghost
  field `drawn` records every value returned so far. The invariant `Valid`
  ties that record to the seed alone: the values returned are the stream of
  draws from position 1, and `pos` is the position reached after them. The
  hash is computed on `bv32`, where `*`, `+`, `^`, `<<` and `>>` wrap as the
  source's `wrapping_*` operations and shifts do.
- **`Categorical`** (module `Categorical`, `categorical.dfy`) is a list of
  probabilities:
  - `New` normalises the list in place in an `array`;
  - `LogProbArg` is the probability whose logarithm `log_prob` takes;
  - `Sample` takes one draw of the generator and walks the list. `None`
    stands for the `unreachable!` panic when the walk runs off the end.
- **`Gaussian`** (module `Gaussian`, `gaussian.dfy`) models only how
  `Gaussian::sample` uses the generator: it takes exactly two consecutive
  draws. `Gaussian::new` is the datatype's constructor.

Probabilities and draws are `f32` in the source and `real` here. Sums and
quotients are exact, without rounding.

Two properties of the code are easy to miss. The model follows the code in
both:

- **NOISE1 is even.** A counter-based hash of this kind is expected to
  multiply by odd constants, so that each step is a bijection on 32-bit
  words. NOISE1 = 0x68E31DA4 = 4 · 0x1A38C769 is even. The first step
  therefore discards the top two bits of the position.
  - `Rng.HashCollision` proves the consequence: two positions give the same
    hash exactly when they agree in their low 30 bits. Every stream repeats
    with period 2^30.
  - The Squirrel3 noise function uses the same three constants, but it
    multiplies by 0xB5297A4D and adds 0x68E31DA4. The source has these two
    the other way round.
- **The range is closed.** A uniform draw is usually taken from [0, 1). The
  code divides by `u32::MAX`, so over reals the range is [0, 1], and both
  ends are reached:
  - seed 0xF03CEF1B gives 1 as its first draw;
  - seed 0xE1B8FC06 gives 0 as its first draw.
  A draw of 1 makes `Categorical::sample` reach `unreachable!` even when the
  probabilities total exactly 1. A draw of 0 makes `Gaussian::sample` take
  `ln(0)`.

## Model

| member | source | states |
|---|---|---|
| Rng.Generator.constructor | src/apd.rs:9 | `RNG::new` keeps the seed as given, starts at position 1 with nothing drawn, and satisfies the generator invariant |
| Rng.Generator.Sample | src/apd.rs:11-26 | one draw: returns the hash of (seed, position at call time) scaled into [0, 1]; the position moves on by exactly 1 (the seed is a constant field); the value is appended to the record; the invariant (values returned = the seed's stream) is kept. The position wraps from `u32::MAX` to 0, as `pos += 1` does in a release build |
| Rng.Generator.Record | src/apd.rs:24 | the `pos += 1` step of `sample`: position +1, the value drawn at the old position appended to the record, the invariant kept |
| Rng.Hash | src/apd.rs:12-23 | the chain of reassignments of `mangled` computes `Mangle(seed, pos)`: multiply by NOISE1, add the seed, xor-shift right 8, add NOISE2, xor-shift left 8, multiply by NOISE3, xor-shift right 8, all wrapping |
| Rng.DrawAt | src/apd.rs:16-25 | the value `sample` returns at a position is `Draw(seed, pos)`, a function of the seed and the position only |
| Rng.ToUnit | src/apd.rs:25 | `mangled / u32::MAX` lies in [0, 1]; it is 1 exactly when the hash is `u32::MAX`, and 0 exactly when the hash is 0 |
| Rng.Draw | src/apd.rs:25 | every draw lies in the closed interval [0, 1] |
| Rng.StreamAt | src/apd.rs:11-26 | the i-th value of a stream is the draw at the position reached after i draws |
| Rng.SameSeedSameDraws | src/apd.rs:9-26 | two generators with the same seed that have drawn the same number of times have returned identical values and stand at the same position |
| Rng.XorShiftRight8Inverse | src/apd.rs:19 | `m ^= m >> 8` is undone by xoring in the shifts by 8, 16 and 24 |
| Rng.XorShiftLeft8Inverse | src/apd.rs:21 | `m ^= m << 8` is undone by xoring in the left shifts by 8, 16 and 24 |
| Rng.MulNoise3Inverse | src/apd.rs:22 | multiplying by NOISE3 is undone by multiplying by its inverse 0xAE4E5359 modulo 2^32 |
| Rng.AddNoise2Inverse | src/apd.rs:20 | the wrapping addition of NOISE2 is undone by subtracting it |
| Rng.AddSeedInverse | src/apd.rs:18 | the wrapping addition of the seed is undone by subtracting it |
| Rng.MulOddNoise1Inverse | src/apd.rs:17 | multiplying by the odd part 0x1A38C769 of NOISE1 is undone by multiplying by 0x804038D9 |
| Rng.ScrambleInverse | src/apd.rs:19-23 | every step after the seed is added is a bijection on 32-bit words: the inverse chain recovers the input |
| Rng.MulNoise1Split | src/apd.rs:17 | multiplying by NOISE1 is multiplying by 4, then by the odd number 0x1A38C769 |
| Rng.MulNoise1Collision | src/apd.rs:17 | the multiplication by NOISE1 maps two words to the same result exactly when they agree in their low 30 bits |
| Rng.HashCollision | src/apd.rs:12-23 | for any seed, two positions hash alike if and only if they agree in their low 30 bits: hashes within 2^30 consecutive positions are pairwise distinct, and they repeat with period 2^30 |
| Rng.DrawsRepeat | src/apd.rs:12-25 | for every seed, the draw at position 2^30 + 1 equals the first draw |
| Rng.DrawReachesOne | src/apd.rs:25 | the first draw under seed 0xF03CEF1B is exactly 1, the closed upper end of the range |
| Rng.DrawReachesZero | src/apd.rs:25 | the first draw under seed 0xE1B8FC06 is exactly 0, the closed lower end of the range |
| Categorical.SumOf | src/apd.rs:68 | `probs.iter().sum()` computes `Sum`, the entries added from left to right starting at 0 |
| Categorical.New | src/apd.rs:67-73 | `Categorical::new` rewrites the list in place into `Normalized` of the input (same length; every entry divided by the total if the total exceeds 1, otherwise unchanged) and stores the result |
| Categorical.SumScale | src/apd.rs:70 | dividing every entry by k divides the total by k |
| Categorical.NormalizedSum | src/apd.rs:67-72 | after construction the total is exactly 1 if the input total exceeded 1; otherwise the list is unchanged; in both cases the stored total is at most 1 |
| Categorical.NormalizedIdempotent | src/apd.rs:67-72 | normalising an already normalised list changes nothing |
| Categorical.NormalizedNonNegative | src/apd.rs:69-70 | normalising keeps non-negative entries non-negative |
| Categorical.NormalizedExamples | src/apd.rs:67-72 | [0.5, 1.0, 0.5] is stored as [0.25, 0.5, 0.25]; [0.2, 0.3] is stored unchanged |
| Categorical.LogProbArg | src/apd.rs:78-85 | the argument `log_prob(x)` passes to `ln` is entry x of the normalised list (`probs[x] / sum` when the stored total exceeds 1, `probs[x]` otherwise). Requires `x < probs.len()`, because the index panics otherwise |
| Categorical.LogProbOfNew | src/apd.rs:67-85 | for a distribution built by `new`, the stored total is at most 1, so `log_prob` takes the logarithm of the stored entry itself |
| Categorical.SumPrefixAtMost | src/apd.rs:89-94 | with non-negative entries, no running total exceeds the whole total |
| Categorical.WalkFirstUnpassed | src/apd.rs:89-94 | from any index on, the walk that subtracts each entry from the noise stops at the first index whose running total exceeds the noise; it runs off the end only if there is no such index |
| Categorical.PickSpec | src/apd.rs:87-96 | `sample` returns k if and only if k < `probs.len()`, the running total up to k exceeds the noise, and no earlier running total does; it reaches `unreachable!` if and only if no running total exceeds the noise |
| Categorical.PickExhausted | src/apd.rs:87-96 | with non-negative entries and a non-negative noise, `unreachable!` is reached exactly when the noise is at least the total |
| Categorical.NewSampleTotal | src/apd.rs:67-96 | for a distribution built by `new` from non-negative entries totalling at least 1, a draw in [0, 1] yields an outcome if and only if it is below 1 |
| Categorical.FirstSampleExhausts | src/apd.rs:87-95 | with non-negative entries totalling exactly 1, the first sample from a generator seeded with 0xF03CEF1B reaches `unreachable!` |
| Categorical.Sample | src/apd.rs:87-96 | `Categorical::sample` takes exactly one draw (position +1, invariant kept) and returns `Pick` of that draw: the index found by the walk, or `None` for `unreachable!` |
| Gaussian.Sample | src/apd.rs:54-56 | `Gaussian::sample` takes exactly two draws: `u1` at the position at call time and `u2` at the next one; the position moves on by 2, wrapping past `u32::MAX` as in a release build |

## Left out

- `f32` rounding: draws, sums and quotients are exact `real` values. Under `f32`, `u32::MAX as f32` rounds to 2^32 and hashes near the top also round, so the set of values reached differs from the model's.
- The Box–Muller transform of `Gaussian::sample` (`ln`, `sqrt`, `cos`, `TAU`): floating-point transcendental functions. Only the two draws it consumes are modelled.
- `Gaussian::log_prob`: a floating-point formula (`ln`, `powf`, `HALF_LN_TAU`) with no discrete logic.
- The `ln` of `Categorical::log_prob`: only its argument is modelled (`Categorical.LogProbArg`).
- Categorical.LogProbArg: the index panic for `x >= probs.len()` is a precondition, not a modelled error.
- Rng.Generator.Sample: `pos += 1` is modelled as in a release build, where it wraps from `u32::MAX` to 0; the panic it raises at `u32::MAX` in a debug build (overflow checks on) is not modelled. The same holds for Rng.Generator.Record, Categorical.Sample and Gaussian.Sample.
- Categorical.Sample: the `unreachable!` panic is modelled as the value `None` rather than as a halt.
- The `Distribution` trait: its two implementations are the separate modules `Categorical` and `Gaussian`.
- `src/adamax.rs` (the AdaMax update) and `src/main.rs` (the evolution-strategy loop, the objective and the printing) are not part of this model: they are floating-point numerics and orchestration.
