/** How the normal distribution `Gaussian` of src/apd.rs uses the generator.
    `Gaussian::sample` turns two uniform draws into one normal value by the
    Box–Muller transform; the transform (`ln`, `sqrt`, `cos` on `f32`) is not
    modelled, only the two draws it is fed. */
module Gaussian {
  import Rng

  /** `Gaussian { mean, stddev }`, built by `Gaussian::new` as given. */
  datatype Gaussian = Gaussian(mean: real, stddev: real)

  /** The draws of `Gaussian::sample`: `u1` then `u2`, two consecutive values
      of the generator; the position moves on by two, wrapping past
      `u32::MAX` as in a release build. */
  method Sample(g: Gaussian, rng: Rng.Generator) returns (u1: real, u2: real)
    requires rng.Valid()
    modifies rng
    ensures rng.Valid()
    ensures rng.pos == old(rng.pos) + 2
    ensures u1 == Rng.Draw(rng.seed, old(rng.pos))
    ensures u2 == Rng.Draw(rng.seed, old(rng.pos) + 1)
    ensures rng.drawn == old(rng.drawn) + [u1, u2]
  {
    u1 := rng.Sample();
    u2 := rng.Sample();
  }
}
