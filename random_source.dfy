/** The generator's source of randomness, made an explicit, seedable value.
    The generator draws every number through `RandInt`, which plays the part of
    Python's `random.randint(lo, hi)`. Because `RandInt` is a method, everything
    proved about its callers rests on its range contract alone and holds for any
    random source with that contract; the linear congruential step inside is
    just one such source. */
module RandomSource {

  /** The state of the source; seeding it is choosing `seed`. */
  datatype Rng = Rng(seed: nat)

  const Modulus: nat := 0x1_0000_0000_0000
  const Multiplier: nat := 0x5_DEEC_E66D
  const Increment: nat := 11

  /** A number from `lo` to `hi`, both included, and the source's next state. */
  method RandInt(g: Rng, lo: int, hi: int) returns (r: int, g': Rng)
    requires lo <= hi
    ensures lo <= r <= hi
  {
    var next := (g.seed * Multiplier + Increment) % Modulus;
    g' := Rng(next);
    r := lo + (next / 0x1_0000) % (hi - lo + 1);
  }
}
