/** Explicit stand-ins for the randomness the engine takes from libraries.
    Every property of the model holds for every choice of these draws. */
module Randomness {
  import opened Tables

  /** A common-random-numbers stream: one uniform draw in [0, 1) for every
      (additional key, row label) pair, independent of call order. `seed` is
      what the noise functions hand to numpy to seed a generator. */
  datatype Stream = Stream(seed: int, draw: (string, Label) -> real) {
    ghost predicate Valid()
    {
      forall k, l :: 0.0 <= draw(k, l) < 1.0
    }
  }

  /** A numpy Generator consumed call by call: call number k of `random` or
      `uniform` returns uniform(k), and call number k of `choice` over m
      options returns the option at position pick(k, m). */
  datatype Rng = Rng(uniform: nat -> real, pick: (nat, nat) -> nat) {
    ghost predicate Valid()
    {
      && (forall k :: 0.0 <= uniform(k) < 1.0)
      && (forall k, m :: 0 < m ==> pick(k, m) < m)
    }
  }
}
