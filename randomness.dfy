/**
  * java.util.Random as seen by the deck and the draw strategy: an oracle. The values it hands
  * out come from an arbitrary supplied source, read in order; only the ranges Random promises
  * (nextInt(bound) in [0, bound), nextBoolean any boolean) are relied on.
  */
module Randomness {

  /** The boolean that nextBoolean reports for the oracle value at position n. */
  predicate Coin(source: nat -> int, n: nat) {
    source(n) % 2 != 0
  }

  class Random {
    /** The oracle: the value consumed at each position of the stream. */
    const source: nat -> int
    /** How many values have been consumed so far. */
    var consumed: nat

    constructor (source: nat -> int)
      ensures this.source == source && consumed == 0
    {
      this.source := source;
      consumed := 0;
    }

    /** Random.nextInt(bound): the next value, reduced into [0, bound). */
    method NextInt(bound: int) returns (r: int)
      requires bound > 0
      modifies this
      ensures 0 <= r < bound
      ensures r == source(old(consumed)) % bound
      ensures consumed == old(consumed) + 1
    {
      r := source(consumed) % bound;
      consumed := consumed + 1;
    }

    /** Random.nextBoolean(): the next value, read as a coin. */
    method NextBoolean() returns (b: bool)
      modifies this
      ensures b == Coin(source, old(consumed))
      ensures consumed == old(consumed) + 1
    {
      b := Coin(source, consumed);
      consumed := consumed + 1;
    }
  }
}
