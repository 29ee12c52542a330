/** 64-bit unsigned words: wrap-around and the circular comparison of
    concurrentqueue.h (`circular_less_than`). */
module Words {

  const WORD: int := 0x1_0000_0000_0000_0000
  const HALF: int := 0x8000_0000_0000_0000

  /** The word that stores the unbounded counter value `x`. */
  function Wrap(x: int): (w: nat)
    ensures w < WORD && (0 <= x < WORD ==> w == x)
  {
    x % WORD
  }

  /** `circular_less_than`: the wrapped difference is in the upper half. */
  predicate CircularLess(a: int, b: int) {
    Wrap(a - b) > HALF
  }

  /** Subtracting words is subtracting the counters they store. */
  lemma WrapDifference(x: int, y: int)
    ensures Wrap(Wrap(x) - Wrap(y)) == Wrap(x - y)
  {
  }

  /** On counters less than half the word range apart the circular comparison of
      their words is the comparison of the counters; this is exact, since at
      distance 2^63 the smaller counter no longer compares less. */
  lemma CircularLessIsLess(x: int, y: int)
    requires -WORD < x - y <= HALF
    ensures CircularLess(Wrap(x), Wrap(y)) == (-HALF < x - y < 0)
  {
    WrapDifference(x, y);
  }
}
