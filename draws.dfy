/** The two uses of `Math.random()`. A draw is a real number r with
    0 <= r < 1, passed in by the caller in place of the random source. */
module Draws {

  /** `Math.floor(r * n)`: the index of a random word in a list of `n`
      words. It always lies inside the list. */
  function DrawIndex(r: real, n: nat): (i: nat)
    requires 0.0 <= r < 1.0 && 0 < n
    ensures i < n
  {
    assert 0.0 <= r * n as real < n as real;
    (r * n as real).Floor
  }

  /** Every word of the list can be drawn: the draw i/n picks index i. */
  lemma EveryIndexDrawable(n: nat, i: nat)
    requires i < n
    ensures 0.0 <= i as real / n as real < 1.0
    ensures DrawIndex(i as real / n as real, n) == i
  {
    var r := i as real / n as real;
    assert r * n as real == i as real;
  }

  /** `Math.floor(3 + r * 3)`: the minimum word length of Challenge mode.
      It is always 3, 4 or 5. */
  function RollMinimumLength(r: real): (k: int)
    requires 0.0 <= r < 1.0
    ensures 3 <= k <= 5
  {
    (3.0 + r * 3.0).Floor
  }

  /** Each of 3, 4 and 5 can be rolled: the draw (k - 3)/3 gives k. */
  lemma EveryLengthRollable(k: int)
    requires 3 <= k <= 5
    ensures 0.0 <= (k - 3) as real / 3.0 < 1.0
    ensures RollMinimumLength((k - 3) as real / 3.0) == k
  {
  }
}
