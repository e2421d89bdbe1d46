/** The counting loops of the scene generators.
    Both generators run `for (i = 0; i < bound; i = i + 2)` and emit one item
    per pass, so the number of items is the number of even naturals below
    `bound`.  The bound is a JavaScript number, here a `real`. */
module Loops {

  /** Number of passes of a loop whose counter starts at 0, steps by 2 and
      runs while it is below `bound`: the number of k with 2k < bound. */
  function TripCount(bound: real): (n: nat)
    ensures n > 0 ==> ((2 * (n - 1)) as real) < bound
    ensures ((2 * n) as real) >= bound
    ensures bound <= 0.0 ==> n == 0
    ensures bound > 0.0 ==> bound / 2.0 <= n as real < bound / 2.0 + 1.0
  {
    if bound <= 0.0 then 0
    else
      var f := (-bound / 2.0).Floor;
      assert f as real <= -bound / 2.0 < f as real + 1.0;
      -f
  }

  /** Pass k (counter value 2k) runs exactly when k is below the trip count. */
  lemma PassRuns(bound: real, k: nat)
    ensures ((2 * k) as real) < bound <==> k < TripCount(bound)
  {
    var n := TripCount(bound);
    if k < n {
      assert (2 * k) as real <= (2 * (n - 1)) as real;
    } else {
      assert (2 * n) as real <= (2 * k) as real;
    }
  }

  /** For an integer bound the loop runs ceil(bound / 2) times. */
  lemma TripCountOfInt(bound: int)
    requires bound >= 0
    ensures TripCount(bound as real) == (bound + 1) / 2
  {
    var n := TripCount(bound as real);
    assert 2 * n >= bound;
    assert n > 0 ==> 2 * (n - 1) < bound;
  }
}
