/** The background star field (getDir, generateStars).
    Every `Math.random()` call of the source is a draw taken, in call order,
    from an explicit sequence `draws`.  One star uses six draws: the
    magnitudes of x, y and z, then the sign draws of getDir(x), getDir(y) and
    getDir(z), so star k uses draws 6k .. 6k + 5.  The source fixes count = 1000, inner = 25, outer = 250. */
module StarField {
  import opened Loops

  /** A star's position. */
  datatype Star = Star(x: real, y: real, z: real)

  function Abs(v: real): real { if v < 0.0 then -v else v }

  /** Every draw is a value `Math.random()` can return: in [0, 1). */
  predicate UnitDraws(draws: seq<real>)
  {
    forall i :: 0 <= i < |draws| ==> 0.0 <= draws[i] < 1.0
  }

  /** getDir: keep `num` or negate it; negated exactly when the draw exceeds 0.5. */
  function GetDir(num: real, draw: real): (r: real)
    ensures Abs(r) == Abs(num)
    ensures r == num || r == -num
    ensures num != 0.0 ==> (r == -num <==> draw > 0.5)
    ensures num > 0.0 ==> (r < 0.0 <==> draw > 0.5)
  {
    if draw > 0.5 then -num else num
  }

  /** A coordinate's magnitude: the draw scaled into [inner, outer). */
  function Magnitude(draw: real, inner: real, outer: real): (m: real)
    ensures 0.0 <= draw < 1.0 && inner < outer ==> inner <= m < outer
  {
    var width := outer - inner;
    assert 0.0 <= draw < 1.0 && width > 0.0 ==> 0.0 <= draw * width < width by {
      if 0.0 <= draw < 1.0 && width > 0.0 {
        assert (1.0 - draw) * width > 0.0;
      }
    }
    draw * width + inner
  }

  /** The star built from the six draws starting at `at`. */
  function StarFrom(draws: seq<real>, at: nat, inner: real, outer: real): (s: Star)
    requires at + 6 <= |draws|
    ensures Abs(s.x) == Abs(Magnitude(draws[at], inner, outer))
    ensures Abs(s.y) == Abs(Magnitude(draws[at + 1], inner, outer))
    ensures Abs(s.z) == Abs(Magnitude(draws[at + 2], inner, outer))
  {
    var x := Magnitude(draws[at], inner, outer);
    var y := Magnitude(draws[at + 1], inner, outer);
    var z := Magnitude(draws[at + 2], inner, outer);
    Star(GetDir(x, draws[at + 3]), GetDir(y, draws[at + 4]), GetDir(z, draws[at + 5]))
  }

  /** The first n stars, in the order the source pushes them. */
  function Field(draws: seq<real>, n: nat, inner: real, outer: real): (r: seq<Star>)
    requires 6 * n <= |draws|
    ensures |r| == n
  {
    if n == 0 then []
    else Field(draws, n - 1, inner, outer) + [StarFrom(draws, 6 * (n - 1), inner, outer)]
  }

  /** Draws the whole field consumes: six per pass of the loop. */
  function DrawsNeeded(count: int): nat
  {
    6 * TripCount(count as real)
  }

  /** The stars generateStars produces for (count, inner, outer) and the draws. */
  function Stars(count: int, inner: real, outer: real, draws: seq<real>): (r: seq<Star>)
    requires DrawsNeeded(count) <= |draws|
    ensures |r| == TripCount(count as real)
  {
    Field(draws, TripCount(count as real), inner, outer)
  }

  /** generateStars: push one star per pass while i < count, i stepping by 2. */
  method GenerateStars(count: int, inner: real, outer: real, draws: seq<real>)
    returns (stars: seq<Star>, used: nat)
    requires DrawsNeeded(count) <= |draws|
    ensures stars == Stars(count, inner, outer, draws)
    ensures used == DrawsNeeded(count)
  {
    ghost var passes := TripCount(count as real);
    stars := [];
    used := 0;
    var i: nat := 0;
    while i < count
      invariant i == 2 * |stars| && used == 6 * |stars|
      invariant |stars| <= passes
      invariant stars == Field(draws, |stars|, inner, outer)
      decreases passes - |stars|
    {
      PassRuns(count as real, |stars|);
      var x := Magnitude(draws[used], inner, outer);
      var y := Magnitude(draws[used + 1], inner, outer);
      var z := Magnitude(draws[used + 2], inner, outer);
      var star := Star(GetDir(x, draws[used + 3]), GetDir(y, draws[used + 4]), GetDir(z, draws[used + 5]));
      PushStar(draws, |stars|, inner, outer);
      stars := stars + [star];
      used := used + 6;
      i := i + 2;
    }
    PassRuns(count as real, |stars|);
  }

  /** One pass of the loop: the star built from draws 6n .. 6n + 5 extends the
      first n stars to the first n + 1. */
  lemma PushStar(draws: seq<real>, n: nat, inner: real, outer: real)
    requires 6 * (n + 1) <= |draws|
    ensures Field(draws, n + 1, inner, outer) == Field(draws, n, inner, outer) + [StarFrom(draws, 6 * n, inner, outer)]
  {
  }

  /** The k-th star is built from draws 6k .. 6k + 5. */
  lemma {:induction false} FieldAt(draws: seq<real>, n: nat, inner: real, outer: real, k: nat)
    requires 6 * n <= |draws| && k < n
    ensures Field(draws, n, inner, outer)[k] == StarFrom(draws, 6 * k, inner, outer)
  {
    if k < n - 1 {
      FieldAt(draws, n - 1, inner, outer, k);
    }
  }

  /** A point of the cubic shell: every coordinate's absolute value is in [inner, outer). */
  predicate InShell(s: Star, inner: real, outer: real)
  {
    inner <= Abs(s.x) < outer && inner <= Abs(s.y) < outer && inner <= Abs(s.z) < outer
  }

  /** With draws from [0, 1), every star lies in the shell between the cubes of
      half-side inner and outer. */
  lemma StarsInShell(count: int, inner: real, outer: real, draws: seq<real>, k: nat)
    requires 0.0 <= inner < outer && UnitDraws(draws)
    requires DrawsNeeded(count) <= |draws| && k < |Stars(count, inner, outer, draws)|
    ensures InShell(Stars(count, inner, outer, draws)[k], inner, outer)
  {
    FieldAt(draws, TripCount(count as real), inner, outer, k);
    var at := 6 * k;
    assert at + 6 <= |draws| by {
      assert k + 1 <= TripCount(count as real);
    }
    assert 0.0 <= draws[at] < 1.0 && 0.0 <= draws[at + 1] < 1.0 && 0.0 <= draws[at + 2] < 1.0;
  }

  /** Each axis takes its sign from its own draw: with inner > 0 a coordinate is
      negative exactly when its sign draw exceeds 0.5. */
  lemma StarSigns(count: int, inner: real, outer: real, draws: seq<real>, k: nat)
    requires 0.0 < inner < outer && UnitDraws(draws)
    requires DrawsNeeded(count) <= |draws| && k < |Stars(count, inner, outer, draws)|
    ensures var s := Stars(count, inner, outer, draws)[k];
      (s.x < 0.0 <==> draws[6 * k + 3] > 0.5) &&
      (s.y < 0.0 <==> draws[6 * k + 4] > 0.5) &&
      (s.z < 0.0 <==> draws[6 * k + 5] > 0.5)
  {
    FieldAt(draws, TripCount(count as real), inner, outer, k);
    var at := 6 * k;
    assert at + 6 <= |draws| by {
      assert k + 1 <= TripCount(count as real);
    }
    assert 0.0 <= draws[at] < 1.0 && 0.0 <= draws[at + 1] < 1.0 && 0.0 <= draws[at + 2] < 1.0;
  }

  /** The counter steps by 2, so ceil(count / 2) stars are made. */
  lemma StarCount(count: int, inner: real, outer: real, draws: seq<real>)
    requires count >= 0 && DrawsNeeded(count) <= |draws|
    ensures |Stars(count, inner, outer, draws)| == (count + 1) / 2
  {
    TripCountOfInt(count);
  }

  /** With the source's star count of 1000, 500 stars and 3000 draws. */
  lemma SourceStarCount()
    ensures TripCount(1000.0) == 500
    ensures DrawsNeeded(1000) == 3000
  {
    TripCountOfInt(1000);
  }

  /** With the source's constants (1000 stars, radii 25 and 250) and draws from
      [0, 1): 500 stars, each in the shell between the cubes of half-side 25 and 250. */
  lemma SourceStarShell(draws: seq<real>, k: nat)
    requires UnitDraws(draws) && |draws| >= 3000 && k < 500
    ensures |Stars(1000, 25.0, 250.0, draws)| == 500
    ensures InShell(Stars(1000, 25.0, 250.0, draws)[k], 25.0, 250.0)
  {
    SourceStarCount();
    StarsInShell(1000, 25.0, 250.0, draws, k);
  }
}
