/** What the statistics are, in terms of the middle of a sorted list: relations that do not mention how they are computed,
    each proved to hold of exactly one value. */
module Figures {
  import opened Common
  import opened LogEntries
  import opened Statistics
  import opened Candidates

  /** `s` lists `xs` from the least to the greatest. */
  ghost predicate Ascending(s: seq<real>, xs: seq<real>) {
    multiset(s) == multiset(xs) && forall i, j :: 0 <= i < j < |s| ==> s[i] <= s[j]
  }

  /** `v` is the middle element of an odd list, and halfway between the two middle ones of an even list. */
  ghost predicate Middle(s: seq<real>, v: real) {
    |s| > 0 && if |s| % 2 == 1 then v == s[|s| / 2] else v + v == s[|s| / 2 - 1] + s[|s| / 2]
  }

  ghost predicate IsMedian(xs: seq<real>, v: real) {
    exists s :: Ascending(s, xs) && Middle(s, v)
  }

  lemma OneAscending(xs: seq<real>, s: seq<real>)
    requires Ascending(s, xs)
    ensures s == Sort(xs, RealLe)
  {
    RealLeOrder();
    SortSorted(xs, RealLe);
    SortedUnique(s, Sort(xs, RealLe), RealLe);
  }

  /** Whatever sorted listing is looked at, the median is its middle: of an even list, the mean of the two central values. */
  lemma MedianMiddle(xs: seq<real>, s: seq<real>)
    requires |xs| > 0 && Ascending(s, xs)
    ensures |s| == |xs|
    ensures |s| % 2 == 1 ==> Median(xs) == s[|s| / 2]
    ensures |s| % 2 == 0 ==> 2.0 * Median(xs) == s[|s| / 2 - 1] + s[|s| / 2]
  {
    OneAscending(xs, s);
    hide Sort;
  }

  lemma SortAscends(xs: seq<real>)
    ensures Ascending(Sort(xs, RealLe), xs)
  {
    RealLeOrder();
    SortSorted(xs, RealLe);
    var s := Sort(xs, RealLe);
    forall i, j | 0 <= i < j < |s| ensures s[i] <= s[j] {
      assert RealLe(s[i], s[j]);
    }
  }

  lemma MedianIff(xs: seq<real>, v: real)
    requires |xs| > 0
    ensures IsMedian(xs, v) <==> v == Median(xs)
  {
    SortAscends(xs);
    MedianMiddle(xs, Sort(xs, RealLe));
    forall s | Ascending(s, xs) ensures s == Sort(xs, RealLe) {
      OneAscending(xs, s);
    }
  }

  function Mirrored(c: real): real -> real {
    x => c - x
  }

  function Reversed<T>(xs: seq<T>): (r: seq<T>)
    ensures |r| == |xs|
  {
    seq(|xs|, i requires 0 <= i < |xs| => xs[|xs| - 1 - i])
  }

  lemma {:induction false} ReversedBag<T>(xs: seq<T>)
    ensures multiset(Reversed(xs)) == multiset(xs)
  {
    if |xs| > 0 {
      var front, x := xs[..|xs| - 1], xs[|xs| - 1];
      ReversedBag(front);
      assert xs == front + [x];
      assert Reversed(xs) == [x] + Reversed(front);
    }
  }

  lemma MirrorAscends(xs: seq<real>, s: seq<real>, c: real)
    requires Ascending(s, xs)
    ensures Ascending(Reversed(MapSeq(s, Mirrored(c))), MapSeq(xs, Mirrored(c)))
  {
    var t := MapSeq(s, Mirrored(c));
    MapSeqPermutes(s, xs, Mirrored(c));
    ReversedBag(t);
    forall i, j | 0 <= i < j < |t| ensures Reversed(t)[i] <= Reversed(t)[j] {
      assert s[|s| - 1 - j] <= s[|s| - 1 - i];
    }
  }

  /** Looking from the other end finds the same middle. */
  lemma MedianReflects(xs: seq<real>, c: real)
    requires |xs| > 0
    ensures Median(MapSeq(xs, Mirrored(c))) == c - Median(xs)
  {
    hide Median, Sort, Ascending;
    var s := Sort(xs, RealLe);
    var t := Reversed(MapSeq(s, Mirrored(c)));
    SortAscends(xs);
    MirrorAscends(xs, s, c);
    MedianMiddle(xs, s);
    MedianMiddle(MapSeq(xs, Mirrored(c)), t);
  }

  // --- Spread, mean and deviation ---

  /** How far each value lies from `centre`. */
  function Distances(xs: seq<real>, centre: real): seq<real> {
    seq(|xs|, i requires 0 <= i < |xs| => if xs[i] < centre then centre - xs[i] else xs[i] - centre)
  }

  /** The median distance from `centre`, times 1.4826. */
  ghost predicate IsSpread(xs: seq<real>, centre: real, spread: real) {
    exists d :: IsMedian(Distances(xs, centre), d) && spread == 1.4826 * d
  }

  lemma SpreadIff(xs: seq<real>, centre: real, spread: real)
    requires |xs| > 0
    ensures IsSpread(xs, centre, spread) <==> spread == Mad(xs, centre)
  {
    var distances := Distances(xs, centre);
    forall i | 0 <= i < |xs| ensures distances[i] == MapSeq(xs, Deviation(centre))[i] {
      assert Deviation(centre)(xs[i]) == Abs(xs[i] - centre);
    }
    assert distances == MapSeq(xs, Deviation(centre));
    MedianIff(distances, Median(distances));
    forall d | IsMedian(distances, d) ensures d == Median(distances) {
      MedianIff(distances, d);
    }
  }

  /** A total is what adding up gives: nothing for no values, a value for itself, and sums for parts. */
  lemma TotalAdds(xs: seq<real>, ys: seq<real>, x: real)
    ensures Total([]) == 0.0 && Total([x]) == x && Total(xs + ys) == Total(xs) + Total(ys)
  {
    TotalAppend(xs, ys);
    assert [x][..0] == [];
  }

  ghost predicate IsMean(xs: seq<real>, mean: real) {
    |xs| > 0 && mean * |xs| as real == Total(xs)
  }

  lemma MeanIff(xs: seq<real>, mean: real)
    requires |xs| > 0
    ensures IsMean(xs, mean) <==> mean == Mean(xs)
  {
    var n := |xs| as real;
    assert Mean(xs) * n == Total(xs);
    if mean * n == Total(xs) {
      CancelFactor(n, mean, Mean(xs));
    }
  }

  function Squares(xs: seq<real>, centre: real): seq<real> {
    seq(|xs|, i requires 0 <= i < |xs| => (xs[i] - centre) * (xs[i] - centre))
  }

  /** The root of the mean squared distance from the mean. */
  ghost predicate IsDeviation(m: Maths, xs: seq<real>, deviation: real) {
    exists mean, variance :: IsMean(xs, mean) && IsMean(Squares(xs, mean), variance) && deviation == m.sqrt(variance)
  }

  lemma DeviationIff(m: Maths, xs: seq<real>, deviation: real)
    requires |xs| > 0
    ensures IsDeviation(m, xs, deviation) <==> deviation == PStdev(m, xs)
  {
    var squares := Squares(xs, Mean(xs));
    forall i | 0 <= i < |xs| ensures squares[i] == MapSeq(xs, SquaredFrom(Mean(xs)))[i] {
      assert SquaredFrom(Mean(xs))(xs[i]) == (xs[i] - Mean(xs)) * (xs[i] - Mean(xs));
    }
    assert squares == MapSeq(xs, SquaredFrom(Mean(xs)));
    MeanIff(xs, Mean(xs));
    MeanIff(squares, Mean(squares));
    forall mean, variance | IsMean(xs, mean) && IsMean(Squares(xs, mean), variance)
      ensures mean == Mean(xs) && variance == Mean(squares)
    {
      MeanIff(xs, mean);
      MeanIff(squares, variance);
    }
  }

  /** `z` says how many spreads `value` lies above the median of `xs`; in place of a zero spread stands the standard deviation,
      and of equal values everything above them is 50 away. */
  ghost predicate IsRobustZ(m: Maths, value: real, xs: seq<real>, z: real) {
    if |xs| < 2 then z == 0.0
    else exists median, spread, deviation ::
      && IsMedian(xs, median) && IsSpread(xs, median, spread) && IsDeviation(m, xs, deviation)
      && if spread != 0.0 then z * spread == value - median
         else if deviation != 0.0 then z * deviation == value - median
         else z == if value <= median then 0.0 else 50.0
  }

  lemma QuotientIff(x: real, d: real, q: real)
    requires d != 0.0
    ensures q * d == x <==> q == x / d
  {
    assert x / d * d == x;
    if q * d == x {
      assert (q - x / d) * d == 0.0;
    }
  }

  lemma BaselineIff(m: Maths, xs: seq<real>, median: real, spread: real, deviation: real)
    requires |xs| > 0
    ensures IsMedian(xs, median) && IsSpread(xs, median, spread) && IsDeviation(m, xs, deviation)
       <==> median == Median(xs) && spread == Mad(xs, Median(xs)) && deviation == PStdev(m, xs)
  {
    hide IsMedian, IsSpread, IsDeviation, Median, Mad, PStdev;
    MedianIff(xs, median);
    SpreadIff(xs, Median(xs), spread);
    DeviationIff(m, xs, deviation);
  }

  lemma RobustZIff(m: Maths, value: real, xs: seq<real>, z: real)
    ensures IsRobustZ(m, value, xs, z) <==> z == RobustZ(m, value, xs)
  {
    hide IsMedian, IsSpread, IsDeviation, Median, Mad, PStdev;
    if |xs| >= 2 {
      var median, mad, deviation := Median(xs), Mad(xs, Median(xs)), PStdev(m, xs);
      forall a, b, c ensures IsMedian(xs, a) && IsSpread(xs, a, b) && IsDeviation(m, xs, c) <==> a == median && b == mad && c == deviation {
        BaselineIff(m, xs, a, b, c);
      }
      BaselineIff(m, xs, median, mad, deviation);
      if mad != 0.0 {
        QuotientIff(value - median, mad, z);
      } else if deviation != 0.0 {
        QuotientIff(value - median, deviation, z);
      }
    }
  }

  // --- Scores ---

  /** Nothing up to 3, full marks from `certain` on, and linear in between. */
  ghost predicate IsScore(z: real, certain: real, score: real) {
    z > 3.0 && if z >= certain then score == 1.0 else score * (certain - 3.0) == z - 3.0
  }

  lemma ScoreIff(z: real, certain: real, score: real)
    requires certain > 3.0
    ensures IsScore(z, certain, score) <==> z > 3.0 && score == ScoreFromZ(z, 3.0, certain)
  {
    if 3.0 < z < certain {
      QuotientIff(z - 3.0, certain - 3.0, score);
    }
  }

  lemma ScorePositive(z: real, certain: real)
    requires certain > 3.0
    ensures ScoreFromZ(z, 3.0, certain) > 0.0 <==> z > 3.0
  {
    if 3.0 < z < certain {
      PositiveFactor(ScoreFromZ(z, 3.0, certain), certain - 3.0, z - 3.0);
    }
  }

  // --- Rounding ---

  /** No number is nearer to `y` than `n`; of two equally near, `n` is the even one. */
  predicate Nearest(y: real, n: int) {
    n as real - 0.5 <= y <= n as real + 0.5 && (y == n as real - 0.5 || y == n as real + 0.5 ==> n % 2 == 0)
  }

  predicate Thousandths(x: real, r: real, n: int) {
    Nearest(x * 1000.0, n) && r == n as real / 1000.0
  }

  /** `r` is the number of thousandths nearest to `x`. */
  ghost predicate IsRounded(x: real, r: real) {
    exists n: int :: Thousandths(x, r, n)
  }

  lemma NearestOnce(y: real, a: int, b: int)
    requires Nearest(y, a) && Nearest(y, b)
    ensures a == b
  {}

  lemma NearestRound(x: real) returns (n: int)
    ensures Nearest(x * 1000.0, n) && Round3(x) == n as real / 1000.0
  {
    var scaled := x * 1000.0;
    var below := scaled.Floor;
    var over := scaled - below as real;
    n := if over < 0.5 || (over == 0.5 && below % 2 == 0) then below else below + 1;
  }

  lemma RoundedIff(x: real, r: real)
    ensures IsRounded(x, r) <==> r == Round3(x)
  {
    hide Nearest, Round3;
    var n := NearestRound(x);
    assert Thousandths(x, Round3(x), n);
    forall k | Thousandths(x, r, k) ensures k == n {
      NearestOnce(x * 1000.0, k, n);
    }
  }
}
