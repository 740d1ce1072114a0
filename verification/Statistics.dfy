/** Robust statistics: median, median absolute deviation and the z-score built on them, and why
    a minority of outliers cannot move the baseline they are measured against. */
module Statistics {
  import opened Common
  import opened LogEntries

  const MAD_SCALE := 1.4826

  function Abs(x: real): real {
    if x < 0.0 then -x else x
  }

  function Median(xs: seq<real>): real
    requires |xs| > 0
  {
    var s := Sort(xs, RealLe);
    var mid := |s| / 2;
    if |s| % 2 == 1 then s[mid] else (s[mid - 1] + s[mid]) / 2.0
  }

  function Deviation(centre: real): real -> real {
    v => Abs(v - centre)
  }

  /** Median absolute deviation, scaled to be comparable to a standard deviation. */
  function Mad(xs: seq<real>, median: real): real {
    if |xs| == 0 then 0.0 else MAD_SCALE * Median(MapSeq(xs, Deviation(median)))
  }

  function Total(xs: seq<real>): real {
    if |xs| == 0 then 0.0 else Total(xs[..|xs| - 1]) + xs[|xs| - 1]
  }

  function Mean(xs: seq<real>): real
    requires |xs| > 0
  {
    Total(xs) / |xs| as real
  }

  function SquaredFrom(centre: real): real -> real {
    v => (v - centre) * (v - centre)
  }

  /** Population standard deviation. */
  function PStdev(m: Maths, xs: seq<real>): real
    requires |xs| > 0
  {
    m.sqrt(Mean(MapSeq(xs, SquaredFrom(Mean(xs)))))
  }

  /** How many robust standard deviations `value` sits above the median of `values`. */
  function RobustZ(m: Maths, value: real, values: seq<real>): real {
    if |values| < 2 then 0.0
    else
      var median := Median(values);
      var mad := Mad(values, median);
      var spread := if mad == 0.0 then PStdev(m, values) else mad;
      if spread == 0.0 then (if value <= median then 0.0 else 50.0) else (value - median) / spread
  }

  lemma LinearScore(x: real, span: real)
    requires x > 0.0 && span > 0.0
    ensures x / span > 0.0 && (x / span) * span == x
    ensures x < span <==> x / span < 1.0
  {
    var q := x / span;
    assert q * span == x;
    if q >= 1.0 {
      assert q * span >= span;
    }
  }

  function ScoreFromZ(z: real, flagAt: real, certainAt: real): (s: real)
    requires flagAt < certainAt
    ensures 0.0 <= s <= 1.0
    ensures z <= flagAt ==> s == 0.0
    ensures z >= certainAt ==> s == 1.0
    ensures flagAt < z < certainAt ==> s * (certainAt - flagAt) == z - flagAt
  {
    if z <= flagAt then 0.0
    else
      var linear := (z - flagAt) / (certainAt - flagAt);
      LinearScore(z - flagAt, certainAt - flagAt);
      if linear < 1.0 then linear else 1.0
  }

  // --- Products ---

  lemma CancelFactor(n: real, a: real, b: real)
    requires n > 0.0 && a * n == b * n
    ensures a == b
  {
    assert (a - b) * n == 0.0;
  }

  lemma ProductPositive(x: real, y: real, product: real)
    requires x > 0.0 && y > 0.0 && product == x * y
    ensures product > 0.0
  {}

  lemma PositiveFactor(x: real, y: real, product: real)
    requires y > 0.0 && x * y == product && product > 0.0
    ensures x > 0.0
  {
    LinearScore(product, y);
    CancelFactor(y, x, product / y);
  }

  lemma SignOfProduct(x: real, y: real)
    requires x >= 0.0 && y >= 0.0
    ensures x * y >= 0.0
  {}

  function Largest(xs: seq<real>): (r: real)
    requires |xs| > 0
    ensures r in xs && forall i :: 0 <= i < |xs| ==> xs[i] <= r
  {
    var n := |xs| - 1;
    if n == 0 then xs[0]
    else
      var rest := Largest(xs[..n]);
      if rest < xs[n] then xs[n] else rest
  }

  function LargestInt(xs: seq<int>): (r: int)
    requires |xs| > 0
    ensures r in xs && forall i :: 0 <= i < |xs| ==> xs[i] <= r
  {
    var n := |xs| - 1;
    if n == 0 then xs[0]
    else
      var rest := LargestInt(xs[..n]);
      if rest < xs[n] then xs[n] else rest
  }

  // --- Order never matters ---

  lemma MedianPermutes(xs: seq<real>, ys: seq<real>)
    requires |xs| > 0 && multiset(xs) == multiset(ys)
    ensures |ys| > 0 && Median(xs) == Median(ys)
  {
    SameLength(xs, ys);
    SortPermutes(xs, ys, RealLe);
  }

  lemma MadPermutes(xs: seq<real>, ys: seq<real>, centre: real)
    requires multiset(xs) == multiset(ys)
    ensures Mad(xs, centre) == Mad(ys, centre)
  {
    SameLength(xs, ys);
    if |xs| > 0 {
      MapSeqPermutes(xs, ys, Deviation(centre));
      MedianPermutes(MapSeq(xs, Deviation(centre)), MapSeq(ys, Deviation(centre)));
    }
  }

  lemma {:induction false} TotalAppend(xs: seq<real>, ys: seq<real>)
    ensures Total(xs + ys) == Total(xs) + Total(ys)
  {
    if |ys| == 0 {
      assert xs + ys == xs;
    } else {
      var n := |ys| - 1;
      assert (xs + ys)[..|xs| + n] == xs + ys[..n];
      TotalAppend(xs, ys[..n]);
    }
  }

  lemma TotalAround(before: seq<real>, x: real, after: seq<real>)
    ensures Total(before + [x] + after) == Total(before + after) + x
  {
    TotalAppend(before, after);
    TotalAppend(before + [x], after);
    TotalAppend(before, [x]);
  }

  lemma {:induction false} TotalPermutes(xs: seq<real>, ys: seq<real>)
    requires multiset(xs) == multiset(ys)
    ensures Total(xs) == Total(ys)
    decreases |xs|
  {
    SameLength(xs, ys);
    if |xs| > 0 {
      var front, x, before, after := TakeOut(xs, ys);
      TotalPermutes(front, before + after);
      TotalAround(before, x, after);
    }
  }

  lemma PStdevPermutes(m: Maths, xs: seq<real>, ys: seq<real>)
    requires |xs| > 0 && multiset(xs) == multiset(ys)
    ensures |ys| > 0 && PStdev(m, xs) == PStdev(m, ys)
  {
    SameLength(xs, ys);
    TotalPermutes(xs, ys);
    var centre := Mean(xs);
    MapSeqPermutes(xs, ys, SquaredFrom(centre));
    TotalPermutes(MapSeq(xs, SquaredFrom(centre)), MapSeq(ys, SquaredFrom(centre)));
  }

  lemma RobustZPermutes(m: Maths, value: real, xs: seq<real>, ys: seq<real>)
    requires multiset(xs) == multiset(ys)
    ensures RobustZ(m, value, xs) == RobustZ(m, value, ys)
  {
    hide Median;
    SameLength(xs, ys);
    if |xs| >= 2 {
      MedianPermutes(xs, ys);
      MadPermutes(xs, ys, Median(xs));
      PStdevPermutes(m, xs, ys);
    }
  }

  lemma LargestPermutes(xs: seq<real>, ys: seq<real>)
    requires |xs| > 0 && multiset(xs) == multiset(ys)
    ensures |ys| > 0 && Largest(xs) == Largest(ys)
  {
    SameLength(xs, ys);
    assert Largest(xs) in multiset(ys) && Largest(ys) in multiset(xs);
  }

  lemma LargestIntPermutes(xs: seq<int>, ys: seq<int>)
    requires |xs| > 0 && multiset(xs) == multiset(ys)
    ensures |ys| > 0 && LargestInt(xs) == LargestInt(ys)
  {
    SameLength(xs, ys);
    assert LargestInt(xs) in multiset(ys) && LargestInt(ys) in multiset(xs);
  }

  // --- A majority fixes the baseline ---

  function Inside(lo: real, hi: real): real -> Option<real> {
    v => if lo <= v <= hi then Some(v) else None
  }

  /** How many of `xs` lie in `[lo, hi]`. */
  function CountIn(xs: seq<real>, lo: real, hi: real): nat {
    |Collect(xs, Inside(lo, hi))|
  }

  ghost predicate Majority(xs: seq<real>, lo: real, hi: real) {
    2 * CountIn(xs, lo, hi) > |xs|
  }

  lemma CountPermutes(xs: seq<real>, ys: seq<real>, lo: real, hi: real)
    requires multiset(xs) == multiset(ys)
    ensures CountIn(xs, lo, hi) == CountIn(ys, lo, hi)
  {
    CollectPermutes(xs, ys, Inside(lo, hi));
    SameLength(Collect(xs, Inside(lo, hi)), Collect(ys, Inside(lo, hi)));
  }

  lemma {:induction false} NoneInside(xs: seq<real>, lo: real, hi: real)
    requires forall i :: 0 <= i < |xs| ==> !(lo <= xs[i] <= hi)
    ensures CountIn(xs, lo, hi) == 0
  {
    if |xs| > 0 {
      NoneInside(xs[..|xs| - 1], lo, hi);
    }
  }

  /** In a sorted list, a majority inside an interval forces the central positions into it. */
  lemma CentreInside(s: seq<real>, lo: real, hi: real, at: nat)
    requires Sorted(s, RealLe) && Majority(s, lo, hi)
    requires at < |s| && |s| <= 2 * (at + 1) && 2 * at <= |s|
    ensures lo <= s[at] <= hi
  {
    if s[at] < lo {
      var low, rest := s[..at + 1], s[at + 1..];
      assert s == low + rest;
      forall i | 0 <= i < |low| ensures low[i] < lo {
        assert i == at || RealLe(s[i], s[at]);
      }
      NoneInside(low, lo, hi);
      CollectAppend(low, rest, Inside(lo, hi));
    } else if s[at] > hi {
      var rest, high := s[..at], s[at..];
      assert s == rest + high;
      forall i | 0 <= i < |high| ensures high[i] > hi {
        assert i == 0 || RealLe(s[at], s[at + i]);
      }
      NoneInside(high, lo, hi);
      CollectAppend(rest, high, Inside(lo, hi));
    }
  }

  /** If most values lie in an interval, so does the median, whatever the others are. */
  lemma MajorityMedian(xs: seq<real>, lo: real, hi: real)
    requires Majority(xs, lo, hi)
    ensures |xs| > 0 && lo <= Median(xs) <= hi
  {
    var s := Sort(xs, RealLe);
    RealLeOrder();
    SortSorted(xs, RealLe);
    CountPermutes(xs, s, lo, hi);
    var mid := |s| / 2;
    if |s| % 2 == 1 {
      CentreInside(s, lo, hi, mid);
    } else {
      CentreInside(s, lo, hi, mid - 1);
      CentreInside(s, lo, hi, mid);
    }
  }

  /** Values near the centre have small deviations. */
  lemma {:induction false} DeviationsInside(xs: seq<real>, lo: real, hi: real, centre: real)
    requires lo <= centre <= hi
    ensures CountIn(MapSeq(xs, Deviation(centre)), 0.0, hi - lo) >= CountIn(xs, lo, hi)
  {
    if |xs| > 0 {
      var n := |xs| - 1;
      DeviationsInside(xs[..n], lo, hi, centre);
      var devs := MapSeq(xs, Deviation(centre));
      assert devs[..n] == MapSeq(xs[..n], Deviation(centre));
      assert devs[n] == Abs(xs[n] - centre);
      assert |Collect(devs, Inside(0.0, hi - lo))|
          == |Collect(devs[..n], Inside(0.0, hi - lo))| + (if 0.0 <= devs[n] <= hi - lo then 1 else 0);
    }
  }

  lemma MajorityDeviations(xs: seq<real>, lo: real, hi: real, centre: real)
    requires Majority(xs, lo, hi) && lo <= centre <= hi
    ensures |xs| > 0 && 0.0 <= Median(MapSeq(xs, Deviation(centre))) <= hi - lo
  {
    DeviationsInside(xs, lo, hi, centre);
    MajorityMedian(MapSeq(xs, Deviation(centre)), 0.0, hi - lo);
  }

  /** The minority cannot widen the spread: the MAD is bounded by the width of the majority's interval. */
  lemma RobustBaseline(xs: seq<real>, lo: real, hi: real)
    requires Majority(xs, lo, hi)
    ensures |xs| > 0 && lo <= Median(xs) <= hi
    ensures 0.0 <= Mad(xs, Median(xs)) <= MAD_SCALE * (hi - lo)
  {
    MajorityMedian(xs, lo, hi);
    MajorityDeviations(xs, lo, hi, Median(xs));
  }

  lemma DivideBound(x: real, d: real, k: real)
    requires d > 0.0 && x >= k * d
    ensures x / d >= k
  {
    var q := x / d;
    assert q * d == x;
    if q < k {
      assert q * d < k * d;
    }
  }

  lemma OutlierFarUp(spread: real, width: real, above: real)
    requires spread <= MAD_SCALE * width && above >= 12.0 * MAD_SCALE * width
    ensures above >= 12.0 * spread
  {
    assert 12.0 * MAD_SCALE * width == 12.0 * (MAD_SCALE * width);
  }

  /** An outlier cannot hide itself: far enough above the majority, it scores full marks under every
      certainty threshold up to twelve. */
  lemma OutlierIsCertain(m: Maths, xs: seq<real>, lo: real, hi: real, value: real, certainAt: real)
    requires Majority(xs, lo, hi) && |xs| >= 2
    requires Mad(xs, Median(xs)) != 0.0
    requires value >= hi + 12.0 * MAD_SCALE * (hi - lo)
    requires 3.0 < certainAt <= 12.0
    ensures ScoreFromZ(RobustZ(m, value, xs), 3.0, certainAt) == 1.0
  {
    hide Mad, Median, Majority;
    RobustBaseline(xs, lo, hi);
    var spread := Mad(xs, Median(xs));
    var above := value - Median(xs);
    OutlierFarUp(spread, hi - lo, above);
    DivideBound(above, spread, 12.0);
  }
}
