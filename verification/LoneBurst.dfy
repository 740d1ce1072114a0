/** How much company a burst needs to be noticed: one loud bucket among equal quiet ones is reported
    exactly when there are at least 25 buckets, however loud it is. */
module LoneBurst {
  import opened Common
  import opened Dictionaries
  import opened LogEntries
  import opened Aggregates
  import opened Statistics
  import opened Candidates
  import opened VolumeSpikes

  /** Square roots behave: `sqrt` squares back and is not negative. */
  ghost predicate LawfulRoots(m: Maths) {
    forall x :: x >= 0.0 ==> m.sqrt(x) >= 0.0 && m.sqrt(x) * m.sqrt(x) == x
  }

  /** All values are `r` except the one at `at`. */
  ghost predicate Lone(xs: seq<real>, at: nat, r: real) {
    at < |xs| && forall j :: 0 <= j < |xs| && j != at ==> xs[j] == r
  }

  function Times(n: nat, r: real): real {
    if n == 0 then 0.0 else Times(n - 1, r) + r
  }

  lemma {:induction false} TimesIsProduct(n: nat, r: real)
    ensures Times(n, r) == n as real * r
  {
    if n > 0 {
      TimesIsProduct(n - 1, r);
      assert (n - 1) as real * r + r == n as real * r;
    }
  }

  lemma {:induction false} ConstantTotal(xs: seq<real>, r: real)
    requires forall j :: 0 <= j < |xs| ==> xs[j] == r
    ensures Total(xs) == Times(|xs|, r)
  {
    if |xs| > 0 {
      ConstantTotal(xs[..|xs| - 1], r);
    }
  }

  lemma LoneTotal(xs: seq<real>, at: nat, r: real)
    requires Lone(xs, at, r)
    ensures Total(xs) == xs[at] + Times(|xs| - 1, r)
  {
    var before, after := xs[..at], xs[at + 1..];
    assert xs == before + [xs[at]] + after;
    TotalAround(before, xs[at], after);
    var rest := before + after;
    forall j | 0 <= j < |rest| ensures rest[j] == r {
      assert rest[j] == if j < at then xs[j] else xs[j + 1];
    }
    ConstantTotal(rest, r);
  }

  lemma {:induction false} ConstantCount(xs: seq<real>, r: real)
    requires forall j :: 0 <= j < |xs| ==> xs[j] == r
    ensures CountIn(xs, r, r) == |xs|
  {
    if |xs| > 0 {
      ConstantCount(xs[..|xs| - 1], r);
    }
  }

  /** The quiet majority fixes the median and leaves no deviation. */
  lemma LoneBaseline(xs: seq<real>, at: nat, r: real)
    requires Lone(xs, at, r) && |xs| >= 3
    ensures Median(xs) == r && Mad(xs, r) == 0.0
  {
    var before, after := xs[..at], xs[at + 1..];
    assert xs == before + [xs[at]] + after;
    ConstantCount(before, r);
    ConstantCount(after, r);
    CollectAppend(before + [xs[at]], after, Inside(r, r));
    CollectAppend(before, [xs[at]], Inside(r, r));
    RobustBaseline(xs, r, r);
  }

  lemma LoneMean(xs: seq<real>, at: nat, r: real) returns (e: real)
    requires Lone(xs, at, r)
    ensures Times(|xs|, e) == xs[at] - r && Mean(xs) == r + e
  {
    var n, d := |xs| as real, xs[at] - r;
    LoneTotal(xs, at, r);
    TimesIsProduct(|xs| - 1, r);
    e := d / n;
    var mean := Mean(xs);
    assert mean * n == Total(xs);
    assert (n - 1.0) * r == n * r - r;
    assert (r + e) * n == r * n + e * n;
    CancelFactor(n, mean, r + e);
    TimesIsProduct(|xs|, e);
  }

  /** With `d` the height of the burst over the rest, the variance `v` satisfies n*n*v == (n-1)*d*d. */
  ghost predicate Balanced(v: real, n: nat, d: real)
    requires n > 0
  {
    Times(n, Times(n, v)) == Times(n - 1, d * d)
  }

  function Squared(x: real): real {
    x * x
  }

  lemma LoneSquares(xs: seq<real>, at: nat, r: real, mean: real) returns (peak: real, rest: real)
    requires Lone(xs, at, r)
    ensures peak == Squared(xs[at] - mean) && rest == Squared(r - mean)
    ensures Total(MapSeq(xs, SquaredFrom(mean))) == peak + Times(|xs| - 1, rest)
  {
    var squares := MapSeq(xs, SquaredFrom(mean));
    peak, rest := SquaredFrom(mean)(xs[at]), SquaredFrom(mean)(r);
    LoneTotal(squares, at, rest);
  }

  lemma SquareShift(c: real, r: real, mean: real, e: real, peak: real, rest: real)
    requires mean == r + e && peak == Squared(c - mean) && rest == Squared(r - mean)
    ensures peak == Squared(c - r - e) && rest == Squared(e)
  {
    assert c - mean == c - r - e;
    assert r - mean == -e;
    assert (-e) * (-e) == e * e;
  }

  lemma QuotientTimes(x: real, n: real)
    requires n > 0.0
    ensures n * (x / n) == x
  {}

  lemma MeanTimes(xs: seq<real>) returns (v: real)
    requires |xs| > 0
    ensures v == Mean(xs) && Times(|xs|, v) == Total(xs)
  {
    v := Mean(xs);
    TimesIsProduct(|xs|, v);
    QuotientTimes(Total(xs), |xs| as real);
  }

  lemma LoneFacts(xs: seq<real>, at: nat, r: real, e: real) returns (v: real, peak: real, rest: real)
    requires Lone(xs, at, r) && Mean(xs) == r + e
    ensures v == Mean(MapSeq(xs, SquaredFrom(Mean(xs)))) && Times(|xs|, v) == peak + Times(|xs| - 1, rest)
    ensures peak == Squared(xs[at] - r - e) && rest == Squared(e)
  {
    peak, rest := LoneSquares(xs, at, r, Mean(xs));
    v := MeanTimes(MapSeq(xs, SquaredFrom(Mean(xs))));
    SquareShift(xs[at], r, Mean(xs), e, peak, rest);
  }

  lemma VarianceIdentity(v: real, n: real, d: real, e: real, peak: real, rest: real)
    requires n * e == d && n * v == peak + (n - 1.0) * rest && peak == (d - e) * (d - e) && rest == e * e
    ensures n * (n * v) == (n - 1.0) * (d * d)
  {
    var s := peak + (n - 1.0) * rest;
    assert d - e == e * (n - 1.0);
    assert s == e * e * ((n - 1.0) * (n - 1.0) + (n - 1.0));
    assert (n - 1.0) * (n - 1.0) + (n - 1.0) == n * (n - 1.0);
    assert n * (n * v) == s * n;
    assert s * n == (e * n) * (e * n) * (n - 1.0);
  }

  lemma BalancedFrom(v: real, n: nat, d: real, e: real, peak: real, rest: real)
    requires n > 0 && Times(n, e) == d && peak == Squared(d - e) && rest == Squared(e)
    requires Times(n, v) == peak + Times(n - 1, rest)
    ensures Balanced(v, n, d)
  {
    TimesIsProduct(n, e);
    TimesIsProduct(n - 1, rest);
    TimesIsProduct(n, v);
    TimesIsProduct(n, Times(n, v));
    TimesIsProduct(n - 1, d * d);
    VarianceIdentity(v, n as real, d, e, peak, rest);
  }

  lemma LoneVariance(xs: seq<real>, at: nat, r: real) returns (v: real)
    requires Lone(xs, at, r)
    ensures v == Mean(MapSeq(xs, SquaredFrom(Mean(xs)))) && Balanced(v, |xs|, xs[at] - r)
  {
    var e := LoneMean(xs, at, r);
    var peak, rest;
    v, peak, rest := LoneFacts(xs, at, r, e);
    BalancedFrom(v, |xs|, xs[at] - r, e, peak, rest);
  }

  lemma {:induction false} TimesPositive(n: nat, x: real)
    requires n > 0 && x > 0.0
    ensures Times(n, x) > 0.0
  {
    if n > 1 {
      TimesPositive(n - 1, x);
    }
  }

  lemma {:induction false} TimesSign(n: nat, x: real)
    ensures x <= 0.0 ==> Times(n, x) <= 0.0
  {
    if n > 0 {
      TimesSign(n - 1, x);
    }
  }

  lemma BalancedPositive(v: real, n: nat, d: real)
    requires n >= 2 && d > 0.0 && Balanced(v, n, d)
    ensures v > 0.0
  {
    var dd := d * d;
    ProductPositive(d, d, dd);
    TimesPositive(n - 1, dd);
    TimesSign(n, Times(n, v));
    TimesSign(n, v);
  }

  lemma LoneQuotient(m: Maths, xs: seq<real>, at: nat, r: real)
    requires Lone(xs, at, r) && |xs| >= 3 && PStdev(m, xs) > 0.0
    ensures RobustZ(m, xs[at], xs) == (xs[at] - r) / PStdev(m, xs)
  {
    LoneBaseline(xs, at, r);
  }

  lemma LoneSpread(m: Maths, xs: seq<real>, at: nat, r: real) returns (spread: real)
    requires LawfulRoots(m) && Lone(xs, at, r) && |xs| >= 3 && xs[at] > r
    ensures spread == PStdev(m, xs) && spread > 0.0 && Balanced(Squared(spread), |xs|, xs[at] - r)
  {
    var v := LoneVariance(xs, at, r);
    BalancedPositive(v, |xs|, xs[at] - r);
    spread := m.sqrt(v);
    assert Squared(spread) == v;
  }

  /** `z` is `n` over the root of n-1. */
  ghost predicate RootRatio(m: Maths, z: real, n: real) {
    z > 0.0 && z * m.sqrt(n - 1.0) == n
  }

  lemma ValueBySquares(z: real, spread: real, v: real, n: real, d: real)
    requires n >= 3.0 && d > 0.0 && spread > 0.0 && spread * spread == v && z * spread == d
    requires n * (n * v) == (n - 1.0) * (d * d)
    ensures z > 0.0 && (z * z) * (n - 1.0) == n * n
  {
    PositiveFactor(z, spread, d);
    var w := z * z;
    assert w * v == d * d by {
      assert w * v == (z * spread) * (z * spread);
    }
    assert n * (n * v) == (n * n) * v;
    assert (n - 1.0) * (w * v) == ((n - 1.0) * w) * v;
    ProductPositive(spread, spread, v);
    CancelFactor(v, n * n, (n - 1.0) * w);
  }

  lemma LoneValue(spread: real, n: nat, d: real)
    requires n >= 3 && d > 0.0 && spread > 0.0 && Balanced(Squared(spread), n, d)
    ensures var z := d / spread; z > 0.0 && (z * z) * (n as real - 1.0) == n as real * n as real
  {
    var v := Squared(spread);
    TimesIsProduct(n, v);
    TimesIsProduct(n, Times(n, v));
    TimesIsProduct(n - 1, d * d);
    QuotientTimes(d, spread);
    ValueBySquares(d / spread, spread, v, n as real, d);
  }

  lemma LoneSquare(m: Maths, xs: seq<real>, at: nat, r: real) returns (z: real)
    requires LawfulRoots(m) && Lone(xs, at, r) && |xs| >= 3 && xs[at] > r
    ensures z == RobustZ(m, xs[at], xs) && z > 0.0 && (z * z) * (|xs| as real - 1.0) == |xs| as real * |xs| as real
  {
    hide RobustZ, PStdev;
    var spread := LoneSpread(m, xs, at, r);
    LoneQuotient(m, xs, at, r);
    z := (xs[at] - r) / spread;
    LoneValue(spread, |xs|, xs[at] - r);
  }

  lemma NonzeroProduct(x: real, y: real)
    requires x != 0.0 && y > 0.0
    ensures x * y != 0.0
  {
    if x > 0.0 {
      ProductPositive(x, y, x * y);
    } else {
      ProductPositive(-x, y, (-x) * y);
      assert (-x) * y == -(x * y);
    }
  }

  /** Squares of positive numbers are equal only when the numbers are. */
  lemma RootForm(m: Maths, z: real, n: real)
    requires LawfulRoots(m) && n >= 3.0 && z > 0.0 && (z * z) * (n - 1.0) == n * n
    ensures RootRatio(m, z, n)
  {
    var root := m.sqrt(n - 1.0);
    var x := z * root;
    assert x * x == (z * z) * (root * root);
    SignOfProduct(z, root);
    assert (x - n) * (x + n) == x * x - n * n;
    if x - n != 0.0 {
      NonzeroProduct(x - n, x + n);
    }
  }

  lemma SquareOrder(z: real, w: real, f: real)
    requires z > 0.0 && f > 0.0 && w == z * z
    ensures z >= 5.1 <==> f * w >= 26.01 * f
  {
    var gap := z * z - 26.01;
    assert gap == (z - 5.1) * (z + 5.1);
    if z >= 5.1 {
      SignOfProduct(z - 5.1, z + 5.1);
    } else {
      ProductPositive(5.1 - z, z + 5.1, (5.1 - z) * (z + 5.1));
      assert (5.1 - z) * (z + 5.1) == -gap;
    }
    assert f * w - 26.01 * f == gap * f;
    if gap >= 0.0 {
      SignOfProduct(gap, f);
    } else {
      ProductPositive(-gap, f, (-gap) * f);
      assert (-gap) * f == -(gap * f);
    }
  }

  lemma BarOnSquares(z: real, w: real, f: real, xx: real)
    requires z > 0.0 && f > 0.0 && w == z * z && w * f == xx
    ensures z >= 5.1 <==> xx >= 26.01 * f
  {
    SquareOrder(z, w, f);
    assert f * w == xx;
  }

  /** 25 is where n*n overtakes 26.01 * (n-1). */
  lemma TwentyFive(n: nat)
    requires n >= 3
    ensures n as real * n as real >= 26.01 * (n as real - 1.0) <==> n >= 25
  {
    var x := n as real;
    if n >= 25 {
      SignOfProduct(x - 25.0, x - 1.01);
      assert (x - 25.0) * (x - 1.01) == x * x - 26.01 * x + 25.25;
    } else {
      SignOfProduct(24.0 - x, x - 2.0);
      assert (24.0 - x) * (x - 2.0) == 26.0 * x - x * x - 48.0;
    }
  }

  lemma BarAtTwentyFive(z: real, n: nat)
    requires n >= 3 && z > 0.0 && (z * z) * (n as real - 1.0) == n as real * n as real
    ensures z >= 5.1 <==> n >= 25
  {
    var x, w := n as real, z * z;
    BarOnSquares(z, w, x - 1.0, x * x);
    TwentyFive(n);
  }

  /** The z-score of a lone burst is n over the root of n-1, so it clears 5.1 on the number of buckets alone. */
  lemma LoneZ(m: Maths, xs: seq<real>, at: nat, r: real)
    requires LawfulRoots(m) && Lone(xs, at, r) && |xs| >= 3 && xs[at] > r
    ensures RootRatio(m, RobustZ(m, xs[at], xs), |xs| as real)
    ensures RobustZ(m, xs[at], xs) >= 5.1 <==> |xs| >= 25
  {
    hide RobustZ;
    var z := LoneSquare(m, xs, at, r);
    RootForm(m, z, |xs| as real);
    BarAtTwentyFive(z, |xs|);
  }

  // --- From the score to the report ---

  /** The loud bucket `k` is the only one that differs. */
  ghost predicate LoneBucket(minutes: Minutes, k: Bucket, r: nat) {
    && k in minutes
    && |minutes[k]| > r
    && forall j :: j in minutes && j != k ==> |minutes[j]| == r
  }

  lemma LoneCounts(minutes: Minutes, k: Bucket, r: nat) returns (at: nat)
    requires LoneBucket(minutes, k, r)
    ensures Lone(BucketCounts(minutes), at, r as real) && BucketCounts(minutes)[at] == |minutes[k]| as real
  {
    var keys := Listing(minutes.Keys);
    AllCollected(keys, BucketCount(minutes));
    assert k in keys;
    at :| 0 <= at < |keys| && keys[at] == k;
    assert |BucketCounts(minutes)| == |keys|;
    forall j | 0 <= j < |keys| && j != at ensures BucketCounts(minutes)[j] == r as real {
      assert keys[j] in keys && keys[j] != k;
      assert Get(minutes, keys[j], []) == minutes[keys[j]];
    }
  }

  lemma ScoreBar(z: real)
    ensures ScoreFromZ(z, 3.0, 10.0) >= MIN_SCORE <==> z >= 5.1
  {}

  lemma QuietScore(m: Maths, xs: seq<real>, at: nat, r: real)
    requires Lone(xs, at, r) && |xs| >= 3
    ensures RobustZ(m, r, xs) == 0.0
  {
    LoneBaseline(xs, at, r);
  }

  /** The score of the loud bucket clears the reporting bar from 25 buckets on; a quiet one scores nothing. */
  lemma LoneScore(m: Maths, minutes: Minutes, k: Bucket, r: nat)
    requires LawfulRoots(m) && LoneBucket(minutes, k, r)
    requires |minutes[k]| >= MIN_BURST_REQUESTS && |minutes| >= 5
    ensures BurstScoring(m, BucketCounts(minutes))(|minutes[k]|) >= MIN_SCORE <==> |minutes| >= 25
    ensures BurstScoring(m, BucketCounts(minutes))(r) == 0.0
  {
    var counts := BucketCounts(minutes);
    var at := LoneCounts(minutes, k, r);
    LoneZ(m, counts, at, r as real);
    ScoreBar(RobustZ(m, counts[at], counts));
    QuietScore(m, counts, at, r as real);
  }

  /** Only the loud bucket is flagged, and it is when it scores at all. */
  lemma OnlyLoud(minutes: Minutes, scoring: nat -> real, k: Bucket, r: nat)
    requires LoneBucket(minutes, k, r) && scoring(r) == 0.0
    ensures scoring(|minutes[k]|) <= 0.0 ==> FlaggedAddresses(minutes, scoring) == {}
    ensures scoring(|minutes[k]|) > 0.0 ==> FlaggedAddresses(minutes, scoring) == {k.0} && FlaggedMinutes(minutes, scoring, k.0) == {k.1}
  {
    var flag := IsFlagged(minutes, scoring);
    forall j | j in minutes ensures flag(j) <==> j == k && scoring(|minutes[k]|) > 0.0 {
      assert Get(minutes, j, []) == minutes[j];
      assert flag(j) <==> scoring(|minutes[j]|) > 0.0;
    }
    if scoring(|minutes[k]|) > 0.0 {
      assert Members(minutes.Keys, flag, AddressOf, k.0) == {k};
    }
  }

  lemma Singleton<T(!new)>(xs: seq<T>, x: T)
    requires Enumerates(xs, {x})
    ensures xs == [x]
  {
    EnumerationLength(xs, {x});
    assert xs[0] in xs;
  }

  lemma LoudWindow(minutes: Minutes, scoring: nat -> real, k: Bucket, r: nat)
    requires LoneBucket(minutes, k, r) && scoring(r) == 0.0 && scoring(|minutes[k]|) > 0.0
    ensures |FlaggedWindows(minutes, scoring, k.0)| == 1
    ensures FlaggedWindows(minutes, scoring, k.0)[0].score == scoring(|minutes[k]|)
  {
    OnlyLoud(minutes, scoring, k, r);
    Singleton(SortedInts({k.1}), k.1);
    assert (k.0, k.1) == k;
    assert FlaggedWindows(minutes, scoring, k.0)[0] == MakeWindow(minutes, scoring, k);
  }

  lemma CollectOne<K>(k: K, f: K -> Option<Candidate>)
    ensures Collect([k], f) == OptionSeq(f(k))
  {
    assert [k][..0] == [];
  }

  lemma OneWindow(median: real, ip: string, windows: seq<Window>)
    requires |windows| == 1
    ensures BurstFrom(median, ip, windows).Some?
    ensures BurstFrom(median, ip, windows).value.score == windows[0].score
    ensures BurstFrom(median, ip, windows).value.title == "Request burst from " + ip
  {}

  lemma LoneFinding(minutes: Minutes, scoring: nat -> real, median: real, k: Bucket, r: nat)
    requires LoneBucket(minutes, k, r) && scoring(r) == 0.0
    ensures var found := BurstsOf(minutes, scoring, median);
      if scoring(|minutes[k]|) > 0.0
      then |found| == 1 && found[0].score == scoring(|minutes[k]|) && found[0].title == "Request burst from " + k.0
      else found == []
  {
    OnlyLoud(minutes, scoring, k, r);
    if scoring(|minutes[k]|) > 0.0 {
      LoudWindow(minutes, scoring, k, r);
      OneWindow(median, k.0, FlaggedWindows(minutes, scoring, k.0));
      Singleton(Listing({k.0}), k.0);
      CollectOne(k.0, Burst(minutes, scoring, median));
    }
  }

  lemma OneRanked(out: seq<Candidate>, cs: seq<Candidate>)
    requires Ranks(out, cs) && |cs| <= 1
    ensures out == if |cs| == 1 && cs[0].score >= MIN_SCORE then cs else []
  {
    var kept := Collect(cs, Keep);
    assert |Kept(cs)| == |kept|;
    if |cs| == 1 {
      assert cs[..0] == [];
      assert kept == OptionSeq(Keep(cs[0]));
      if |kept| == 1 {
        assert out[0] in multiset(out);
        assert multiset(kept) == multiset{cs[0]};
      }
    }
  }

  /** A lone burst is reported exactly when it has company enough, whatever its size. */
  lemma LoneBurstReported(m: Maths, p: Aggregate, k: Bucket, r: nat, out: seq<Candidate>)
    requires LawfulRoots(m) && LoneBucket(p.ipMinute, k, r) && |p.ipMinute[k]| >= MIN_BURST_REQUESTS
    requires Ranks(out, Bursts(m, p))
    ensures |p.ipMinute| >= 25 ==> |out| == 1 && out[0].title == "Request burst from " + k.0
    ensures |p.ipMinute| < 25 ==> out == []
  {
    if |p.ipMinute| >= 5 {
      var minutes := p.ipMinute;
      var counts := BucketCounts(minutes);
      var scoring, median := BurstScoring(m, counts), Median(counts);
      LoneScore(m, minutes, k, r);
      LoneFinding(minutes, scoring, median, k, r);
      OneRanked(out, BurstsOf(minutes, scoring, median));
    } else {
      assert Kept([]) == multiset{};
    }
  }
}
