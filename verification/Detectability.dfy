/** What the detectors cannot miss: check-ins that keep time within a jitter bound, and uploads or bursts far
    above the majority of their peers, whatever else is in the log. */
module Detectability {
  import opened Common
  import opened Dictionaries
  import opened LogEntries
  import opened Aggregates
  import opened Statistics
  import opened Candidates
  import opened VolumeSpikes
  import opened GroupDetectors
  import opened LoneBurst

  // --- Check-ins ---

  ghost predicate Within(xs: seq<real>, lo: real, hi: real) {
    forall i :: 0 <= i < |xs| ==> lo <= xs[i] <= hi
  }

  lemma {:induction false} TotalWithin(xs: seq<real>, lo: real, hi: real)
    requires Within(xs, lo, hi)
    ensures Times(|xs|, lo) <= Total(xs) <= Times(|xs|, hi)
  {
    if |xs| > 0 {
      TotalWithin(xs[..|xs| - 1], lo, hi);
    }
  }

  lemma QuotientBetween(q: real, n: real, lo: real, hi: real)
    requires n > 0.0 && n * lo <= n * q <= n * hi
    ensures lo <= q <= hi
  {
    if q < lo {
      ProductPositive(lo - q, n, (lo - q) * n);
    }
    if hi < q {
      ProductPositive(q - hi, n, (q - hi) * n);
    }
  }

  lemma MeanProduct(xs: seq<real>)
    requires |xs| > 0
    ensures |xs| as real * Mean(xs) == Total(xs)
  {
    QuotientTimes(Total(xs), |xs| as real);
  }

  lemma MeanWithin(xs: seq<real>, lo: real, hi: real)
    requires |xs| > 0 && Within(xs, lo, hi)
    ensures lo <= Mean(xs) <= hi
  {
    hide Mean, Times;
    var n := |xs| as real;
    TotalWithin(xs, lo, hi);
    TimesIsProduct(|xs|, lo);
    TimesIsProduct(|xs|, hi);
    MeanProduct(xs);
    QuotientBetween(Mean(xs), n, lo, hi);
  }

  lemma SquareAtMost(x: real, w: real)
    requires -w <= x <= w
    ensures 0.0 <= x * x <= w * w
  {
    SignOfProduct(w - x, w + x);
    assert (w - x) * (w + x) == w * w - x * x;
  }

  lemma SquareRootAtMost(s: real, w: real)
    requires s >= 0.0 && w >= 0.0 && s * s <= w * w
    ensures s <= w
  {
    assert (s - w) * (s + w) == s * s - w * w;
    if s > w {
      ProductPositive(s - w, s + w, (s - w) * (s + w));
    }
  }

  lemma SquaresWithin(xs: seq<real>, lo: real, hi: real, mean: real)
    requires Within(xs, lo, hi) && lo <= mean <= hi
    ensures Within(MapSeq(xs, SquaredFrom(mean)), 0.0, (hi - lo) * (hi - lo))
  {
    forall i | 0 <= i < |xs| ensures 0.0 <= MapSeq(xs, SquaredFrom(mean))[i] <= (hi - lo) * (hi - lo) {
      SquareAtMost(xs[i] - mean, hi - lo);
    }
  }

  /** Values in an interval deviate by no more than its width. */
  lemma SpreadWithin(m: Maths, xs: seq<real>, lo: real, hi: real)
    requires LawfulRoots(m) && |xs| > 0 && Within(xs, lo, hi)
    ensures 0.0 <= PStdev(m, xs) <= hi - lo
  {
    var mean, w := Mean(xs), (hi - lo) * (hi - lo);
    MeanWithin(xs, lo, hi);
    var squares := MapSeq(xs, SquaredFrom(mean));
    SquaresWithin(xs, lo, hi, mean);
    MeanWithin(squares, 0.0, w);
    SquareRootAtMost(m.sqrt(Mean(squares)), hi - lo);
  }

  lemma {:induction false} AllPositive(gaps: seq<real>)
    requires forall i :: 0 <= i < |gaps| ==> gaps[i] > 0.0
    ensures Collect(gaps, Positive) == gaps
  {
    if |gaps| > 0 {
      var n := |gaps| - 1;
      AllPositive(gaps[..n]);
      assert gaps == gaps[..n] + [gaps[n]];
    }
  }

  /** Consecutive hits lie between `lo` and `hi` seconds apart. */
  ghost predicate Paced(ordered: seq<Hit>, lo: real, hi: real) {
    forall i :: 0 <= i < |ordered| - 1 ==> lo <= ordered[i + 1].0 - ordered[i].0 <= hi
  }

  lemma PacedGaps(ordered: seq<Hit>, lo: real, hi: real) returns (gaps: seq<real>)
    requires |ordered| > 0 && Paced(ordered, lo, hi) && lo > 0.0
    ensures gaps == Collect(Gaps(MapSeq(ordered, TimeOf)), Positive)
    ensures |gaps| == |ordered| - 1 && Within(gaps, lo, hi)
  {
    gaps := Gaps(MapSeq(ordered, TimeOf));
    forall i | 0 <= i < |gaps| ensures lo <= gaps[i] <= hi {
      assert gaps[i] == ordered[i + 1].0 - ordered[i].0;
    }
    AllPositive(gaps);
  }

  /** The share of the mean that the spread may take. */
  lemma SpreadShare(spread: real, mean: real, lo: real, hi: real, share: real)
    requires 0.0 < lo <= mean && 0.0 <= spread <= hi - lo <= share * lo && share >= 0.0
    ensures spread / mean <= share
  {
    SignOfProduct(share, mean - lo);
    assert share * (mean - lo) == share * mean - share * lo;
    QuotientTimes(spread, mean);
    QuotientBetween(spread / mean, mean, 0.0, share);
  }

  function Steadiness(spread: real): real {
    MinReal(1.0, (0.20 - spread) / 0.18)
  }

  lemma SteadierScoresMore(spread: real, share: real)
    requires spread <= share
    ensures Steadiness(spread) >= Steadiness(share)
    ensures share <= 0.146 ==> Steadiness(share) >= MIN_SCORE
    ensures share <= 0.02 ==> Steadiness(share) == 1.0
    ensures Steadiness(spread) <= 1.0
  {}

  /** What the judge makes of the mean gap and the spread over it. */
  lemma BeaconVerdict(m: Maths, k: Pair, ordered: seq<Hit>, gaps: seq<real>)
    requires |ordered| >= MIN_BEACON_HITS && |gaps| >= MIN_BEACON_HITS - 1
    requires gaps == Collect(Gaps(MapSeq(ordered, TimeOf)), Positive) && Mean(gaps) > 0.0
    ensures BeaconFrom(m, k, ordered).Some? <==> 5.0 <= Mean(gaps) <= 86400.0 && PStdev(m, gaps) / Mean(gaps) <= 0.20
    ensures BeaconFrom(m, k, ordered).Some? ==>
      BeaconFrom(m, k, ordered).value.score == Steadiness(PStdev(m, gaps) / Mean(gaps))
  {}

  lemma SteadyGaps(m: Maths, gaps: seq<real>, lo: real, hi: real, share: real)
    requires LawfulRoots(m) && |gaps| > 0 && Within(gaps, lo, hi) && 0.0 < lo
    requires hi - lo <= share * lo && 0.0 <= share
    ensures lo <= Mean(gaps) <= hi && PStdev(m, gaps) / Mean(gaps) <= share
  {
    MeanWithin(gaps, lo, hi);
    SpreadWithin(m, gaps, lo, hi);
    SpreadShare(PStdev(m, gaps), Mean(gaps), lo, hi, share);
  }

  lemma SteadyVerdict(m: Maths, k: Pair, ordered: seq<Hit>, lo: real, hi: real, share: real) returns (found: Candidate, spread: real)
    requires LawfulRoots(m) && |ordered| >= MIN_BEACON_HITS && Paced(ordered, lo, hi)
    requires 5.0 <= lo && hi <= 86400.0 && hi - lo <= share * lo && 0.0 <= share <= 0.20
    ensures BeaconFrom(m, k, ordered) == Some(found) && found.score == Steadiness(spread) && spread <= share
  {
    var gaps := PacedGaps(ordered, lo, hi);
    SteadyGaps(m, gaps, lo, hi, share);
    BeaconVerdict(m, k, ordered, gaps);
    found := BeaconFrom(m, k, ordered).value;
    spread := PStdev(m, gaps) / Mean(gaps);
  }

  /** A flow of twelve or more hits whose gaps differ by at most a share of the shortest is found, the surer the
      steadier: within 14.6 percent it clears the reporting bar, within 2 percent it is certain. */
  lemma SteadyFlowFound(m: Maths, k: Pair, hits: seq<Hit>, lo: real, hi: real, share: real) returns (found: Candidate)
    requires LawfulRoots(m) && |hits| >= MIN_BEACON_HITS && Paced(Sort(hits, HitLe), lo, hi)
    requires 5.0 <= lo && hi <= 86400.0 && hi - lo <= share * lo && 0.0 <= share <= 0.20
    ensures JudgeBeacon(m, k, hits) == Some(found) && found.score >= Steadiness(share)
    ensures share <= 0.146 ==> found.score >= MIN_SCORE
    ensures share <= 0.02 ==> found.score == 1.0
  {
    var spread;
    found, spread := SteadyVerdict(m, k, Sort(hits, HitLe), lo, hi, share);
    SteadierScoresMore(spread, share);
  }

  lemma OffPaceGaps(m: Maths, k: Pair, ordered: seq<Hit>, lo: real, hi: real)
    requires |ordered| >= MIN_BEACON_HITS && Paced(ordered, lo, hi) && lo > 0.0 && (hi < 5.0 || lo > 86400.0)
    ensures BeaconFrom(m, k, ordered).None?
  {
    var gaps := PacedGaps(ordered, lo, hi);
    MeanWithin(gaps, lo, hi);
    BeaconVerdict(m, k, ordered, gaps);
  }

  /** A flow whose gaps are all shorter than five seconds, or all longer than a day, is never a check-in. */
  lemma OffPaceIgnored(m: Maths, k: Pair, hits: seq<Hit>, lo: real, hi: real)
    requires Paced(Sort(hits, HitLe), lo, hi) && lo > 0.0 && (hi < 5.0 || lo > 86400.0)
    ensures JudgeBeacon(m, k, hits).None?
  {
    if |hits| >= MIN_BEACON_HITS {
      OffPaceGaps(m, k, Sort(hits, HitLe), lo, hi);
    }
  }

  // --- Uploads and bursts ---

  /** One upload far enough above the majority of all uploads makes its flow certain, whatever the minority is. */
  lemma HugeTransferIsCertain(m: Maths, logs: seq<real>, k: Pair, g: ByteStats, lo: real, hi: real, size: real)
    requires Majority(logs, lo, hi) && |logs| >= 2 && Mad(logs, Median(logs)) != 0.0
    requires size in g.logValues && size >= hi + 12.0 * MAD_SCALE * (hi - lo)
    ensures JudgeTransfer(m, logs, k, g).Some? && JudgeTransfer(m, logs, k, g).value.score == 1.0
  {
    OutlierIsCertain(m, logs, lo, hi, Largest(g.logValues), 7.0);
  }

  lemma WindowOfMinute(minutes: Minutes, scoring: nat -> real, k: Bucket) returns (at: nat)
    requires k in minutes && scoring(|minutes[k]|) > 0.0
    ensures at < |FlaggedWindows(minutes, scoring, k.0)|
    ensures FlaggedWindows(minutes, scoring, k.0)[at] == MakeWindow(minutes, scoring, k)
  {
    var times := SortedInts(FlaggedMinutes(minutes, scoring, k.0));
    assert Get(minutes, k, []) == minutes[k];
    assert k in Members(minutes.Keys, IsFlagged(minutes, scoring), AddressOf, k.0);
    assert k.1 in FlaggedMinutes(minutes, scoring, k.0);
    assert k.1 in times;
    at :| at < |times| && times[at] == k.1;
    assert (k.0, k.1) == k;
  }

  /** One certain minute makes its address certain. */
  lemma CertainMinute(minutes: Minutes, scoring: nat -> real, median: real, k: Bucket)
    requires k in minutes && scoring(|minutes[k]|) == 1.0
    requires forall n: nat :: scoring(n) <= 1.0
    ensures Burst(minutes, scoring, median)(k.0).Some? && Burst(minutes, scoring, median)(k.0).value.score == 1.0
  {
    var windows := FlaggedWindows(minutes, scoring, k.0);
    var at := WindowOfMinute(minutes, scoring, k);
    assert MapSeq(windows, ScoreOf)[at] == 1.0;
    forall i | 0 <= i < |windows| ensures MapSeq(windows, ScoreOf)[i] <= 1.0 {
      var t := SortedInts(FlaggedMinutes(minutes, scoring, k.0))[i];
      assert windows[i] == MakeWindow(minutes, scoring, (k.0, t));
    }
  }

  /** A minute far enough above the majority of minutes makes its address certain. */
  lemma HugeBurstIsCertain(m: Maths, minutes: Minutes, k: Bucket, lo: real, hi: real)
    requires k in minutes && |minutes[k]| >= MIN_BURST_REQUESTS
    requires var counts := BucketCounts(minutes);
      |counts| >= 2 && Majority(counts, lo, hi) && Mad(counts, Median(counts)) != 0.0
    requires |minutes[k]| as real >= hi + 12.0 * MAD_SCALE * (hi - lo)
    ensures var counts := BucketCounts(minutes);
      var found := Burst(minutes, BurstScoring(m, counts), Median(counts))(k.0);
      found.Some? && found.value.score == 1.0
  {
    hide Collect;
    var counts := BucketCounts(minutes);
    OutlierIsCertain(m, counts, lo, hi, |minutes[k]| as real, 10.0);
    CertainMinute(minutes, BurstScoring(m, counts), Median(counts), k);
  }
}
