/** What is reported of bursts, in terms of the rows: an address, the minutes in which it made far more requests than addresses
    do in a minute, and all its rows of those minutes. */
module BurstFindings {
  import opened Common
  import opened Dictionaries
  import opened LogEntries
  import opened Aggregates
  import opened Statistics
  import opened Candidates
  import opened VolumeSpikes
  import opened Readings
  import opened Figures
  import opened GroupFindings

  /** How many rows the address has in the minute from `start` on. */
  ghost function SizeIn(es: seq<LogEntry>, ip: string, start: int): nat {
    |Through(es, MinuteRows(ip, start), RowId)|
  }

  ghost predicate SizesOf(es: seq<LogEntry>, buckets: seq<Bucket>, sizes: seq<real>) {
    && NoDup(buckets) && |sizes| == |buckets|
    && (forall ip, start :: (ip, start) in buckets <==> AnyRow(es, MinuteRows(ip, start)))
    && (forall i :: 0 <= i < |buckets| ==> sizes[i] == SizeIn(es, buckets[i].0, buckets[i].1) as real)
  }

  /** The sizes of all pairs of an address and a minute with a row. */
  ghost predicate IsSizes(es: seq<LogEntry>, sizes: seq<real>) {
    exists buckets :: SizesOf(es, buckets, sizes)
  }

  /** A minute of twenty rows or more, scored by how many spreads it lies above the median. */
  ghost predicate FlaggedBy(m: Maths, es: seq<LogEntry>, sizes: seq<real>, ip: string, start: int, z: real, score: real) {
    SizeIn(es, ip, start) >= 20 && IsRobustZ(m, SizeIn(es, ip, start) as real, sizes, z) && IsScore(z, 10.0, score)
  }

  ghost predicate Flagged(m: Maths, es: seq<LogEntry>, sizes: seq<real>, ip: string, start: int, score: real) {
    exists z :: FlaggedBy(m, es, sizes, ip, start, z, score)
  }

  ghost function RowsIn(es: seq<LogEntry>, ip: string, starts: seq<int>): seq<int> {
    if |starts| == 0 then []
    else RowsIn(es, ip, starts[..|starts| - 1]) + Through(es, MinuteRows(ip, starts[|starts| - 1]), RowId)
  }

  /** `starts` are the flagged minutes of an address, in time order. */
  ghost predicate FlaggedStarts(m: Maths, es: seq<LogEntry>, sizes: seq<real>, ip: string, starts: seq<int>) {
    && (forall i, j :: 0 <= i < j < |starts| ==> starts[i] < starts[j])
    && (forall start :: start in starts <==> exists score :: Flagged(m, es, sizes, ip, start, score))
  }

  ghost predicate BestScore(m: Maths, es: seq<LogEntry>, sizes: seq<real>, ip: string, starts: seq<int>, score: real) {
    && (exists i :: 0 <= i < |starts| && Flagged(m, es, sizes, ip, starts[i], score))
    && (forall i, other :: 0 <= i < |starts| && Flagged(m, es, sizes, ip, starts[i], other) ==> other <= score)
  }

  ghost predicate LargestSize(es: seq<LogEntry>, ip: string, starts: seq<int>, peak: int) {
    && (exists i :: 0 <= i < |starts| && SizeIn(es, ip, starts[i]) == peak)
    && (forall i :: 0 <= i < |starts| ==> SizeIn(es, ip, starts[i]) <= peak)
  }

  ghost predicate BurstBy(m: Maths, es: seq<LogEntry>, sizes: seq<real>, ip: string, c: Candidate,
                          starts: seq<int>, peak: int, score: real, median: real) {
    && FlaggedStarts(m, es, sizes, ip, starts) && |starts| > 0
    && BestScore(m, es, sizes, ip, starts, score) && LargestSize(es, ip, starts, peak) && IsMedian(sizes, median)
    && c == Candidate("volume_spike", "Request burst from " + ip, score, RowsIn(es, ip, starts),
                      BurstEvidence(ip, peak, median, |starts|, starts[0], starts[|starts| - 1], |RowsIn(es, ip, starts)|))
  }

  ghost predicate BurstFinding(m: Maths, es: seq<LogEntry>, sizes: seq<real>, ip: string, c: Candidate) {
    exists starts, peak, score, median :: BurstBy(m, es, sizes, ip, c, starts, peak, score, median)
  }

  /** Nothing is judged with fewer than five pairs of an address and a minute. */
  ghost function FindsBursts(m: Maths, es: seq<LogEntry>): Candidate -> bool {
    c => exists sizes, ip :: IsSizes(es, sizes) && |sizes| >= 5 && BurstFinding(m, es, sizes, ip, c)
  }

  // --- Sizes ---

  lemma SizesListed(minutes: Minutes, es: seq<LogEntry>, buckets: seq<Bucket>, sizes: seq<real>)
    requires MinutesRead(minutes, es) && SizesOf(es, buckets, sizes)
    ensures sizes == Collect(buckets, BucketCount(minutes)) && Enumerates(buckets, minutes.Keys)
  {
    hide Through, AnyRow;
    forall k: Bucket ensures k in buckets <==> k in minutes.Keys {
      var (ip, start) := k;
      assert k in buckets <==> AnyRow(es, MinuteRows(ip, start));
    }
    AllCollected(buckets, BucketCount(minutes));
    forall i | 0 <= i < |buckets| ensures sizes[i] == Collect(buckets, BucketCount(minutes))[i] {
      var k: Bucket := buckets[i];
      assert (k.0, k.1) == k && k in buckets;
    }
  }

  lemma SizesArePermuted(minutes: Minutes, es: seq<LogEntry>, sizes: seq<real>)
    requires MinutesRead(minutes, es) && IsSizes(es, sizes)
    ensures multiset(sizes) == multiset(BucketCounts(minutes))
  {
    hide Collect, SizesOf, MinutesRead, Listing;
    var buckets: seq<Bucket> :| SizesOf(es, buckets, sizes);
    SizesListed(minutes, es, buckets, sizes);
    EnumerationsPermute(buckets, Listing(minutes.Keys), minutes.Keys);
    CollectPermutes(buckets, Listing(minutes.Keys), BucketCount(minutes));
  }

  lemma CountsAreSizes(minutes: Minutes, es: seq<LogEntry>)
    requires MinutesRead(minutes, es)
    ensures IsSizes(es, BucketCounts(minutes))
  {
    var buckets, counts := Listing(minutes.Keys), BucketCounts(minutes);
    AllCollected(buckets, BucketCount(minutes));
    forall i | 0 <= i < |buckets| ensures var k: Bucket := buckets[i]; counts[i] == SizeIn(es, k.0, k.1) as real {
      var k: Bucket := buckets[i];
      assert (k.0, k.1) == k && k in buckets;
    }
    assert SizesOf(es, buckets, counts);
  }

  // --- Flagged minutes ---

  lemma SizeRead(minutes: Minutes, es: seq<LogEntry>, ip: string, start: int)
    requires MinutesRead(minutes, es)
    ensures SizeIn(es, ip, start) == |Get(minutes, (ip, start), [])|
  {
    ThroughSome(es, MinuteRows(ip, start), RowId);
  }

  lemma FlaggedIff(m: Maths, es: seq<LogEntry>, sizes: seq<real>, ip: string, start: int, score: real)
    ensures Flagged(m, es, sizes, ip, start, score)
       <==> BurstScoring(m, sizes)(SizeIn(es, ip, start)) > 0.0 && score == BurstScoring(m, sizes)(SizeIn(es, ip, start))
  {
    hide IsRobustZ, RobustZ, IsScore, ScoreFromZ;
    var n := SizeIn(es, ip, start);
    var z := RobustZ(m, n as real, sizes);
    forall x ensures FlaggedBy(m, es, sizes, ip, start, x, score) <==> n >= 20 && x == z && IsScore(z, 10.0, score) {
      RobustZIff(m, n as real, sizes, x);
    }
    assert FlaggedBy(m, es, sizes, ip, start, z, score) <==> n >= 20 && IsScore(z, 10.0, score);
    ScoreIff(z, 10.0, score);
    ScorePositive(z, 10.0);
  }

  lemma MinuteFlagged(m: Maths, minutes: Minutes, es: seq<LogEntry>, sizes: seq<real>, ip: string, start: int)
    requires MinutesRead(minutes, es)
    ensures start in FlaggedMinutes(minutes, BurstScoring(m, sizes), ip) <==> exists score :: Flagged(m, es, sizes, ip, start, score)
  {
    hide Flagged, RobustZ, ScoreFromZ, MinutesRead;
    var scoring := BurstScoring(m, sizes);
    SizeRead(minutes, es, ip, start);
    forall score ensures Flagged(m, es, sizes, ip, start, score)
      <==> scoring(SizeIn(es, ip, start)) > 0.0 && score == scoring(SizeIn(es, ip, start))
    {
      FlaggedIff(m, es, sizes, ip, start, score);
    }
    assert Flagged(m, es, sizes, ip, start, scoring(SizeIn(es, ip, start))) <==> scoring(SizeIn(es, ip, start)) > 0.0;
    if scoring(SizeIn(es, ip, start)) > 0.0 {
      assert (ip, start) in Members(minutes.Keys, IsFlagged(minutes, scoring), AddressOf, ip);
    }
  }

  lemma StartsIff(m: Maths, minutes: Minutes, es: seq<LogEntry>, sizes: seq<real>, ip: string, starts: seq<int>)
    requires MinutesRead(minutes, es)
    ensures FlaggedStarts(m, es, sizes, ip, starts) <==> starts == SortedInts(FlaggedMinutes(minutes, BurstScoring(m, sizes), ip))
  {
    hide Flagged, MinutesRead, FlaggedMinutes;
    var flagged := FlaggedMinutes(minutes, BurstScoring(m, sizes), ip);
    forall start ensures start in flagged <==> exists score :: Flagged(m, es, sizes, ip, start, score) {
      MinuteFlagged(m, minutes, es, sizes, ip, start);
    }
    OnceAscending(starts, flagged);
  }

  // --- The finding of one address ---

  lemma {:induction false} WindowIds(minutes: Minutes, es: seq<LogEntry>, scoring: nat -> real, ip: string, starts: seq<int>)
    requires MinutesRead(minutes, es) && forall i :: 0 <= i < |starts| ==> (ip, starts[i]) in minutes
    ensures Flatten(MapSeq(MapSeq(starts, WindowAt(minutes, scoring, ip)), IdsOf)) == RowsIn(es, ip, starts)
  {
    if |starts| > 0 {
      var n := |starts| - 1;
      var windows := MapSeq(starts, WindowAt(minutes, scoring, ip));
      WindowIds(minutes, es, scoring, ip, starts[..n]);
      assert MapSeq(windows, IdsOf)[..n] == MapSeq(MapSeq(starts[..n], WindowAt(minutes, scoring, ip)), IdsOf);
      assert MapSeq(windows, IdsOf)[n] == Through(es, MinuteRows(ip, starts[n]), RowId);
    }
  }

  lemma ScoreAt(m: Maths, minutes: Minutes, es: seq<LogEntry>, sizes: seq<real>, ip: string, start: int, score: real)
    requires MinutesRead(minutes, es) && start in FlaggedMinutes(minutes, BurstScoring(m, sizes), ip)
    ensures Flagged(m, es, sizes, ip, start, score) <==> score == ScoreOf(WindowAt(minutes, BurstScoring(m, sizes), ip)(start))
  {
    hide Flagged, MinutesRead, BurstScoring;
    SizeRead(minutes, es, ip, start);
    FlaggedIff(m, es, sizes, ip, start, score);
  }

  lemma BestOf(m: Maths, es: seq<LogEntry>, sizes: seq<real>, ip: string, starts: seq<int>, scores: seq<real>, score: real)
    requires |starts| == |scores| > 0
    requires forall i, other :: 0 <= i < |starts| ==> (Flagged(m, es, sizes, ip, starts[i], other) <==> other == scores[i])
    ensures BestScore(m, es, sizes, ip, starts, score) <==> score == Largest(scores)
  {
    hide Flagged;
    var best := Largest(scores);
    var i :| 0 <= i < |scores| && scores[i] == best;
    assert Flagged(m, es, sizes, ip, starts[i], best);
    if score == best {
      assert BestScore(m, es, sizes, ip, starts, score);
    }
  }

  lemma BestIff(m: Maths, minutes: Minutes, es: seq<LogEntry>, sizes: seq<real>, ip: string, starts: seq<int>, score: real)
    requires MinutesRead(minutes, es) && |starts| > 0
    requires forall i :: 0 <= i < |starts| ==> starts[i] in FlaggedMinutes(minutes, BurstScoring(m, sizes), ip)
    ensures BestScore(m, es, sizes, ip, starts, score)
       <==> score == Largest(MapSeq(MapSeq(starts, WindowAt(minutes, BurstScoring(m, sizes), ip)), ScoreOf))
  {
    hide Flagged, MinutesRead, BurstScoring, FlaggedMinutes, WindowAt, ScoreOf;
    var windows := MapSeq(starts, WindowAt(minutes, BurstScoring(m, sizes), ip));
    var scores := MapSeq(windows, ScoreOf);
    forall i, other | 0 <= i < |starts|
      ensures Flagged(m, es, sizes, ip, starts[i], other) <==> other == scores[i]
    {
      ScoreAt(m, minutes, es, sizes, ip, starts[i], other);
      assert windows[i] == WindowAt(minutes, BurstScoring(m, sizes), ip)(starts[i]);
    }
    BestOf(m, es, sizes, ip, starts, scores, score);
  }

  lemma PeakIff(minutes: Minutes, es: seq<LogEntry>, scoring: nat -> real, ip: string, starts: seq<int>, peak: int)
    requires MinutesRead(minutes, es) && |starts| > 0
    ensures LargestSize(es, ip, starts, peak) <==> peak == LargestInt(MapSeq(MapSeq(starts, WindowAt(minutes, scoring, ip)), SizeOf))
  {
    hide MinutesRead;
    var found := MapSeq(MapSeq(starts, WindowAt(minutes, scoring, ip)), SizeOf);
    forall i | 0 <= i < |starts| ensures SizeIn(es, ip, starts[i]) == found[i] {
      SizeRead(minutes, es, ip, starts[i]);
    }
  }

  ghost predicate BurstShape(minutes: Minutes, scoring: nat -> real, median: real, ip: string, starts: seq<int>, c: Candidate) {
    var windows := MapSeq(starts, WindowAt(minutes, scoring, ip));
    var ids := Flatten(MapSeq(windows, IdsOf));
    && |starts| > 0
    && c == Candidate("volume_spike", "Request burst from " + ip, Largest(MapSeq(windows, ScoreOf)), ids,
                      BurstEvidence(ip, LargestInt(MapSeq(windows, SizeOf)), median, |starts|, starts[0], starts[|starts| - 1], |ids|))
  }

  lemma BurstFromIff(median: real, ip: string, windows: seq<Window>, c: Candidate)
    ensures BurstFrom(median, ip, windows) == Some(c) <==>
      (|windows| > 0 &&
       c == Candidate("volume_spike", "Request burst from " + ip, Largest(MapSeq(windows, ScoreOf)), Flatten(MapSeq(windows, IdsOf)),
                      BurstEvidence(ip, LargestInt(MapSeq(windows, SizeOf)), median, |windows|, windows[0].minute,
                                    windows[|windows| - 1].minute, |Flatten(MapSeq(windows, IdsOf))|)))
  {
    hide Flatten, MapSeq;
  }

  lemma BurstUnfolds(minutes: Minutes, scoring: nat -> real, median: real, ip: string, starts: seq<int>, c: Candidate)
    requires starts == SortedInts(FlaggedMinutes(minutes, scoring, ip))
    ensures Burst(minutes, scoring, median)(ip) == Some(c) <==> BurstShape(minutes, scoring, median, ip, starts, c)
  {
    hide Flatten, FlaggedMinutes, BurstFrom;
    BurstFromIff(median, ip, MapSeq(starts, WindowAt(minutes, scoring, ip)), c);
  }

  lemma StartsPresent(m: Maths, minutes: Minutes, sizes: seq<real>, ip: string)
    ensures forall i :: 0 <= i < |SortedInts(FlaggedMinutes(minutes, BurstScoring(m, sizes), ip))| ==>
      var start := SortedInts(FlaggedMinutes(minutes, BurstScoring(m, sizes), ip))[i];
      start in FlaggedMinutes(minutes, BurstScoring(m, sizes), ip) && (ip, start) in minutes
  {
    hide BurstScoring;
    var starts := SortedInts(FlaggedMinutes(minutes, BurstScoring(m, sizes), ip));
    forall i | 0 <= i < |starts| ensures starts[i] in FlaggedMinutes(minutes, BurstScoring(m, sizes), ip) && (ip, starts[i]) in minutes {
      assert starts[i] in starts;
    }
  }

  lemma BurstOnly(m: Maths, minutes: Minutes, es: seq<LogEntry>, sizes: seq<real>, ip: string, c: Candidate)
    requires MinutesRead(minutes, es) && |sizes| > 0 && BurstFinding(m, es, sizes, ip, c)
    ensures Burst(minutes, BurstScoring(m, sizes), Median(sizes))(ip) == Some(c)
  {
    hide FlaggedStarts, BestScore, LargestSize, IsMedian, Median, MinutesRead, FlaggedMinutes, BurstScoring, RowsIn, Flatten, Burst, MapSeq;
    var starts, peak, score, median :| BurstBy(m, es, sizes, ip, c, starts, peak, score, median);
    StartsIff(m, minutes, es, sizes, ip, starts);
    StartsPresent(m, minutes, sizes, ip);
    WindowIds(minutes, es, BurstScoring(m, sizes), ip, starts);
    BestIff(m, minutes, es, sizes, ip, starts, score);
    PeakIff(minutes, es, BurstScoring(m, sizes), ip, starts, peak);
    MedianIff(sizes, median);
    BurstUnfolds(minutes, BurstScoring(m, sizes), Median(sizes), ip, starts, c);
  }

  lemma BurstJudged(m: Maths, minutes: Minutes, es: seq<LogEntry>, sizes: seq<real>, ip: string, c: Candidate)
    requires MinutesRead(minutes, es) && |sizes| > 0
    requires Burst(minutes, BurstScoring(m, sizes), Median(sizes))(ip) == Some(c)
    ensures BurstFinding(m, es, sizes, ip, c)
  {
    hide FlaggedStarts, BestScore, LargestSize, IsMedian, Median, MinutesRead, FlaggedMinutes, BurstScoring, RowsIn, Flatten, Burst, MapSeq;
    var starts := SortedInts(FlaggedMinutes(minutes, BurstScoring(m, sizes), ip));
    BurstUnfolds(minutes, BurstScoring(m, sizes), Median(sizes), ip, starts, c);
    var peak := LargestInt(MapSeq(MapSeq(starts, WindowAt(minutes, BurstScoring(m, sizes), ip)), SizeOf));
    StartsIff(m, minutes, es, sizes, ip, starts);
    StartsPresent(m, minutes, sizes, ip);
    WindowIds(minutes, es, BurstScoring(m, sizes), ip, starts);
    BestIff(m, minutes, es, sizes, ip, starts, c.score);
    PeakIff(minutes, es, BurstScoring(m, sizes), ip, starts, peak);
    MedianIff(sizes, Median(sizes));
    assert BurstBy(m, es, sizes, ip, c, starts, peak, c.score, Median(sizes));
  }

  // --- All addresses ---

  lemma FlaggedListed(minutes: Minutes, scoring: nat -> real, median: real, ip: string)
    requires Burst(minutes, scoring, median)(ip).Some?
    ensures ip in FlaggedAddresses(minutes, scoring)
  {
    var starts := SortedInts(FlaggedMinutes(minutes, scoring, ip));
    assert |starts| > 0;
    assert starts[0] in starts;
    var k :| k in Members(minutes.Keys, IsFlagged(minutes, scoring), AddressOf, ip) && k.1 == starts[0];
    assert AddressOf(k) == ip;
  }

  lemma BurstMember(minutes: Minutes, scoring: nat -> real, median: real, c: Candidate)
    ensures c in BurstsOf(minutes, scoring, median) <==> exists ip :: Burst(minutes, scoring, median)(ip) == Some(c)
  {
    hide BurstFrom;
    var ips, f := Listing(FlaggedAddresses(minutes, scoring)), Burst(minutes, scoring, median);
    CollectMember(ips, f, c);
    forall ip | f(ip) == Some(c) ensures ip in ips {
      FlaggedListed(minutes, scoring, median, ip);
    }
    if ip :| f(ip) == Some(c) {
      var i :| 0 <= i < |ips| && ips[i] == ip;
      assert f(ips[i]) == Some(c);
    }
  }

  lemma BurstTells(minutes: Minutes, scoring: nat -> real, median: real, ip: string)
    requires Burst(minutes, scoring, median)(ip).Some?
    ensures var shown := Burst(minutes, scoring, median)(ip).value.evidence; shown.BurstEvidence? && shown.clientIp == ip
  {}

  lemma BurstsOnce(minutes: Minutes, scoring: nat -> real, median: real)
    ensures NoDup(BurstsOf(minutes, scoring, median))
  {
    hide BurstFrom;
    var ips, f := Listing(FlaggedAddresses(minutes, scoring)), Burst(minutes, scoring, median);
    forall x, y | x in ips && y in ips && f(x).Some? && f(x) == f(y) ensures x == y {
      BurstTells(minutes, scoring, median, x);
      BurstTells(minutes, scoring, median, y);
    }
    CollectNoDup(ips, f);
  }

  /** Which listing of the sizes is taken makes no difference. */
  lemma BurstsBySizes(m: Maths, p: Aggregate, es: seq<LogEntry>, sizes: seq<real>)
    requires MinutesRead(p.ipMinute, es) && IsSizes(es, sizes)
    ensures |sizes| == |p.ipMinute|
    ensures |sizes| >= 5 ==> Bursts(m, p) == BurstsOf(p.ipMinute, BurstScoring(m, sizes), Median(sizes))
  {
    hide MinutesRead, IsSizes, BurstScoring, BurstsOf, Median;
    var counts := BucketCounts(p.ipMinute);
    SizesArePermuted(p.ipMinute, es, sizes);
    SameLength(sizes, counts);
    if |sizes| >= 5 {
      ScoringPermutes(m, counts, sizes);
      MedianPermutes(counts, sizes);
      BurstsAgree(p.ipMinute, BurstScoring(m, counts), BurstScoring(m, sizes), Median(counts));
    }
  }

  lemma BurstsIff(m: Maths, p: Aggregate, es: seq<LogEntry>)
    requires MinutesRead(p.ipMinute, es)
    ensures NoDup(Bursts(m, p)) && forall c :: c in Bursts(m, p) <==> FindsBursts(m, es)(c)
  {
    hide MinutesRead, IsSizes, BurstScoring, BurstsOf, Median, BurstFinding, Burst;
    var counts := BucketCounts(p.ipMinute);
    CountsAreSizes(p.ipMinute, es);
    BurstsOnce(p.ipMinute, BurstScoring(m, counts), if |counts| > 0 then Median(counts) else 0.0);
    forall c ensures c in Bursts(m, p) <==> FindsBursts(m, es)(c) {
      if c in Bursts(m, p) {
        BurstMember(p.ipMinute, BurstScoring(m, counts), Median(counts), c);
        var ip :| Burst(p.ipMinute, BurstScoring(m, counts), Median(counts))(ip) == Some(c);
        BurstJudged(m, p.ipMinute, es, counts, ip, c);
      }
      if FindsBursts(m, es)(c) {
        var sizes, ip :| IsSizes(es, sizes) && |sizes| >= 5 && BurstFinding(m, es, sizes, ip, c);
        BurstsBySizes(m, p, es, sizes);
        BurstOnly(m, p.ipMinute, es, sizes, ip, c);
        BurstMember(p.ipMinute, BurstScoring(m, sizes), Median(sizes), c);
      }
    }
  }

  /** What is reported of bursts. */
  lemma BurstsReported(m: Maths, p: Aggregate, es: seq<LogEntry>, out: seq<Candidate>)
    requires Reads(m, p, es) && Ranks(out, Bursts(m, p))
    ensures Reported(out, FindsBursts(m, es))
  {
    hide Reported, FindsBursts, Bursts, Ranks;
    BurstsIff(m, p, es);
    RanksReport(out, Bursts(m, p), FindsBursts(m, es));
  }
}
