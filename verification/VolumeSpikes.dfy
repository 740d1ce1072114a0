/** Bursts: one address making far more requests in a minute than buckets usually hold. */
module VolumeSpikes {
  import opened Common
  import opened Dictionaries
  import opened LogEntries
  import opened Aggregates
  import opened Statistics
  import opened Candidates

  const MIN_BURST_REQUESTS := 20

  /** An address and a minute. */
  type Bucket = (string, int)

  type Minutes = map<Bucket, seq<int>>

  datatype Window = Window(minute: int, ids: seq<int>, score: real)

  predicate WindowLe(a: Window, b: Window) {
    a.minute <= b.minute
  }

  function IdsOf(w: Window): seq<int> {
    w.ids
  }

  function SizeOf(w: Window): int {
    |w.ids|
  }

  function ScoreOf(w: Window): real {
    w.score
  }

  function BucketCount(minutes: Minutes): Bucket -> Option<real> {
    (k: Bucket) => Some(|Get(minutes, k, [])| as real)
  }

  /** Requests per bucket, over all buckets. */
  ghost function BucketCounts(minutes: Minutes): (counts: seq<real>)
    ensures |counts| == |minutes|
  {
    AllCollected(Listing(minutes.Keys), BucketCount(minutes));
    EnumerationLength(Listing(minutes.Keys), minutes.Keys);
    Collect(Listing(minutes.Keys), BucketCount(minutes))
  }

  /** The score of a bucket as a function of how many requests it holds. */
  function BurstScoring(m: Maths, counts: seq<real>): nat -> real {
    requests =>
      if requests < MIN_BURST_REQUESTS then 0.0
      else ScoreFromZ(RobustZ(m, requests as real, counts), 3.0, 10.0)
  }

  function IsFlagged(minutes: Minutes, scoring: nat -> real): Bucket -> bool {
    (k: Bucket) => scoring(|Get(minutes, k, [])|) > 0.0
  }

  function MakeWindow(minutes: Minutes, scoring: nat -> real, k: Bucket): Window {
    var ids := Get(minutes, k, []);
    Window(k.1, ids, scoring(|ids|))
  }

  function WindowOf(minutes: Minutes, scoring: nat -> real): Bucket -> Window {
    (k: Bucket) => MakeWindow(minutes, scoring, k)
  }

  function AddressOf(k: Bucket): string {
    k.0
  }

  function FlaggedAddresses(minutes: Minutes, scoring: nat -> real): set<string> {
    GroupNames(minutes.Keys, IsFlagged(minutes, scoring), AddressOf)
  }

  function FlaggedMinutes(minutes: Minutes, scoring: nat -> real, ip: string): set<int> {
    set k | k in Members(minutes.Keys, IsFlagged(minutes, scoring), AddressOf, ip) :: k.1
  }

  function WindowAt(minutes: Minutes, scoring: nat -> real, ip: string): int -> Window {
    minute => MakeWindow(minutes, scoring, (ip, minute))
  }

  /** The flagged windows of one address, in time order. */
  function FlaggedWindows(minutes: Minutes, scoring: nat -> real, ip: string): seq<Window> {
    MapSeq(SortedInts(FlaggedMinutes(minutes, scoring, ip)), WindowAt(minutes, scoring, ip))
  }

  /** The candidate for one address, from its flagged windows in time order. */
  function BurstFrom(median: real, ip: string, windows: seq<Window>): Option<Candidate> {
    if |windows| == 0 then None
    else
      var ids := Flatten(MapSeq(windows, IdsOf));
      Some(Candidate(
        "volume_spike",
        "Request burst from " + ip,
        Largest(MapSeq(windows, ScoreOf)),
        ids,
        BurstEvidence(ip, LargestInt(MapSeq(windows, SizeOf)), median, |windows|,
                      windows[0].minute, windows[|windows| - 1].minute, |ids|)))
  }

  function Burst(minutes: Minutes, scoring: nat -> real, median: real): string -> Option<Candidate> {
    ip => BurstFrom(median, ip, FlaggedWindows(minutes, scoring, ip))
  }

  ghost function BurstsOf(minutes: Minutes, scoring: nat -> real, median: real): seq<Candidate> {
    Collect(Listing(FlaggedAddresses(minutes, scoring)), Burst(minutes, scoring, median))
  }

  /** Every burst of an aggregate, before ranking. */
  ghost function Bursts(m: Maths, p: Aggregate): seq<Candidate> {
    var counts := BucketCounts(p.ipMinute);
    if |p.ipMinute| < 5 then [] else BurstsOf(p.ipMinute, BurstScoring(m, counts), Median(counts))
  }

  function MinuteOf(k: Bucket): int {
    k.1
  }

  lemma MinutesEnumerate(minutes: Minutes, scoring: nat -> real, ip: string, keys: seq<Bucket>)
    requires Enumerates(keys, Members(minutes.Keys, IsFlagged(minutes, scoring), AddressOf, ip))
    ensures Enumerates(MapSeq(keys, MinuteOf), FlaggedMinutes(minutes, scoring, ip))
  {
    var times := MapSeq(keys, MinuteOf);
    forall i | 0 <= i < |keys| ensures keys[i] == (ip, times[i]) {
      assert keys[i] in keys;
    }
    forall t ensures t in times <==> t in FlaggedMinutes(minutes, scoring, ip) {
      if t in times {
        var i :| 0 <= i < |keys| && times[i] == t;
        assert keys[i] in keys;
      }
      if t in FlaggedMinutes(minutes, scoring, ip) {
        var k :| k in Members(minutes.Keys, IsFlagged(minutes, scoring), AddressOf, ip) && k.1 == t;
        assert k in keys;
        var i :| 0 <= i < |keys| && keys[i] == k;
        assert times[i] == t;
      }
    }
  }

  lemma WindowsListed(minutes: Minutes, scoring: nat -> real, ip: string, keys: seq<Bucket>)
    requires Enumerates(keys, Members(minutes.Keys, IsFlagged(minutes, scoring), AddressOf, ip))
    ensures MapSeq(keys, WindowOf(minutes, scoring)) == MapSeq(MapSeq(keys, MinuteOf), WindowAt(minutes, scoring, ip))
    ensures forall x :: x in multiset(MapSeq(keys, WindowOf(minutes, scoring))) ==> x == WindowAt(minutes, scoring, ip)(x.minute)
  {
    var listed := MapSeq(keys, WindowOf(minutes, scoring));
    forall i | 0 <= i < |keys| ensures listed[i] == WindowAt(minutes, scoring, ip)(keys[i].1) {
      assert keys[i] in keys;
      assert keys[i] == (ip, keys[i].1);
    }
    forall x | x in multiset(listed) ensures x == WindowAt(minutes, scoring, ip)(x.minute) {
      assert x in listed;
    }
  }

  /** Sorting an address's windows puts them in minute order, whatever order they were flagged in. */
  lemma WindowsSort(minutes: Minutes, scoring: nat -> real, ip: string, keys: seq<Bucket>)
    requires Enumerates(keys, Members(minutes.Keys, IsFlagged(minutes, scoring), AddressOf, ip))
    ensures Sort(MapSeq(keys, WindowOf(minutes, scoring)), WindowLe) == FlaggedWindows(minutes, scoring, ip)
  {
    var at := WindowAt(minutes, scoring, ip);
    var times := SortedInts(FlaggedMinutes(minutes, scoring, ip));
    var listed, ordered := MapSeq(keys, WindowOf(minutes, scoring)), MapSeq(times, at);
    MinutesEnumerate(minutes, scoring, ip, keys);
    EnumerationsPermute(MapSeq(keys, MinuteOf), times, FlaggedMinutes(minutes, scoring, ip));
    MapSeqPermutes(MapSeq(keys, MinuteOf), times, at);
    WindowsListed(minutes, scoring, ip, keys);
    SortSorted(listed, WindowLe);
    forall i, j | 0 <= i < j < |ordered| ensures WindowLe(ordered[i], ordered[j]) {
      assert IntLe(times[i], times[j]);
    }
    SortedUnique(Sort(listed, WindowLe), ordered, WindowLe);
  }

  lemma FlagsAgree(minutes: Minutes, s1: nat -> real, s2: nat -> real, ip: string)
    requires forall n :: s1(n) == s2(n)
    ensures FlaggedAddresses(minutes, s1) == FlaggedAddresses(minutes, s2)
    ensures FlaggedMinutes(minutes, s1, ip) == FlaggedMinutes(minutes, s2, ip)
  {
    assert forall k :: IsFlagged(minutes, s1)(k) == IsFlagged(minutes, s2)(k);
    assert Members(minutes.Keys, IsFlagged(minutes, s1), AddressOf, ip) == Members(minutes.Keys, IsFlagged(minutes, s2), AddressOf, ip);
  }

  lemma WindowsAgree(minutes: Minutes, s1: nat -> real, s2: nat -> real, ip: string)
    requires forall n :: s1(n) == s2(n)
    ensures FlaggedWindows(minutes, s1, ip) == FlaggedWindows(minutes, s2, ip)
  {
    FlagsAgree(minutes, s1, s2, ip);
    forall t ensures WindowAt(minutes, s1, ip)(t) == WindowAt(minutes, s2, ip)(t) {
      assert MakeWindow(minutes, s1, (ip, t)) == MakeWindow(minutes, s2, (ip, t));
    }
    MapSeqAgrees(SortedInts(FlaggedMinutes(minutes, s1, ip)), WindowAt(minutes, s1, ip), WindowAt(minutes, s2, ip));
  }

  /** Bursts depend on the scoring function only through its values. */
  lemma BurstsAgree(minutes: Minutes, s1: nat -> real, s2: nat -> real, median: real)
    requires forall n :: s1(n) == s2(n)
    ensures BurstsOf(minutes, s1, median) == BurstsOf(minutes, s2, median)
  {
    assert FlaggedAddresses(minutes, s1) == FlaggedAddresses(minutes, s2) by {
      FlagsAgree(minutes, s1, s2, "");
    }
    forall ip ensures Burst(minutes, s1, median)(ip) == Burst(minutes, s2, median)(ip) {
      WindowsAgree(minutes, s1, s2, ip);
    }
    CollectAgrees(Listing(FlaggedAddresses(minutes, s1)), Burst(minutes, s1, median), Burst(minutes, s2, median));
  }

  lemma ScoringPermutes(m: Maths, xs: seq<real>, ys: seq<real>)
    requires multiset(xs) == multiset(ys)
    ensures forall n :: BurstScoring(m, xs)(n) == BurstScoring(m, ys)(n)
  {
    forall n: nat ensures BurstScoring(m, xs)(n) == BurstScoring(m, ys)(n) {
      RobustZPermutes(m, n as real, xs, ys);
    }
  }

  /** The candidate for an address from its flagged buckets in the order they were flagged. */
  function BurstFromGroup(minutes: Minutes, scoring: nat -> real, median: real, flagged: map<string, seq<Bucket>>): string -> Option<Candidate> {
    ip => BurstFrom(median, ip, Sort(MapSeq(Get(flagged, ip, []), WindowOf(minutes, scoring)), WindowLe))
  }

  lemma GroupsGiveBursts(minutes: Minutes, scoring: nat -> real, median: real, flagged: map<string, seq<Bucket>>)
    requires flagged.Keys == FlaggedAddresses(minutes, scoring)
    requires forall ip :: ip in flagged ==> Enumerates(flagged[ip], Members(minutes.Keys, IsFlagged(minutes, scoring), AddressOf, ip))
    ensures Collect(Listing(flagged.Keys), BurstFromGroup(minutes, scoring, median, flagged)) == BurstsOf(minutes, scoring, median)
  {
    var ips := Listing(flagged.Keys);
    forall i | 0 <= i < |ips| ensures BurstFromGroup(minutes, scoring, median, flagged)(ips[i]) == Burst(minutes, scoring, median)(ips[i]) {
      assert ips[i] in ips;
      WindowsSort(minutes, scoring, ips[i], flagged[ips[i]]);
    }
    CollectAgrees(ips, BurstFromGroup(minutes, scoring, median, flagged), Burst(minutes, scoring, median));
  }

  /** Unusual number of requests from one address in a minute. */
  method ScoreVolumeSpike(m: Maths, p: Aggregate) returns (out: seq<Candidate>)
    ensures Ranks(out, Bursts(m, p))
  {
    if |p.ipMinute| < 5 {
      TopRanks([], Bursts(m, p));
      return Top([]);
    }
    var counts := Scan(p.ipMinute.Keys, BucketCount(p.ipMinute));
    ghost var whole := BucketCounts(p.ipMinute);
    MedianPermutes(whole, counts);
    var scoring, median := BurstScoring(m, counts), Median(counts);
    var flagged := GroupKeys(p.ipMinute.Keys, IsFlagged(p.ipMinute, scoring), AddressOf);
    var found := Scan(flagged.Keys, BurstFromGroup(p.ipMinute, scoring, median, flagged));
    GroupsGiveBursts(p.ipMinute, scoring, median, flagged);
    ScoringPermutes(m, counts, whole);
    BurstsAgree(p.ipMinute, scoring, BurstScoring(m, whole), median);
    TopRanks(found, Bursts(m, p));
    out := Top(found);
  }
}
