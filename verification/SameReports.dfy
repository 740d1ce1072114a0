/** Aggregates of the same rows lead each detector to the same candidates, up to the order of cited rows. */
module SameReports {
  import opened Common
  import opened Dictionaries
  import opened LogEntries
  import opened Aggregates
  import opened Statistics
  import opened Candidates
  import opened VolumeSpikes
  import opened GroupDetectors
  import opened OffHours
  import opened Sharding

  // --- One dictionary of groups ---

  ghost predicate JudgesAlike<K(!new), V(!new)>(same: (V, V) -> bool, judge1: (K, V) -> Option<Candidate>, judge2: (K, V) -> Option<Candidate>) {
    forall k, x, y :: same(x, y) ==> SameUpTo(Fingerprint, judge1(k, x), judge2(k, y))
  }

  lemma OverAlike<K(!new), V(!new)>(
      a: map<K, V>, b: map<K, V>, absent: V, same: (V, V) -> bool,
      judge1: (K, V) -> Option<Candidate>, judge2: (K, V) -> Option<Candidate>, k: K)
    requires SameGroups(a, b, same) && JudgesAlike(same, judge1, judge2) && k in a.Keys
    ensures SameUpTo(Fingerprint, Over(a, absent, judge1)(k), Over(b, absent, judge2)(k))
  {
    assert k in b.Keys && same(a[k], b[k]);
    OverAt(a, absent, judge1, k);
    OverAt(b, absent, judge2, k);
  }

  lemma FoundAlike<K(!new), V(!new)>(
      a: map<K, V>, b: map<K, V>, absent: V, same: (V, V) -> bool,
      judge1: (K, V) -> Option<Candidate>, judge2: (K, V) -> Option<Candidate>)
    requires SameGroups(a, b, same) && JudgesAlike(same, judge1, judge2)
    ensures MapSeq(Found(a, absent, judge1), Fingerprint) == MapSeq(Found(b, absent, judge2), Fingerprint)
  {
    var ks := Listing(a.Keys);
    forall i | 0 <= i < |ks| ensures SameUpTo(Fingerprint, Over(a, absent, judge1)(ks[i]), Over(b, absent, judge2)(ks[i])) {
      assert ks[i] in ks;
      OverAlike(a, b, absent, same, judge1, judge2, ks[i]);
    }
    CollectMaps(ks, Over(a, absent, judge1), Over(b, absent, judge2), Fingerprint);
  }

  lemma SortedIds(x: seq<int>, y: seq<int>)
    requires multiset(x) == multiset(y)
    ensures |x| == |y| && Sort(x, IntLe) == Sort(y, IntLe)
  {
    SameLength(x, y);
    IntLeOrder();
    SortPermutes(x, y, IntLe);
  }

  // --- Threats, check-ins, transfers, rare hosts ---

  lemma ThreatsAlike(p: Aggregate, q: Aggregate)
    requires Same(p, q)
    ensures MapSeq(Threats(p), Fingerprint) == MapSeq(Threats(q), Fingerprint)
  {
    forall k, x, y | SameThreat(x, y) ensures SameUpTo(Fingerprint, JudgeThreat(k, x), JudgeThreat(k, y)) {
      SortedIds(x.ids, y.ids);
    }
    FoundAlike(p.threats, q.threats, NO_THREAT, SameThreat, JudgeThreat, JudgeThreat);
  }

  lemma HitLeOrder()
    ensures TotalOrder(HitLe)
  {}

  /** Check-ins are judged on the sorted hits, so their order of arrival is irrelevant. */
  lemma BeaconAlike(m: Maths, k: Pair, x: seq<Hit>, y: seq<Hit>)
    requires multiset(x) == multiset(y)
    ensures JudgeBeacon(m, k, x) == JudgeBeacon(m, k, y)
  {
    HitLeOrder();
    SameLength(x, y);
    SortPermutes(x, y, HitLe);
  }

  lemma BeaconsAlike(m: Maths, p: Aggregate, q: Aggregate)
    requires Same(p, q)
    ensures MapSeq(Beacons(m, p), Fingerprint) == MapSeq(Beacons(m, q), Fingerprint)
  {
    forall k, x, y | SameBag<Hit>(x, y) ensures SameUpTo(Fingerprint, BeaconJudge(m)(k, x), BeaconJudge(m)(k, y)) {
      BeaconAlike(m, k, x, y);
    }
    FoundAlike(p.ipHostTimes, q.ipHostTimes, [], SameBag<Hit>, BeaconJudge(m), BeaconJudge(m));
  }

  lemma TransferAlike(m: Maths, logs1: seq<real>, logs2: seq<real>, k: Pair, x: ByteStats, y: ByteStats)
    requires SameBag(logs1, logs2) && SameBytes(x, y)
    ensures SameUpTo(Fingerprint, JudgeTransfer(m, logs1, k, x), JudgeTransfer(m, logs2, k, y))
  {
    SortedIds(x.ids, y.ids);
    SameLength(x.logValues, y.logValues);
    SameLength(logs1, logs2);
    if |x.logValues| > 0 && |logs1| > 0 {
      LargestPermutes(x.logValues, y.logValues);
      MedianPermutes(logs1, logs2);
      RobustZPermutes(m, Largest(x.logValues), logs1, logs2);
    }
  }

  lemma TransfersAlike(m: Maths, p: Aggregate, q: Aggregate)
    requires Same(p, q)
    ensures MapSeq(Transfers(m, p), Fingerprint) == MapSeq(Transfers(m, q), Fingerprint)
  {
    forall k, x, y | SameBytes(x, y)
      ensures SameUpTo(Fingerprint, TransferJudge(m, p.reqByteLogs)(k, x), TransferJudge(m, q.reqByteLogs)(k, y))
    {
      TransferAlike(m, p.reqByteLogs, q.reqByteLogs, k, x, y);
    }
    SameLength(p.reqByteLogs, q.reqByteLogs);
    FoundAlike(p.userHost, q.userHost, NO_BYTES, SameBytes, TransferJudge(m, p.reqByteLogs), TransferJudge(m, q.reqByteLogs));
  }

  /** A reported rare host has at most three rows, so the cap on urls never shows. */
  lemma RareAlike(m: Maths, busiest: int, host: string, x: HostStats, y: HostStats)
    requires SameHost(x, y)
    ensures SameUpTo(Fingerprint, JudgeRare(m, busiest, host, x), JudgeRare(m, busiest, host, y))
  {
    SortedIds(x.ids, y.ids);
  }

  lemma BusiestAlike(a: map<string, HostStats>, b: map<string, HostStats>)
    requires SameGroups(a, b, SameHost)
    ensures Busiest(a) == Busiest(b)
  {
    var ks := Listing(a.Keys);
    forall i | 0 <= i < |ks| ensures HitCount(a)(ks[i]) == HitCount(b)(ks[i]) {
      assert ks[i] in ks;
      SameLength(a[ks[i]].ids, b[ks[i]].ids);
    }
    CollectAgrees(ks, HitCount(a), HitCount(b));
  }

  lemma RareHostsAlike(m: Maths, p: Aggregate, q: Aggregate)
    requires Same(p, q)
    ensures MapSeq(RareHosts(m, p), Fingerprint) == MapSeq(RareHosts(m, q), Fingerprint)
  {
    BusiestAlike(p.hosts, q.hosts);
    var busiest := Busiest(p.hosts);
    forall host, x, y | SameHost(x, y) ensures SameUpTo(Fingerprint, RareJudge(m, busiest)(host, x), RareJudge(m, busiest)(host, y)) {
      RareAlike(m, busiest, host, x, y);
    }
    assert |p.hosts| == |p.hosts.Keys| && |q.hosts| == |q.hosts.Keys|;
    FoundAlike(p.hosts, q.hosts, NO_HOST, SameHost, RareJudge(m, busiest), RareJudge(m, busiest));
  }

  // --- Bursts ---

  lemma CountsAlike(a: Minutes, b: Minutes)
    requires SameGroups(a, b, SameBag<int>)
    ensures BucketCounts(a) == BucketCounts(b)
  {
    var ks := Listing(a.Keys);
    forall i | 0 <= i < |ks| ensures BucketCount(a)(ks[i]) == BucketCount(b)(ks[i]) {
      assert ks[i] in ks;
      SameLength(a[ks[i]], b[ks[i]]);
    }
    CollectAgrees(ks, BucketCount(a), BucketCount(b));
  }

  ghost predicate WindowsAlike(v: seq<Window>, w: seq<Window>) {
    && |v| == |w|
    && forall i :: 0 <= i < |v| ==> v[i].minute == w[i].minute && v[i].score == w[i].score && multiset(v[i].ids) == multiset(w[i].ids)
  }

  lemma FlagsAlike(a: Minutes, b: Minutes, scoring: nat -> real, ip: string)
    requires SameGroups(a, b, SameBag<int>)
    ensures FlaggedAddresses(a, scoring) == FlaggedAddresses(b, scoring)
    ensures FlaggedMinutes(a, scoring, ip) == FlaggedMinutes(b, scoring, ip)
  {
    forall k ensures IsFlagged(a, scoring)(k) == IsFlagged(b, scoring)(k) {
      SameLength(Get(a, k, []), Get(b, k, []));
    }
    assert Members(a.Keys, IsFlagged(a, scoring), AddressOf, ip) == Members(b.Keys, IsFlagged(b, scoring), AddressOf, ip);
  }

  lemma MadeAlike(a: Minutes, b: Minutes, scoring: nat -> real, ip: string, times: seq<int>)
    requires SameGroups(a, b, SameBag<int>)
    ensures WindowsAlike(MapSeq(times, WindowAt(a, scoring, ip)), MapSeq(times, WindowAt(b, scoring, ip)))
  {
    forall i | 0 <= i < |times|
      ensures WindowsAlike([WindowAt(a, scoring, ip)(times[i])], [WindowAt(b, scoring, ip)(times[i])])
    {
      var k: Bucket := (ip, times[i]);
      SameLength(Get(a, k, []), Get(b, k, []));
      assert WindowAt(a, scoring, ip)(times[i]) == MakeWindow(a, scoring, k);
      assert WindowAt(b, scoring, ip)(times[i]) == MakeWindow(b, scoring, k);
    }
    forall i | 0 <= i < |times|
      ensures MapSeq(times, WindowAt(a, scoring, ip))[i] == [WindowAt(a, scoring, ip)(times[i])][0]
      ensures MapSeq(times, WindowAt(b, scoring, ip))[i] == [WindowAt(b, scoring, ip)(times[i])][0]
    {}
  }

  lemma FlaggedAlike(a: Minutes, b: Minutes, scoring: nat -> real, ip: string)
    requires SameGroups(a, b, SameBag<int>)
    ensures WindowsAlike(FlaggedWindows(a, scoring, ip), FlaggedWindows(b, scoring, ip))
  {
    FlagsAlike(a, b, scoring, ip);
    MadeAlike(a, b, scoring, ip, SortedInts(FlaggedMinutes(a, scoring, ip)));
  }

  lemma BurstAlike(median: real, ip: string, v: seq<Window>, w: seq<Window>)
    requires WindowsAlike(v, w)
    ensures SameUpTo(Fingerprint, BurstFrom(median, ip, v), BurstFrom(median, ip, w))
  {
    forall i | 0 <= i < |v| ensures |v[i].ids| == |w[i].ids| {
      SameLength(v[i].ids, w[i].ids);
    }
    assert MapSeq(v, ScoreOf) == MapSeq(w, ScoreOf);
    assert MapSeq(v, SizeOf) == MapSeq(w, SizeOf);
    FlattenBags(MapSeq(v, IdsOf), MapSeq(w, IdsOf));
    SortedIds(Flatten(MapSeq(v, IdsOf)), Flatten(MapSeq(w, IdsOf)));
  }

  lemma BurstsOfAlike(a: Minutes, b: Minutes, scoring: nat -> real, median: real)
    requires SameGroups(a, b, SameBag<int>)
    ensures MapSeq(BurstsOf(a, scoring, median), Fingerprint) == MapSeq(BurstsOf(b, scoring, median), Fingerprint)
  {
    FlagsAlike(a, b, scoring, "");
    var ips := Listing(FlaggedAddresses(a, scoring));
    forall i | 0 <= i < |ips| ensures SameUpTo(Fingerprint, Burst(a, scoring, median)(ips[i]), Burst(b, scoring, median)(ips[i])) {
      FlaggedAlike(a, b, scoring, ips[i]);
      BurstAlike(median, ips[i], FlaggedWindows(a, scoring, ips[i]), FlaggedWindows(b, scoring, ips[i]));
    }
    CollectMaps(ips, Burst(a, scoring, median), Burst(b, scoring, median), Fingerprint);
  }

  lemma BurstsAlike(m: Maths, p: Aggregate, q: Aggregate)
    requires Same(p, q)
    ensures MapSeq(Bursts(m, p), Fingerprint) == MapSeq(Bursts(m, q), Fingerprint)
  {
    CountsAlike(p.ipMinute, q.ipMinute);
    var counts := BucketCounts(p.ipMinute);
    assert |p.ipMinute| == |p.ipMinute.Keys| && |q.ipMinute| == |q.ipMinute.Keys|;
    if |p.ipMinute| >= 5 {
      var scoring, median := BurstScoring(m, counts), Median(counts);
      BurstsOfAlike(p.ipMinute, q.ipMinute, scoring, median);
    }
  }

  // --- Off-hours ---

  lemma OffHoursAlike(pick1: Chooser, pick2: Chooser, p: Aggregate, q: Aggregate)
    requires p.hourCounts == q.hourCounts && SameSlots(p.hourActors, q.hourActors) && ChoosesEight(pick1) && ChoosesEight(pick2)
    ensures MapSeq(OffHoursOf(pick1, p), LooseFingerprint) == MapSeq(OffHoursOf(pick2, q), LooseFingerprint)
    ensures SameHosts(p.hourActors, q.hourActors) && Uncapped(p.hourActors) ==>
      MapSeq(OffHoursOf(pick1, p), Fingerprint) == MapSeq(OffHoursOf(pick2, q), Fingerprint)
  {
    if |p.hourCounts| >= 4 {
      var counts, median := p.hourCounts, Median(Volumes(p.hourCounts));
      var quiet := QuietHours(counts, median);
      var actors := Listing(QuietActors(p.hourActors, quiet));
      var f, g := Quiet(pick1, counts, median, p.hourActors), Quiet(pick2, counts, median, q.hourActors);
      forall i | 0 <= i < |actors|
        ensures SameUpTo(LooseFingerprint, f(actors[i]), g(actors[i]))
        ensures SameHosts(p.hourActors, q.hourActors) && Uncapped(p.hourActors) ==> SameUpTo(Fingerprint, f(actors[i]), g(actors[i]))
      {
        var order := Listing(QuietSlots(p.hourActors, quiet, actors[i]));
        JudgeSlotsAgrees(pick1, pick2, counts, median, p.hourActors, q.hourActors, actors[i], order, order);
      }
      CollectMaps(actors, f, g, LooseFingerprint);
      if SameHosts(p.hourActors, q.hourActors) && Uncapped(p.hourActors) {
        CollectMaps(actors, f, g, Fingerprint);
      }
    }
  }
}
