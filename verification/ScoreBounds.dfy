/** Bounds every report obeys, and why the reporting bar never drops a rare host or an off-hours actor. */
module ScoreBounds {
  import opened Common
  import opened LogEntries
  import opened Aggregates
  import opened Statistics
  import opened Candidates
  import opened VolumeSpikes
  import opened GroupDetectors
  import opened OffHours
  import opened Detection

  // --- Every score is at most one ---

  ghost predicate AtMostOne(cs: seq<Candidate>) {
    forall c :: c in cs ==> c.score <= 1.0
  }

  lemma {:induction false} CollectedAtMostOne<K>(ks: seq<K>, f: K -> Option<Candidate>)
    requires forall i :: 0 <= i < |ks| && f(ks[i]).Some? ==> f(ks[i]).value.score <= 1.0
    ensures AtMostOne(Collect(ks, f))
  {
    forall c | c in Collect(ks, f) ensures c.score <= 1.0 {
      CollectMember(ks, f, c);
    }
  }

  lemma Round3Monotone(x: real, y: real)
    requires x <= y
    ensures Round3(x) <= Round3(y)
  {
    var a, b := x * 1000.0, y * 1000.0;
    assert a.Floor <= b.Floor;
  }

  lemma WindowsAtMostOne(median: real, ip: string, windows: seq<Window>)
    requires BurstFrom(median, ip, windows).Some? && forall i :: 0 <= i < |windows| ==> windows[i].score <= 1.0
    ensures BurstFrom(median, ip, windows).value.score <= 1.0
  {
    var scores := MapSeq(windows, ScoreOf);
    var i :| 0 <= i < |scores| && scores[i] == Largest(scores);
  }

  lemma BurstsOfAtMostOne(minutes: Minutes, scoring: nat -> real, median: real)
    requires forall n :: scoring(n) <= 1.0
    ensures AtMostOne(BurstsOf(minutes, scoring, median))
  {
    forall ip | Burst(minutes, scoring, median)(ip).Some? ensures Burst(minutes, scoring, median)(ip).value.score <= 1.0 {
      var windows := FlaggedWindows(minutes, scoring, ip);
      forall i | 0 <= i < |windows| ensures windows[i].score <= 1.0 {
        var t := SortedInts(FlaggedMinutes(minutes, scoring, ip))[i];
        assert windows[i] == MakeWindow(minutes, scoring, (ip, t));
      }
      WindowsAtMostOne(median, ip, windows);
    }
    CollectedAtMostOne(Listing(FlaggedAddresses(minutes, scoring)), Burst(minutes, scoring, median));
  }

  lemma BurstsAtMostOne(m: Maths, p: Aggregate)
    ensures AtMostOne(Bursts(m, p))
  {
    if |p.ipMinute| >= 5 {
      var counts := BucketCounts(p.ipMinute);
      BurstsOfAtMostOne(p.ipMinute, BurstScoring(m, counts), Median(counts));
    }
  }

  lemma FoundAtMostOne<K(!new), V(!new)>(groups: map<K, V>, absent: V, judge: (K, V) -> Option<Candidate>)
    requires forall k, v :: judge(k, v).Some? ==> judge(k, v).value.score <= 1.0
    ensures AtMostOne(Found(groups, absent, judge))
  {
    forall k | Over(groups, absent, judge)(k).Some? ensures Over(groups, absent, judge)(k).value.score <= 1.0 {
      OverAt(groups, absent, judge, k);
    }
    CollectedAtMostOne(Listing(groups.Keys), Over(groups, absent, judge));
  }

  lemma TransferAtMostOne(m: Maths, logs: seq<real>, k: Pair, g: ByteStats)
    requires JudgeTransfer(m, logs, k, g).Some?
    ensures JudgeTransfer(m, logs, k, g).value.score <= 1.0
  {}

  lemma TransfersAtMostOne(m: Maths, p: Aggregate)
    ensures AtMostOne(Transfers(m, p))
  {
    var judge := TransferJudge(m, p.reqByteLogs);
    forall k, g | judge(k, g).Some? ensures judge(k, g).value.score <= 1.0 {
      TransferAtMostOne(m, p.reqByteLogs, k, g);
    }
    FoundAtMostOne(p.userHost, NO_BYTES, judge);
  }

  lemma BeaconAtMostOne(m: Maths, k: Pair, ordered: seq<Hit>)
    requires BeaconFrom(m, k, ordered).Some?
    ensures BeaconFrom(m, k, ordered).value.score <= 1.0
  {}

  lemma BeaconsAtMostOne(m: Maths, p: Aggregate)
    ensures AtMostOne(Beacons(m, p))
  {
    var judge := BeaconJudge(m);
    forall k, hits | judge(k, hits).Some? ensures judge(k, hits).value.score <= 1.0 {
      BeaconAtMostOne(m, k, Sort(hits, HitLe));
    }
    FoundAtMostOne(p.ipHostTimes, [], judge);
  }

  lemma RareAtMostOne(m: Maths, busiest: int, hits: nat)
    ensures RareScore(m, busiest, hits) <= 1.0
  {
    var x := MinReal(1.0, Ratio(m.log10(Ratio(busiest as real, hits as real) + 1.0), m.log10(busiest as real + 1.0)));
    Round3Monotone(x, 1.0);
  }

  lemma RareHostsAtMostOne(m: Maths, p: Aggregate)
    ensures AtMostOne(RareHosts(m, p))
  {
    var judge := RareJudge(m, Busiest(p.hosts));
    forall host, g | judge(host, g).Some? ensures judge(host, g).value.score <= 1.0 {
      RareAtMostOne(m, Busiest(p.hosts), |g.ids|);
    }
    FoundAtMostOne(p.hosts, NO_HOST, judge);
  }

  lemma ActorAtMostOne(median: real, volume: real, requests: nat)
    requires median != 0.0
    ensures Round3(ActorScore(median, volume, requests)) <= 1.0
  {
    Round3Monotone(ActorScore(median, volume, requests), 1.0);
  }

  lemma JudgedActorAtMostOne(counts: map<int, int>, median: real, actor: string, hours: seq<int>, activity: HourStats)
    requires JudgeActor(counts, median, actor, hours, activity).Some?
    ensures JudgeActor(counts, median, actor, hours, activity).value.score <= 1.0
  {
    ActorAtMostOne(median, MeanVolume(counts, hours), |activity.ids|);
  }

  lemma OffHoursAtMostOne(pick: Chooser, p: Aggregate)
    ensures AtMostOne(OffHoursOf(pick, p))
  {
    if |p.hourCounts| >= 4 {
      var counts, median := p.hourCounts, Median(Volumes(p.hourCounts));
      var quiet := QuietHours(counts, median);
      var judge := Quiet(pick, counts, median, p.hourActors);
      forall actor | judge(actor).Some? ensures judge(actor).value.score <= 1.0 {
        var order := Listing(QuietSlots(p.hourActors, quiet, actor));
        JudgedActorAtMostOne(counts, median, actor, HoursOf(order), Folded(pick, p.hourActors, order));
      }
      CollectedAtMostOne(Listing(QuietActors(p.hourActors, quiet)), judge);
    }
  }

  lemma DetectedAtMostOne(d: Detector, m: Maths, pick: Chooser, p: Aggregate)
    ensures AtMostOne(Detected(d, m, pick, p))
  {
    match d
    case VolumeSpike => BurstsAtMostOne(m, p);
    case DataExfil => TransfersAtMostOne(m, p);
    case Beaconing => BeaconsAtMostOne(m, p);
    case BlockedThreats =>
      FoundAtMostOne(p.threats, NO_THREAT, JudgeThreat);
    case RareDestination => RareHostsAtMostOne(m, p);
    case OffHoursActivity => OffHoursAtMostOne(pick, p);
  }

  // --- Every report ---

  ghost predicate ScoresInRange(out: seq<Candidate>) {
    forall c :: c in out ==> MIN_SCORE <= c.score <= 1.0
  }

  lemma RankedInRange(out: seq<Candidate>, cs: seq<Candidate>)
    requires Ranks(out, cs) && AtMostOne(cs)
    ensures ScoresInRange(out) && |out| <= MAX_PER_DETECTOR
  {
    forall c | c in out ensures MIN_SCORE <= c.score <= 1.0 {
      assert c in multiset(out);
      assert c in Collect(cs, Keep);
      CollectMember(cs, Keep, c);
    }
  }

  lemma ReportInRange(fp: Candidate -> Candidate, out: seq<Candidate>, cs: seq<Candidate>)
    requires KeepsRank(fp) && Reports(fp, out, cs) && AtMostOne(cs)
    ensures ScoresInRange(out) && |out| <= MAX_PER_DETECTOR
  {
    forall c | c in MapSeq(cs, fp) ensures c.score <= 1.0 {
      var i :| 0 <= i < |cs| && fp(cs[i]) == c;
      assert cs[i] in cs;
    }
    RankedInRange(MapSeq(out, fp), MapSeq(cs, fp));
    forall c | c in out ensures MIN_SCORE <= c.score <= 1.0 {
      var i :| 0 <= i < |out| && out[i] == c;
      assert MapSeq(out, fp)[i] == fp(c);
      assert fp(c) in MapSeq(out, fp);
    }
  }

  lemma {:induction false} FlattenInRange(parts: seq<seq<Candidate>>)
    requires forall i :: 0 <= i < |parts| ==> ScoresInRange(parts[i]) && |parts[i]| <= MAX_PER_DETECTOR
    ensures ScoresInRange(Flatten(parts)) && |Flatten(parts)| <= |parts| * MAX_PER_DETECTOR
  {
    if |parts| > 0 {
      FlattenInRange(parts[..|parts| - 1]);
    }
  }

  /** The final list is best first, scores lie in [0.30, 1], and there are at most five findings a detector. */
  lemma ResultInRange(m: Maths, pick: Chooser, p: Aggregate, out: seq<Candidate>)
    requires IsResult(m, pick, p, out)
    ensures Sorted(out, ByRank) && ScoresInRange(out) && |out| <= |SCORERS| * MAX_PER_DETECTOR
  {
    var parts :| |parts| == |SCORERS| && AllAnswer(m, pick, p, parts) && out == Sort(Flatten(parts), ByRank);
    FingerprintsKeepRank();
    forall i | 0 <= i < |parts| ensures ScoresInRange(parts[i]) && |parts[i]| <= MAX_PER_DETECTOR {
      DetectedAtMostOne(SCORERS[i], m, pick, p);
      ReportInRange(LooseFingerprint, parts[i], Detected(SCORERS[i], m, pick, p));
    }
    FlattenInRange(parts);
    ByRankPreorder();
    SortSorted(Flatten(parts), ByRank);
    forall c | c in out ensures MIN_SCORE <= c.score <= 1.0 {
      assert c in multiset(out);
      assert c in Flatten(parts);
    }
  }

  // --- Rare hosts are never dropped ---

  ghost predicate LogProduct(m: Maths, x: real, y: real) {
    m.log10(x * y) == m.log10(x) + m.log10(y)
  }

  ghost predicate LogOrdered(m: Maths, x: real, y: real) {
    m.log10(x) < m.log10(y)
  }

  /** A logarithm: products become sums, and larger arguments have larger logarithms. */
  ghost predicate LawfulLogs(m: Maths) {
    && (forall x, y :: x > 0.0 && y > 0.0 ==> LogProduct(m, x, y))
    && (forall x, y :: 0.0 < x < y ==> LogOrdered(m, x, y))
  }

  /** (b/n + 1) squared is at least b + 1 for up to three of at least as many hits. */
  lemma QuotientSquare(b: int, n: int, q: real)
    requires 1 <= n <= 3 && n <= b && q * n as real == b as real
    ensures (q + 1.0) * (q + 1.0) >= b as real + 1.0
  {
    if n == 1 {
      assert q == b as real;
    } else if n == 2 {
      assert b as real == 2.0 * q;
    } else {
      assert b as real == 3.0 * q;
      assert q >= 1.0;
    }
  }

  lemma HalfQuotient(x: real, y: real)
    requires y > 0.0 && x + x >= y
    ensures Ratio(x, y) >= 0.5
  {
    DivideBound(x, y, 0.5);
  }

  lemma LogsAt(m: Maths, u: real, v: real)
    requires LawfulLogs(m) && u > 0.0 && v > 1.0 && u * u >= v
    ensures m.log10(v) > 0.0 && m.log10(u) + m.log10(u) >= m.log10(v)
  {
    var s := u * u;
    assert LogProduct(m, u, u);
    assert m.log10(s) == m.log10(u) + m.log10(u);
    assert 1.0 * 1.0 == 1.0 && LogProduct(m, 1.0, 1.0);
    assert LogOrdered(m, 1.0, v);
    if v < s {
      assert LogOrdered(m, v, s);
    }
  }

  /** When the square of `u` is at least `v`, the logarithm of `u` is at least half that of `v`. */
  lemma HalfLogarithm(m: Maths, u: real, v: real)
    requires LawfulLogs(m) && u > 0.0 && v > 1.0 && u * u >= v
    ensures Ratio(m.log10(u), m.log10(v)) >= 0.5
  {
    LogsAt(m, u, v);
    HalfQuotient(m.log10(u), m.log10(v));
  }

  /** A rare destination scores at least one half, so the bar of 0.30 never drops it. */
  lemma RareAtLeastHalf(m: Maths, busiest: int, hits: nat)
    requires LawfulLogs(m) && 1 <= hits <= 3 && hits <= busiest
    ensures RareScore(m, busiest, hits) >= 0.5
  {
    hide LawfulLogs;
    var b, n := busiest as real, hits as real;
    var q := Ratio(b, n);
    assert q * n == b;
    QuotientSquare(busiest, hits, q);
    assert q > 0.0;
    HalfLogarithm(m, q + 1.0, b + 1.0);
    var x := MinReal(1.0, Ratio(m.log10(q + 1.0), m.log10(b + 1.0)));
    Round3Monotone(0.5, x);
    assert Round3(0.5) == 0.5;
  }

  lemma BusiestBound(hosts: map<string, HostStats>, host: string)
    requires host in hosts
    ensures |hosts[host].ids| <= Busiest(hosts)
  {
    var keys := Listing(hosts.Keys);
    assert host in keys;
    var i :| 0 <= i < |keys| && keys[i] == host;
    var counts := Collect(keys, HitCount(hosts));
    CollectMember(keys, HitCount(hosts), |hosts[host].ids|);
    assert HitCount(hosts)(keys[i]) == Some(|hosts[host].ids|);
    var j :| 0 <= j < |counts| && counts[j] == |hosts[host].ids|;
  }

  lemma RareHostsScoreHigh(m: Maths, p: Aggregate)
    requires LawfulLogs(m) && forall host :: host in p.hosts ==> |p.hosts[host].ids| > 0
    ensures forall c :: c in RareHosts(m, p) ==> c.score >= 0.5
  {
    hide Busiest, Over;
    var hosts, busiest := p.hosts, Busiest(p.hosts);
    var keys, judge := Listing(p.hosts.Keys), RareJudge(m, busiest);
    forall c | c in RareHosts(m, p) ensures c.score >= 0.5 {
      CollectMember(keys, Over(hosts, NO_HOST, judge), c);
      var i :| 0 <= i < |keys| && Over(hosts, NO_HOST, judge)(keys[i]) == Some(c);
      assert keys[i] in keys;
      OverAt(hosts, NO_HOST, judge, keys[i]);
      BusiestBound(hosts, keys[i]);
      RareAtLeastHalf(m, busiest, |hosts[keys[i]].ids|);
    }
  }

  lemma {:induction false} KeptWhole(cs: seq<Candidate>)
    requires forall c :: c in cs ==> c.score >= MIN_SCORE
    ensures Collect(cs, Keep) == cs
  {
    if |cs| > 0 {
      var front, c := cs[..|cs| - 1], cs[|cs| - 1];
      assert cs == front + [c];
      assert forall x :: x in front ==> x in cs;
      KeptWhole(front);
      assert c in cs;
      CollectSnoc(front, c, Keep);
    }
  }

  /** Every rare host found scores at least one half, so every one is kept. */
  lemma RareHostsKept(m: Maths, p: Aggregate, es: seq<LogEntry>)
    requires LawfulLogs(m) && Describes(m, p, es)
    ensures forall c :: c in RareHosts(m, p) ==> c.score >= 0.5
    ensures Collect(RareHosts(m, p), Keep) == RareHosts(m, p)
  {
    forall host | host in p.hosts ensures |p.hosts[host].ids| > 0 {
      assert HostFit(p.hosts[host], es, host);
    }
    RareHostsScoreHigh(m, p);
    KeptWhole(RareHosts(m, p));
  }

  // --- Off-hours actors are never dropped ---

  lemma ShareBelow(volume: real, median: real)
    requires median > 0.0 && volume < QUIET_HOUR_RATIO * median
    ensures volume / median < 0.15
  {
    var q, gap := volume / median, 0.15 * median - volume;
    assert q * median == volume;
    assert (0.15 - q) * median == gap;
    PositiveFactor(0.15 - q, median, gap);
  }

  lemma ProductBound(x: real, y: real)
    requires x > 0.85 && y >= 0.5
    ensures x * y > 0.425
  {
    SignOfProduct(x - 0.85, y - 0.5);
    assert (x - 0.85) * (y - 0.5) == x * y - 0.85 * y - 0.5 * x + 0.425;
  }

  /** Five requests in hours below 15% of the median score more than 0.42. */
  lemma QuietScoresHigh(median: real, volume: real, requests: nat)
    requires median > 0.0 && 0.0 <= volume < QUIET_HOUR_RATIO * median && requests >= MIN_OFF_HOURS_REQUESTS
    ensures Round3(ActorScore(median, volume, requests)) >= 0.425
  {
    var share := volume / median;
    ShareBelow(volume, median);
    var effort := Capped(requests as real / 10.0);
    assert effort >= 0.5;
    var product := (1.0 - share) * effort;
    ProductBound(1.0 - share, effort);
    assert ActorScore(median, volume, requests) == Capped(product);
    Round3Monotone(0.425, ActorScore(median, volume, requests));
    assert Round3(0.425) == 0.425;
  }

  lemma {:induction false} TotalBounds(xs: seq<real>, bound: real)
    requires |xs| > 0 && forall i :: 0 <= i < |xs| ==> 0.0 <= xs[i] < bound
    ensures 0.0 <= Total(xs) < |xs| as real * bound
  {
    var n := |xs| - 1;
    if n > 0 {
      TotalBounds(xs[..n], bound);
      assert n as real * bound + bound == |xs| as real * bound;
    } else {
      assert Total(xs[..0]) == 0.0;
    }
  }

  lemma MeanBounds(xs: seq<real>, bound: real)
    requires |xs| > 0 && forall i :: 0 <= i < |xs| ==> 0.0 <= xs[i] < bound
    ensures 0.0 <= Mean(xs) < bound
  {
    TotalBounds(xs, bound);
    var n, mean := |xs| as real, Mean(xs);
    assert mean * n == Total(xs);
    DivideBound(Total(xs), n, 0.0);
    PositiveFactor(bound - mean, n, n * bound - Total(xs));
  }

  lemma {:induction false} AllInside(xs: seq<real>, lo: real, hi: real)
    requires forall i :: 0 <= i < |xs| ==> lo <= xs[i] <= hi
    ensures CountIn(xs, lo, hi) == |xs|
  {
    if |xs| > 0 {
      AllInside(xs[..|xs| - 1], lo, hi);
    }
  }

  /** Every hour seen has a request, so the median hour does too. */
  lemma MedianPositive(m: Maths, p: Aggregate, es: seq<LogEntry>)
    requires Describes(m, p, es) && |p.hourCounts| >= 4
    ensures forall hour :: hour in p.hourCounts ==> p.hourCounts[hour] >= 1
    ensures Median(Volumes(p.hourCounts)) >= 1.0
  {
    forall hour | hour in p.hourCounts ensures p.hourCounts[hour] >= 1 {
      assert CountFit(p.hourCounts[hour], es, hour);
    }
    var hours, volumes := Listing(p.hourCounts.Keys), Volumes(p.hourCounts);
    forall i | 0 <= i < |volumes| ensures volumes[i] >= 1.0 {
      assert volumes[i] in volumes;
      CollectMember(hours, Volume(p.hourCounts), volumes[i]);
      var j :| 0 <= j < |hours| && Volume(p.hourCounts)(hours[j]) == Some(volumes[i]);
      assert hours[j] in hours;
    }
    AllInside(volumes, 1.0, Largest(volumes));
    MajorityMedian(volumes, 1.0, Largest(volumes));
  }

  /** The hours of an actor's quiet slots are quiet. */
  lemma QuietMean(counts: map<int, int>, median: real, slots: Slots, actor: string)
    requires forall hour :: hour in counts ==> counts[hour] >= 1
    ensures var hours := HoursOf(Listing(QuietSlots(slots, QuietHours(counts, median), actor)));
      |hours| > 0 ==> 0.0 <= MeanVolume(counts, hours) < QUIET_HOUR_RATIO * median
  {
    var quiet := QuietHours(counts, median);
    var order := Listing(QuietSlots(slots, quiet, actor));
    var hours := HoursOf(order);
    forall hour | hour in hours ensures hour in quiet {
      assert hour in Elems(MapSeq(order, HourOfSlot));
      var i :| 0 <= i < |order| && order[i].0 == hour;
      assert order[i] in order;
    }
    if |hours| > 0 {
      var volumes := MapSeq(hours, VolumeOf(counts));
      forall i | 0 <= i < |volumes| ensures 0.0 <= volumes[i] < QUIET_HOUR_RATIO * median {
        assert hours[i] in hours;
      }
      MeanBounds(volumes, QUIET_HOUR_RATIO * median);
    }
  }

  lemma QuietActorScoresHigh(counts: map<int, int>, median: real, actor: string, hours: seq<int>, activity: HourStats)
    requires JudgeActor(counts, median, actor, hours, activity).Some? && median > 0.0
    requires |hours| > 0 ==> 0.0 <= MeanVolume(counts, hours) < QUIET_HOUR_RATIO * median
    ensures JudgeActor(counts, median, actor, hours, activity).value.score >= 0.425
  {
    QuietScoresHigh(median, MeanVolume(counts, hours), |activity.ids|);
  }

  lemma OffHoursScoreHigh(pick: Chooser, p: Aggregate)
    requires |p.hourCounts| >= 4 && Median(Volumes(p.hourCounts)) > 0.0
    requires forall hour :: hour in p.hourCounts ==> p.hourCounts[hour] >= 1
    ensures forall c :: c in OffHoursOf(pick, p) ==> c.score >= 0.425
  {
    hide Collect, Volumes;
    var counts, median := p.hourCounts, Median(Volumes(p.hourCounts));
    var quiet := QuietHours(counts, median);
    var actors, judge := Listing(QuietActors(p.hourActors, quiet)), Quiet(pick, counts, median, p.hourActors);
    forall c | c in OffHoursOf(pick, p) ensures c.score >= 0.425 {
      CollectMember(actors, judge, c);
      var i :| 0 <= i < |actors| && judge(actors[i]) == Some(c);
      var order := Listing(QuietSlots(p.hourActors, quiet, actors[i]));
      QuietMean(counts, median, p.hourActors, actors[i]);
      QuietActorScoresHigh(counts, median, actors[i], HoursOf(order), Folded(pick, p.hourActors, order));
    }
  }

  /** Every off-hours finding scores above 0.42, so every one is kept. */
  lemma OffHoursKept(m: Maths, pick: Chooser, p: Aggregate, es: seq<LogEntry>)
    requires Describes(m, p, es)
    ensures forall c :: c in OffHoursOf(pick, p) ==> c.score >= 0.425
    ensures Collect(OffHoursOf(pick, p), Keep) == OffHoursOf(pick, p)
  {
    if |p.hourCounts| >= 4 {
      MedianPositive(m, p, es);
      OffHoursScoreHigh(pick, p);
    }
    KeptWhole(OffHoursOf(pick, p));
  }
}
