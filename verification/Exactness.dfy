/** The sharding theorem: however the rows are split, in whatever order the shards are merged, the
    findings are those of a single process over all the rows. */
module Exactness {
  import opened Common
  import opened LogEntries
  import opened Aggregates
  import opened Describing
  import opened Statistics
  import opened Candidates
  import opened VolumeSpikes
  import opened GroupDetectors
  import opened OffHours
  import opened Detection
  import opened Sharding
  import opened SameReports
  import opened Readings

  // --- Titles ---

  const ARROW := " \U{2192} "

  function PairTitle(k: Pair, separator: string): string {
    k.0 + separator + k.1
  }

  /** Rows whose pairs read the same when written with `separator` are of the same pair. */
  ghost predicate TellsApart(es: seq<LogEntry>, key: LogEntry -> Option<Pair>, separator: string) {
    forall i, j :: 0 <= i < |es| && 0 <= j < |es| && key(es[i]).Some? && key(es[j]).Some?
      && PairTitle(key(es[i]).value, separator) == PairTitle(key(es[j]).value, separator)
      ==> key(es[i]) == key(es[j])
  }

  /** No two groups that a detector could report would carry the same title. Titles made of one name always differ. */
  ghost predicate SeparateTitles(es: seq<LogEntry>) {
    TellsApart(es, UploadKey, ARROW) && TellsApart(es, FlowKey, ARROW) && TellsApart(es, ThreatKey, " at ")
  }

  ghost predicate TitledBy<K(!new)>(f: K -> Option<Candidate>, title: K -> string) {
    forall k :: f(k).Some? ==> f(k).value.title == title(k)
  }

  lemma {:induction false} DistinctCollected<K(!new)>(ks: seq<K>, f: K -> Option<Candidate>, title: K -> string)
    requires NoDup(ks) && TitledBy(f, title)
    requires forall k, l :: k in ks && l in ks && title(k) == title(l) ==> k == l
    ensures DistinctTitles(Collect(ks, f))
  {
    if |ks| > 0 {
      var front, k := ks[..|ks| - 1], ks[|ks| - 1];
      DistinctCollected(front, f, title);
      if f(k).Some? {
        forall c | c in Collect(front, f) ensures c.title != title(k) {
          CollectMember(front, f, c);
          var i :| 0 <= i < |front| && f(front[i]) == Some(c);
          assert front[i] in ks && front[i] != k;
        }
      }
    }
  }

  lemma PickWitness<K(!new)>(es: seq<LogEntry>, key: LogEntry -> Option<K>, k: K) returns (i: nat)
    requires Pick(es, key, k, IdOf) != []
    ensures i < |es| && key(es[i]) == Some(k)
  {
    var id := Pick(es, key, k, IdOf)[0];
    CollectMember(es, At(key, k, IdOf), id);
    i :| 0 <= i < |es| && At(key, k, IdOf)(es[i]) == Some(id);
  }

  lemma PrefixInjective(prefix: string, a: string, b: string)
    requires prefix + a == prefix + b
    ensures a == b
  {
    assert a == (prefix + a)[|prefix|..];
    assert b == (prefix + b)[|prefix|..];
  }

  /** Findings over a dictionary of pairs have distinct titles when the rows tell the pairs apart. */
  lemma DistinctPairs<V(!new)>(
      groups: map<Pair, V>, absent: V, es: seq<LogEntry>, key: LogEntry -> Option<Pair>, fit: (V, seq<LogEntry>, Pair) -> bool,
      judge: (Pair, V) -> Option<Candidate>, prefix: string, separator: string)
    requires Grouped(groups, es, key, fit) && TellsApart(es, key, separator)
    requires forall k, v :: judge(k, v).Some? ==> judge(k, v).value.title == prefix + PairTitle(k, separator)
    ensures DistinctTitles(Found(groups, absent, judge))
  {
    var ks := Listing(groups.Keys);
    var title := (k: Pair) => prefix + PairTitle(k, separator);
    forall k, l | k in ks && l in ks && title(k) == title(l) ensures k == l {
      assert k in groups && l in groups;
      var i := PickWitness(es, key, k);
      var j := PickWitness(es, key, l);
      PrefixInjective(prefix, PairTitle(k, separator), PairTitle(l, separator));
    }
    forall k | Over(groups, absent, judge)(k).Some? ensures Over(groups, absent, judge)(k).value.title == title(k) {
      OverAt(groups, absent, judge, k);
    }
    DistinctCollected(ks, Over(groups, absent, judge), title);
  }

  lemma DistinctNames(names: set<string>, f: string -> Option<Candidate>, prefix: string)
    requires TitledBy(f, name => prefix + name)
    ensures DistinctTitles(Collect(Listing(names), f))
  {
    var title := (name: string) => prefix + name;
    forall k: string, l: string | title(k) == title(l) ensures k == l {
      PrefixInjective(prefix, k, l);
    }
    DistinctCollected(Listing(names), f, title);
  }

  // --- One detector ---

  lemma BurstTitles(m: Maths, p: Aggregate)
    ensures DistinctTitles(Bursts(m, p))
  {
    hide BucketCounts;
    if |p.ipMinute| >= 5 {
      var counts := BucketCounts(p.ipMinute);
      DistinctNames(FlaggedAddresses(p.ipMinute, BurstScoring(m, counts)), Burst(p.ipMinute, BurstScoring(m, counts), Median(counts)), "Request burst from ");
    }
  }

  lemma TransferTitle(m: Maths, logs: seq<real>, k: Pair, g: ByteStats)
    requires JudgeTransfer(m, logs, k, g).Some?
    ensures JudgeTransfer(m, logs, k, g).value.title == "Large outbound transfer: " + PairTitle(k, ARROW)
  {}

  lemma TransferTitles(m: Maths, p: Aggregate, es: seq<LogEntry>)
    requires Describes(m, p, es) && SeparateTitles(es)
    ensures DistinctTitles(Transfers(m, p))
  {
    hide JudgeTransfer;
    var judge := TransferJudge(m, p.reqByteLogs);
    forall k, g | judge(k, g).Some? ensures judge(k, g).value.title == "Large outbound transfer: " + PairTitle(k, ARROW) {
      TransferTitle(m, p.reqByteLogs, k, g);
    }
    DistinctPairs(p.userHost, NO_BYTES, es, UploadKey, BytesFitOf(m), judge, "Large outbound transfer: ", ARROW);
  }

  lemma BeaconTitles(m: Maths, p: Aggregate, es: seq<LogEntry>)
    requires Describes(m, p, es) && SeparateTitles(es)
    ensures DistinctTitles(Beacons(m, p))
  {
    DistinctPairs(p.ipHostTimes, [], es, FlowKey, HitsFit, BeaconJudge(m), "Periodic check-in: ", ARROW);
  }

  lemma ThreatTitles(m: Maths, p: Aggregate, es: seq<LogEntry>)
    requires Describes(m, p, es) && SeparateTitles(es)
    ensures DistinctTitles(Threats(p))
  {
    forall k: Pair ensures "" + PairTitle(k, " at ") == PairTitle(k, " at ") {}
    DistinctPairs(p.threats, NO_THREAT, es, ThreatKey, ThreatFit, JudgeThreat, "", " at ");
  }

  lemma RareTitles(m: Maths, p: Aggregate)
    ensures DistinctTitles(RareHosts(m, p))
  {
    DistinctNames(p.hosts.Keys, Over(p.hosts, NO_HOST, RareJudge(m, Busiest(p.hosts))), "Rarely-seen destination: ");
  }

  lemma ActorTitle(pick: Chooser, counts: map<int, int>, median: real, slots: Slots, actor: string)
    requires Quiet(pick, counts, median, slots)(actor).Some?
    ensures Quiet(pick, counts, median, slots)(actor).value.title == "Off-hours activity: " + actor
  {}

  lemma OffHoursTitles(pick: Chooser, p: Aggregate)
    ensures DistinctTitles(OffHoursOf(pick, p))
  {
    if |p.hourCounts| >= 4 {
      var median := Median(Volumes(p.hourCounts));
      var quiet, judge := QuietHours(p.hourCounts, median), Quiet(pick, p.hourCounts, median, p.hourActors);
      forall actor | judge(actor).Some? ensures judge(actor).value.title == "Off-hours activity: " + actor {
        ActorTitle(pick, p.hourCounts, median, p.hourActors, actor);
      }
      DistinctNames(QuietActors(p.hourActors, quiet), judge, "Off-hours activity: ");
    }
  }

  lemma TitlesDistinct(d: Detector, m: Maths, pick: Chooser, p: Aggregate, es: seq<LogEntry>)
    requires Describes(m, p, es) && SeparateTitles(es)
    ensures DistinctTitles(Detected(d, m, pick, p))
  {
    hide Describes, SeparateTitles, DistinctTitles;
    match d
    case VolumeSpike => BurstTitles(m, p);
    case DataExfil => TransferTitles(m, p, es);
    case Beaconing => BeaconTitles(m, p, es);
    case BlockedThreats => ThreatTitles(m, p, es);
    case RareDestination => RareTitles(m, p);
    case OffHoursActivity => OffHoursTitles(pick, p);
  }

  /** Each detector finds the same on two aggregates of the same rows. */
  lemma DetectedAlike(d: Detector, m: Maths, pick1: Chooser, pick2: Chooser, p: Aggregate, q: Aggregate)
    requires Same(p, q) && ChoosesEight(pick1) && ChoosesEight(pick2)
    ensures MapSeq(Detected(d, m, pick1, p), LooseFingerprint) == MapSeq(Detected(d, m, pick2, q), LooseFingerprint)
    ensures SameHosts(p.hourActors, q.hourActors) && Uncapped(p.hourActors) ==>
      MapSeq(Detected(d, m, pick1, p), Fingerprint) == MapSeq(Detected(d, m, pick2, q), Fingerprint)
  {
    match d
    case VolumeSpike =>
      BurstsAlike(m, p, q);
      LooseFollows(Bursts(m, p), Bursts(m, q));
    case DataExfil =>
      TransfersAlike(m, p, q);
      LooseFollows(Transfers(m, p), Transfers(m, q));
    case Beaconing =>
      BeaconsAlike(m, p, q);
      LooseFollows(Beacons(m, p), Beacons(m, q));
    case BlockedThreats =>
      ThreatsAlike(p, q);
      LooseFollows(Threats(p), Threats(q));
    case RareDestination =>
      RareHostsAlike(m, p, q);
      LooseFollows(RareHosts(m, p), RareHosts(m, q));
    case OffHoursActivity =>
      OffHoursAlike(pick1, pick2, p, q);
  }

  /** The aggregates hold the same hosts in every slot, and no slot has outgrown the cap. */
  ghost predicate SameUncapped(p: Aggregate, q: Aggregate) {
    SameHosts(p.hourActors, q.hourActors) && Uncapped(p.hourActors)
  }

  /** Two answers of one detector agree. */
  lemma AnswersAgree(d: Detector, m: Maths, pick1: Chooser, pick2: Chooser, p: Aggregate, q: Aggregate,
                     xs: seq<LogEntry>, ys: seq<LogEntry>, out1: seq<Candidate>, out2: seq<Candidate>)
    requires Describes(m, p, xs) && Describes(m, q, ys) && multiset(xs) == multiset(ys) && SeparateTitles(xs)
    requires ChoosesEight(pick1) && ChoosesEight(pick2)
    requires Answers(d, m, pick1, p, out1) && Answers(d, m, pick2, q, out2)
    ensures MapSeq(out1, LooseFingerprint) == MapSeq(out2, LooseFingerprint)
    ensures SameUncapped(p, q) ==> MapSeq(out1, Fingerprint) == MapSeq(out2, Fingerprint)
  {
    DescribeSame(m, p, q, xs, ys);
    TitlesDistinct(d, m, pick1, p, xs);
    DetectedAlike(d, m, pick1, pick2, p, q);
    FingerprintsKeepRank();
    ReportsAgree(LooseFingerprint, out1, Detected(d, m, pick1, p), out2, Detected(d, m, pick2, q));
    if SameUncapped(p, q) {
      ReportsAgree(Fingerprint, out1, Detected(d, m, pick1, p), out2, Detected(d, m, pick2, q));
    }
  }

  // --- All detectors ---

  lemma {:induction false} FlattenMaps(a: seq<seq<Candidate>>, b: seq<seq<Candidate>>, fp: Candidate -> Candidate)
    requires |a| == |b| && forall i :: 0 <= i < |a| ==> MapSeq(a[i], fp) == MapSeq(b[i], fp)
    ensures MapSeq(Flatten(a), fp) == MapSeq(Flatten(b), fp)
  {
    if |a| > 0 {
      var n := |a| - 1;
      FlattenMaps(a[..n], b[..n], fp);
      MapSeqAppend(Flatten(a[..n]), a[n], fp);
      MapSeqAppend(Flatten(b[..n]), b[n], fp);
    }
  }

  lemma RankedAlike(a: seq<seq<Candidate>>, b: seq<seq<Candidate>>, fp: Candidate -> Candidate)
    requires KeepsRank(fp)
    requires |a| == |b| && forall i :: 0 <= i < |a| ==> MapSeq(a[i], fp) == MapSeq(b[i], fp)
    ensures MapSeq(Sort(Flatten(a), ByRank), fp) == MapSeq(Sort(Flatten(b), ByRank), fp)
  {
    FlattenMaps(a, b, fp);
    SortMaps(Flatten(a), fp, ByRank);
    SortMaps(Flatten(b), fp, ByRank);
  }

  /** Results on two aggregates of the same rows agree. */
  lemma ResultsAgree(m: Maths, pick1: Chooser, pick2: Chooser, p: Aggregate, q: Aggregate,
                     xs: seq<LogEntry>, ys: seq<LogEntry>, out1: seq<Candidate>, out2: seq<Candidate>)
    requires Describes(m, p, xs) && Describes(m, q, ys) && multiset(xs) == multiset(ys) && SeparateTitles(xs)
    requires ChoosesEight(pick1) && ChoosesEight(pick2)
    requires IsResult(m, pick1, p, out1) && IsResult(m, pick2, q, out2)
    ensures MapSeq(out1, LooseFingerprint) == MapSeq(out2, LooseFingerprint)
    ensures SameUncapped(p, q) ==> MapSeq(out1, Fingerprint) == MapSeq(out2, Fingerprint)
  {
    var a :| |a| == |SCORERS| && AllAnswer(m, pick1, p, a) && out1 == Sort(Flatten(a), ByRank);
    var b :| |b| == |SCORERS| && AllAnswer(m, pick2, q, b) && out2 == Sort(Flatten(b), ByRank);
    forall i | 0 <= i < |a|
      ensures MapSeq(a[i], LooseFingerprint) == MapSeq(b[i], LooseFingerprint)
      ensures SameUncapped(p, q) ==> MapSeq(a[i], Fingerprint) == MapSeq(b[i], Fingerprint)
    {
      AnswersAgree(SCORERS[i], m, pick1, pick2, p, q, xs, ys, a[i], b[i]);
    }
    FingerprintsKeepRank();
    RankedAlike(a, b, LooseFingerprint);
    if SameUncapped(p, q) {
      RankedAlike(a, b, Fingerprint);
    }
  }

  function MapOfShard(m: Maths): seq<LogEntry> -> Aggregate {
    es => MapOf(m, es)
  }

  lemma MapOfShardDescribes(m: Maths, shard: seq<LogEntry>)
    ensures Describes(m, MapOfShard(m)(shard), shard)
  {
    MapDescribes(m, shard);
  }

  /** The aggregate a reduce scores describes every row, whatever the shards. */
  lemma ReducedDescribes(m: Maths, pick: Chooser, shards: seq<seq<LogEntry>>)
    requires ChoosesEight(pick)
    ensures Describes(m, MergeAllOf(pick, MapSeq(shards, MapOfShard(m))), Flatten(shards))
  {
    forall shard ensures Describes(m, MapOfShard(m)(shard), shard) {
      MapOfShardDescribes(m, shard);
    }
    AllDescribeBy(m, shards, MapOfShard(m));
    MergeAllDescribes(m, pick, MapSeq(shards, MapOfShard(m)), shards);
  }

  lemma OneShard(m: Maths, entries: seq<LogEntry>)
    ensures MapSeq([entries], MapOfShard(m)) == [MapOf(m, entries)]
    ensures Flatten([entries]) == entries
  {
    assert [entries][..0] == [];
  }

  /** Reducing the maps of any shards that together hold the rows of `entries` gives what one process gives. */
  lemma ShardingIsExact(m: Maths, pick1: Chooser, pick2: Chooser, shards: seq<seq<LogEntry>>, entries: seq<LogEntry>,
                        sharded: seq<Candidate>, whole: seq<Candidate>)
    requires multiset(Flatten(shards)) == multiset(entries) && SeparateTitles(entries)
    requires ChoosesEight(pick1) && ChoosesEight(pick2)
    requires IsResult(m, pick1, MergeAllOf(pick1, MapSeq(shards, MapOfShard(m))), sharded)
    requires IsResult(m, pick2, MergeAllOf(pick2, [MapOf(m, entries)]), whole)
    ensures MapSeq(sharded, LooseFingerprint) == MapSeq(whole, LooseFingerprint)
    ensures FewHosts(entries) ==> MapSeq(sharded, Fingerprint) == MapSeq(whole, Fingerprint)
    ensures SameUncapped(MergeAllOf(pick2, [MapOf(m, entries)]), MergeAllOf(pick1, MapSeq(shards, MapOfShard(m)))) ==>
      MapSeq(sharded, Fingerprint) == MapSeq(whole, Fingerprint)
  {
    OneShard(m, entries);
    var p, q := MergeAllOf(pick2, [MapOf(m, entries)]), MergeAllOf(pick1, MapSeq(shards, MapOfShard(m)));
    assert Describes(m, p, entries) by {
      ReducedDescribes(m, pick2, [entries]);
    }
    ReducedDescribes(m, pick1, shards);
    ResultsAgree(m, pick2, pick1, p, q, entries, Flatten(shards), whole, sharded);
    if FewHosts(entries) {
      FewHostsSame(m, p, q, entries, Flatten(shards));
    }
  }
}
