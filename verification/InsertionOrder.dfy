/** What insertion order adds. Python's dictionaries yield their keys in the order of first insertion, through merging and
    through JSON, so shards merged in order visit every dictionary in the same order as one process does. Ties between equal
    titles are then broken alike, and the report is the same whatever the names are. */
module InsertionOrder {
  import opened Common
  import opened Dictionaries
  import opened LogEntries
  import opened Aggregates
  import opened Statistics
  import opened Candidates
  import opened VolumeSpikes
  import opened GroupDetectors
  import opened OffHours
  import opened Detection
  import opened Sharding
  import opened SameReports
  import opened Exactness
  import opened KeptEvidence
  import opened Publishing
  import opened Protocol
  import opened Pipeline

  // --- The order of keys ---

  /** Keys in the order they are first met. */
  function FirstSeen<K(==)>(ks: seq<K>): seq<K> {
    if |ks| == 0 then []
    else
      var seen, k := FirstSeen(ks[..|ks| - 1]), ks[|ks| - 1];
      if k in seen then seen else seen + [k]
  }

  lemma {:induction false} FirstSeenMembers<K>(ks: seq<K>)
    ensures NoDup(FirstSeen(ks)) && forall k :: k in FirstSeen(ks) <==> k in ks
  {
    if |ks| > 0 {
      FirstSeenMembers(ks[..|ks| - 1]);
      assert ks == ks[..|ks| - 1] + [ks[|ks| - 1]];
    }
  }

  /** Something is met before something else is. */
  ghost predicate MetBefore<K>(ks: seq<K>, x: K, y: K) {
    exists a :: 0 <= a < |ks| && ks[a] == x && y !in ks[..a + 1]
  }

  /** What is met comes in the order in which it is first met. */
  lemma SeenIsMet<K>(ks: seq<K>, i: nat)
    requires i < |FirstSeen(ks)|
    ensures FirstSeen(ks)[i] in ks
  {
    var k := FirstSeen(ks)[i];
    FirstSeenMembers(ks);
    assert k in FirstSeen(ks);
  }

  lemma MetBeforeMore<K>(ks: seq<K>, last: K, x: K, y: K)
    ensures MetBefore(ks, x, y) ==> MetBefore(ks + [last], x, y)
    ensures x in ks && y !in ks ==> MetBefore(ks + [last], x, y)
  {
    var longer := ks + [last];
    if a :| 0 <= a < |ks| && ks[a] == x && y !in ks[..a + 1] {
      assert longer[a] == x && longer[..a + 1] == ks[..a + 1];
    }
    if x in ks && y !in ks {
      var a :| 0 <= a < |ks| && ks[a] == x;
      assert longer[a] == x && longer[..a + 1] == ks[..a + 1];
    }
  }

  /** What is met comes in the order in which it is first met. */
  lemma {:induction false} FirstSeenOrder<K>(ks: seq<K>)
    ensures forall i, j :: 0 <= i < j < |FirstSeen(ks)| ==> MetBefore(ks, FirstSeen(ks)[i], FirstSeen(ks)[j])
  {
    if |ks| > 0 {
      hide MetBefore;
      var front, k := ks[..|ks| - 1], ks[|ks| - 1];
      var before, seen := FirstSeen(front), FirstSeen(ks);
      FirstSeenOrder(front);
      FirstSeenMembers(front);
      assert ks == front + [k];
      forall i, j | 0 <= i < j < |seen| ensures MetBefore(ks, seen[i], seen[j]) {
        MetBeforeMore(front, k, seen[i], seen[j]);
        assert seen[i] == before[i] && before[i] in before;
        if j < |before| {
          assert seen[j] == before[j] && MetBefore(front, before[i], before[j]);
        } else {
          assert seen[j] == k && k !in before;
          SeenIsMet(front, i);
        }
      }
    }
  }

  lemma FirstSeenSnoc<K>(ks: seq<K>, k: K)
    ensures FirstSeen(ks + [k]) == if k in ks then FirstSeen(ks) else FirstSeen(ks) + [k]
  {
    assert (ks + [k])[..|ks|] == ks;
    FirstSeenMembers(ks);
  }

  /** Repetitions met later may be dropped beforehand. */
  lemma {:induction false} DropLater<K>(a: seq<K>, b: seq<K>)
    ensures FirstSeen(a + FirstSeen(b)) == FirstSeen(a + b)
  {
    if |b| == 0 {
      assert a + b == a;
    } else {
      var front, k := b[..|b| - 1], b[|b| - 1];
      DropLater(a, front);
      assert a + b == (a + front) + [k];
      FirstSeenSnoc(a + front, k);
      FirstSeenMembers(front);
      if k !in front {
        assert a + (FirstSeen(front) + [k]) == (a + FirstSeen(front)) + [k];
        FirstSeenSnoc(a + FirstSeen(front), k);
      }
    }
  }

  lemma {:induction false} DropEarlier<K>(a: seq<K>, b: seq<K>)
    ensures FirstSeen(FirstSeen(a) + b) == FirstSeen(a + b)
  {
    if |b| == 0 {
      var none: seq<K> := [];
      DropLater(none, a);
      assert none + FirstSeen(a) == FirstSeen(a) + b && none + a == a + b;
    } else {
      var front, k := b[..|b| - 1], b[|b| - 1];
      DropEarlier(a, front);
      assert a + b == (a + front) + [k] && FirstSeen(a) + b == (FirstSeen(a) + front) + [k];
      FirstSeenSnoc(a + front, k);
      FirstSeenSnoc(FirstSeen(a) + front, k);
      FirstSeenMembers(a);
    }
  }

  /** Inserting one dictionary's keys after another's meets all keys in the order of the rows. */
  lemma MeetAll<K>(a: seq<K>, b: seq<K>)
    ensures FirstSeen(FirstSeen(a) + FirstSeen(b)) == FirstSeen(a + b)
  {
    DropLater(FirstSeen(a), b);
    DropEarlier(a, b);
  }

  // --- The order of every dictionary of a partial ---

  datatype Orders = Orders(
    ipMinute: seq<Bucket>, userHost: seq<Pair>, ipHostTimes: seq<Pair>, threats: seq<Pair>, hosts: seq<string>, hourActors: seq<Slot>)

  const NO_ORDERS := Orders([], [], [], [], [], [])

  function KeyOrder<K(==)>(es: seq<LogEntry>, key: LogEntry -> Option<K>): seq<K> {
    FirstSeen(Collect(es, key))
  }

  /** The orders of a shard's map: `setdefault` inserts a key when a row first has it. */
  function OrdersOf(es: seq<LogEntry>): Orders {
    Orders(KeyOrder(es, MinuteKey), KeyOrder(es, UploadKey), KeyOrder(es, FlowKey), KeyOrder(es, ThreatKey), KeyOrder(es, HostKey),
           KeyOrder(es, HourActorKey))
  }

  /** The orders after folding `b` into `a`. */
  function MergedOrders(a: Orders, b: Orders): Orders {
    Orders(FirstSeen(a.ipMinute + b.ipMinute), FirstSeen(a.userHost + b.userHost), FirstSeen(a.ipHostTimes + b.ipHostTimes),
           FirstSeen(a.threats + b.threats), FirstSeen(a.hosts + b.hosts), FirstSeen(a.hourActors + b.hourActors))
  }

  function AllMergedOrders(os: seq<Orders>): Orders {
    if |os| == 0 then NO_ORDERS else MergedOrders(AllMergedOrders(os[..|os| - 1]), os[|os| - 1])
  }

  lemma KeyOrderAppend<K>(a: seq<LogEntry>, b: seq<LogEntry>, key: LogEntry -> Option<K>)
    ensures FirstSeen(KeyOrder(a, key) + KeyOrder(b, key)) == KeyOrder(a + b, key)
  {
    CollectAppend(a, b, key);
    MeetAll(Collect(a, key), Collect(b, key));
  }

  lemma OrdersAppend(a: seq<LogEntry>, b: seq<LogEntry>)
    ensures MergedOrders(OrdersOf(a), OrdersOf(b)) == OrdersOf(a + b)
  {
    KeyOrderAppend(a, b, MinuteKey);
    KeyOrderAppend(a, b, UploadKey);
    KeyOrderAppend(a, b, FlowKey);
    KeyOrderAppend(a, b, ThreatKey);
    KeyOrderAppend(a, b, HostKey);
    KeyOrderAppend(a, b, HourActorKey);
  }

  /** Merging shards in order gives the orders of one process. */
  lemma {:induction false} ShardsKeepOrder(shards: seq<seq<LogEntry>>)
    ensures AllMergedOrders(MapSeq(shards, OrdersOf)) == OrdersOf(Flatten(shards))
  {
    if |shards| > 0 {
      var n := |shards| - 1;
      ShardsKeepOrder(shards[..n]);
      assert MapSeq(shards, OrdersOf)[..n] == MapSeq(shards[..n], OrdersOf);
      OrdersAppend(Flatten(shards[..n]), shards[n]);
    }
  }

  /** A dictionary's order lists its keys. */
  lemma OrderEnumerates<K(!new), V>(groups: map<K, V>, es: seq<LogEntry>, key: LogEntry -> Option<K>, fit: (V, seq<LogEntry>, K) -> bool)
    requires Grouped(groups, es, key, fit)
    ensures Enumerates(KeyOrder(es, key), groups.Keys)
  {
    FirstSeenMembers(Collect(es, key));
    forall k ensures k in Collect(es, key) <==> k in groups.Keys {
      CollectMember(es, key, k);
      if k in groups {
        var i := PickWitness(es, key, k);
      }
      if k in Collect(es, key) {
        var i :| 0 <= i < |es| && key(es[i]) == Some(k);
        assert At(key, k, IdOf)(es[i]) == Some(es[i].id);
        CollectMember(es, At(key, k, IdOf), es[i].id);
      }
    }
  }

  /** `o` lists the keys of every dictionary of `p`. */
  ghost predicate Lists(o: Orders, p: Aggregate) {
    && Enumerates(o.ipMinute, p.ipMinute.Keys) && Enumerates(o.userHost, p.userHost.Keys)
    && Enumerates(o.ipHostTimes, p.ipHostTimes.Keys) && Enumerates(o.threats, p.threats.Keys)
    && Enumerates(o.hosts, p.hosts.Keys) && Enumerates(o.hourActors, p.hourActors.Keys)
  }

  lemma OrdersList(m: Maths, p: Aggregate, es: seq<LogEntry>)
    requires Describes(m, p, es)
    ensures Lists(OrdersOf(es), p)
  {
    OrderEnumerates(p.ipMinute, es, MinuteKey, MinutesFit);
    OrderEnumerates(p.userHost, es, UploadKey, BytesFitOf(m));
    OrderEnumerates(p.ipHostTimes, es, FlowKey, HitsFit);
    OrderEnumerates(p.threats, es, ThreatKey, ThreatFit);
    OrderEnumerates(p.hosts, es, HostKey, HostFit);
    OrderEnumerates(p.hourActors, es, HourActorKey, HourFit);
  }

  // --- The detectors, visiting dictionaries in order ---

  function If<K>(keep: K -> bool): K -> Option<K> {
    k => if keep(k) then Some(k) else None
  }

  function NameIf<K, G>(keep: K -> bool, group: K -> G): K -> Option<G> {
    k => if keep(k) then Some(group(k)) else None
  }

  /** The groups of the kept keys, in the order a dictionary of groups would get them. */
  function GroupOrder<K, G(==)>(ks: seq<K>, keep: K -> bool, group: K -> G): seq<G> {
    FirstSeen(Collect(ks, NameIf(keep, group)))
  }

  ghost function BurstsIn(m: Maths, p: Aggregate, o: Orders): seq<Candidate> {
    if |p.ipMinute| < 5 then []
    else
      var counts := BucketCounts(p.ipMinute);
      var scoring := BurstScoring(m, counts);
      Collect(GroupOrder(o.ipMinute, IsFlagged(p.ipMinute, scoring), AddressOf), Burst(p.ipMinute, scoring, Median(counts)))
  }

  function TransfersIn(m: Maths, p: Aggregate, o: Orders): seq<Candidate> {
    if |p.reqByteLogs| < 10 then [] else Collect(o.userHost, Over(p.userHost, NO_BYTES, TransferJudge(m, p.reqByteLogs)))
  }

  function BeaconsIn(m: Maths, p: Aggregate, o: Orders): seq<Candidate> {
    Collect(o.ipHostTimes, Over(p.ipHostTimes, [], BeaconJudge(m)))
  }

  function ThreatsIn(p: Aggregate, o: Orders): seq<Candidate> {
    Collect(o.threats, Over(p.threats, NO_THREAT, JudgeThreat))
  }

  ghost function RareHostsIn(m: Maths, p: Aggregate, o: Orders): seq<Candidate> {
    if |p.hosts| < 5 then [] else Collect(o.hosts, Over(p.hosts, NO_HOST, RareJudge(m, Busiest(p.hosts))))
  }

  predicate OfActor(quiet: set<int>, actor: string, k: Slot) {
    k.0 in quiet && k.1 == actor
  }

  function SlotsInOrder(ks: seq<Slot>, quiet: set<int>, actor: string): seq<Slot> {
    Collect(ks, If((k: Slot) => OfActor(quiet, actor, k)))
  }

  /** An actor judged on their quiet slots in the dictionary's order. */
  function JudgeInOrder(pick: Chooser, counts: map<int, int>, median: real, slots: Slots, ks: seq<Slot>): string -> Option<Candidate> {
    actor => JudgeSlots(pick, counts, median, slots, actor, SlotsInOrder(ks, QuietHours(counts, median), actor))
  }

  ghost function OffHoursIn(pick: Chooser, p: Aggregate, o: Orders): seq<Candidate> {
    if |p.hourCounts| < 4 then []
    else
      var median := Median(Volumes(p.hourCounts));
      Collect(GroupOrder(o.hourActors, InHours(QuietHours(p.hourCounts, median)), ActorOf),
              JudgeInOrder(pick, p.hourCounts, median, p.hourActors, o.hourActors))
  }

  ghost function DetectedIn(d: Detector, m: Maths, pick: Chooser, p: Aggregate, o: Orders): seq<Candidate> {
    match d
    case VolumeSpike => BurstsIn(m, p, o)
    case DataExfil => TransfersIn(m, p, o)
    case Beaconing => BeaconsIn(m, p, o)
    case BlockedThreats => ThreatsIn(p, o)
    case RareDestination => RareHostsIn(m, p, o)
    case OffHoursActivity => OffHoursIn(pick, p, o)
  }

  ghost function AnswersIn(m: Maths, pick: Chooser, p: Aggregate, o: Orders): seq<seq<Candidate>> {
    seq(|SCORERS|, i requires 0 <= i < |SCORERS| => Top(DetectedIn(SCORERS[i], m, pick, p, o)))
  }

  /** The report of a process whose dictionaries are in the orders `o`. Nothing is left open: sorting is stable. */
  ghost function ReportIn(m: Maths, pick: Chooser, p: Aggregate, o: Orders): seq<Candidate> {
    Sort(Flatten(AnswersIn(m, pick, p, o)), ByRank)
  }

  // --- Aggregates of the same rows, in the same orders ---

  lemma FoundInAlike<K(!new), V(!new)>(
      a: map<K, V>, b: map<K, V>, absent: V, same: (V, V) -> bool,
      judge1: (K, V) -> Option<Candidate>, judge2: (K, V) -> Option<Candidate>, ks: seq<K>)
    requires SameGroups(a, b, same) && JudgesAlike(same, judge1, judge2) && Enumerates(ks, a.Keys)
    ensures MapSeq(Collect(ks, Over(a, absent, judge1)), Fingerprint) == MapSeq(Collect(ks, Over(b, absent, judge2)), Fingerprint)
  {
    forall i | 0 <= i < |ks| ensures SameUpTo(Fingerprint, Over(a, absent, judge1)(ks[i]), Over(b, absent, judge2)(ks[i])) {
      assert ks[i] in ks;
      OverAlike(a, b, absent, same, judge1, judge2, ks[i]);
    }
    CollectMaps(ks, Over(a, absent, judge1), Over(b, absent, judge2), Fingerprint);
  }

  lemma TransfersInAlike(m: Maths, p: Aggregate, q: Aggregate, o: Orders)
    requires Same(p, q) && Lists(o, p)
    ensures MapSeq(TransfersIn(m, p, o), Fingerprint) == MapSeq(TransfersIn(m, q, o), Fingerprint)
  {
    forall k, x, y | SameBytes(x, y)
      ensures SameUpTo(Fingerprint, TransferJudge(m, p.reqByteLogs)(k, x), TransferJudge(m, q.reqByteLogs)(k, y))
    {
      TransferAlike(m, p.reqByteLogs, q.reqByteLogs, k, x, y);
    }
    SameLength(p.reqByteLogs, q.reqByteLogs);
    FoundInAlike(p.userHost, q.userHost, NO_BYTES, SameBytes, TransferJudge(m, p.reqByteLogs), TransferJudge(m, q.reqByteLogs), o.userHost);
  }

  lemma BeaconsInAlike(m: Maths, p: Aggregate, q: Aggregate, o: Orders)
    requires Same(p, q) && Lists(o, p)
    ensures MapSeq(BeaconsIn(m, p, o), Fingerprint) == MapSeq(BeaconsIn(m, q, o), Fingerprint)
  {
    forall k, x, y | SameBag<Hit>(x, y) ensures SameUpTo(Fingerprint, BeaconJudge(m)(k, x), BeaconJudge(m)(k, y)) {
      BeaconAlike(m, k, x, y);
    }
    FoundInAlike(p.ipHostTimes, q.ipHostTimes, [], SameBag<Hit>, BeaconJudge(m), BeaconJudge(m), o.ipHostTimes);
  }

  lemma ThreatsInAlike(p: Aggregate, q: Aggregate, o: Orders)
    requires Same(p, q) && Lists(o, p)
    ensures MapSeq(ThreatsIn(p, o), Fingerprint) == MapSeq(ThreatsIn(q, o), Fingerprint)
  {
    forall k, x, y | SameThreat(x, y) ensures SameUpTo(Fingerprint, JudgeThreat(k, x), JudgeThreat(k, y)) {
      SortedIds(x.ids, y.ids);
    }
    FoundInAlike(p.threats, q.threats, NO_THREAT, SameThreat, JudgeThreat, JudgeThreat, o.threats);
  }

  lemma RareHostsInAlike(m: Maths, p: Aggregate, q: Aggregate, o: Orders)
    requires Same(p, q) && Lists(o, p)
    ensures MapSeq(RareHostsIn(m, p, o), Fingerprint) == MapSeq(RareHostsIn(m, q, o), Fingerprint)
  {
    BusiestAlike(p.hosts, q.hosts);
    var busiest := Busiest(p.hosts);
    forall host, x, y | SameHost(x, y) ensures SameUpTo(Fingerprint, RareJudge(m, busiest)(host, x), RareJudge(m, busiest)(host, y)) {
      RareAlike(m, busiest, host, x, y);
    }
    assert |p.hosts| == |p.hosts.Keys| && |q.hosts| == |q.hosts.Keys|;
    FoundInAlike(p.hosts, q.hosts, NO_HOST, SameHost, RareJudge(m, busiest), RareJudge(m, busiest), o.hosts);
  }

  lemma FlagsInAlike(a: Minutes, b: Minutes, scoring: nat -> real)
    requires SameGroups(a, b, SameBag<int>)
    ensures forall k :: IsFlagged(a, scoring)(k) == IsFlagged(b, scoring)(k)
  {
    forall k ensures IsFlagged(a, scoring)(k) == IsFlagged(b, scoring)(k) {
      SameLength(Get(a, k, []), Get(b, k, []));
    }
  }

  lemma GroupOrderAgrees<K(!new), G>(ks: seq<K>, keep1: K -> bool, keep2: K -> bool, group: K -> G)
    requires forall k :: keep1(k) == keep2(k)
    ensures GroupOrder(ks, keep1, group) == GroupOrder(ks, keep2, group)
  {
    CollectAgrees(ks, NameIf(keep1, group), NameIf(keep2, group));
  }

  lemma BurstsOrdered(a: Minutes, b: Minutes, scoring: nat -> real, median: real, ks: seq<Bucket>)
    requires SameGroups(a, b, SameBag<int>)
    ensures MapSeq(Collect(GroupOrder(ks, IsFlagged(a, scoring), AddressOf), Burst(a, scoring, median)), Fingerprint)
         == MapSeq(Collect(GroupOrder(ks, IsFlagged(b, scoring), AddressOf), Burst(b, scoring, median)), Fingerprint)
  {
    FlagsInAlike(a, b, scoring);
    GroupOrderAgrees(ks, IsFlagged(a, scoring), IsFlagged(b, scoring), AddressOf);
    var ips := GroupOrder(ks, IsFlagged(a, scoring), AddressOf);
    forall i | 0 <= i < |ips| ensures SameUpTo(Fingerprint, Burst(a, scoring, median)(ips[i]), Burst(b, scoring, median)(ips[i])) {
      FlaggedAlike(a, b, scoring, ips[i]);
      BurstAlike(median, ips[i], FlaggedWindows(a, scoring, ips[i]), FlaggedWindows(b, scoring, ips[i]));
    }
    CollectMaps(ips, Burst(a, scoring, median), Burst(b, scoring, median), Fingerprint);
  }

  lemma BurstsInAlike(m: Maths, p: Aggregate, q: Aggregate, o: Orders)
    requires Same(p, q)
    ensures MapSeq(BurstsIn(m, p, o), Fingerprint) == MapSeq(BurstsIn(m, q, o), Fingerprint)
  {
    CountsAlike(p.ipMinute, q.ipMinute);
    var counts := BucketCounts(p.ipMinute);
    assert |p.ipMinute| == |p.ipMinute.Keys| && |q.ipMinute| == |q.ipMinute.Keys|;
    if |p.ipMinute| >= 5 {
      BurstsOrdered(p.ipMinute, q.ipMinute, BurstScoring(m, counts), Median(counts), o.ipMinute);
    }
  }

  lemma OffHoursInAlike(pick1: Chooser, pick2: Chooser, p: Aggregate, q: Aggregate, o: Orders)
    requires Same(p, q) && ChoosesEight(pick1) && ChoosesEight(pick2)
    ensures MapSeq(OffHoursIn(pick1, p, o), LooseFingerprint) == MapSeq(OffHoursIn(pick2, q, o), LooseFingerprint)
    ensures SameUncapped(p, q) ==> MapSeq(OffHoursIn(pick1, p, o), Fingerprint) == MapSeq(OffHoursIn(pick2, q, o), Fingerprint)
  {
    if |p.hourCounts| >= 4 {
      var counts, median := p.hourCounts, Median(Volumes(p.hourCounts));
      var quiet := QuietHours(counts, median);
      var actors := GroupOrder(o.hourActors, InHours(quiet), ActorOf);
      var f, g := JudgeInOrder(pick1, counts, median, p.hourActors, o.hourActors), JudgeInOrder(pick2, counts, median, q.hourActors, o.hourActors);
      forall i | 0 <= i < |actors|
        ensures SameUpTo(LooseFingerprint, f(actors[i]), g(actors[i]))
        ensures SameUncapped(p, q) ==> SameUpTo(Fingerprint, f(actors[i]), g(actors[i]))
      {
        var order := SlotsInOrder(o.hourActors, quiet, actors[i]);
        JudgeSlotsAgrees(pick1, pick2, counts, median, p.hourActors, q.hourActors, actors[i], order, order);
      }
      CollectMaps(actors, f, g, LooseFingerprint);
      if SameUncapped(p, q) {
        CollectMaps(actors, f, g, Fingerprint);
      }
    }
  }

  lemma DetectedInAlike(d: Detector, m: Maths, pick1: Chooser, pick2: Chooser, p: Aggregate, q: Aggregate, o: Orders)
    requires Same(p, q) && Lists(o, p) && ChoosesEight(pick1) && ChoosesEight(pick2)
    ensures MapSeq(DetectedIn(d, m, pick1, p, o), LooseFingerprint) == MapSeq(DetectedIn(d, m, pick2, q, o), LooseFingerprint)
    ensures SameUncapped(p, q) ==> MapSeq(DetectedIn(d, m, pick1, p, o), Fingerprint) == MapSeq(DetectedIn(d, m, pick2, q, o), Fingerprint)
  {
    hide Same, Lists, SameUncapped;
    match d
    case VolumeSpike =>
      BurstsInAlike(m, p, q, o);
      LooseFollows(BurstsIn(m, p, o), BurstsIn(m, q, o));
    case DataExfil =>
      TransfersInAlike(m, p, q, o);
      LooseFollows(TransfersIn(m, p, o), TransfersIn(m, q, o));
    case Beaconing =>
      BeaconsInAlike(m, p, q, o);
      LooseFollows(BeaconsIn(m, p, o), BeaconsIn(m, q, o));
    case BlockedThreats =>
      ThreatsInAlike(p, q, o);
      LooseFollows(ThreatsIn(p, o), ThreatsIn(q, o));
    case RareDestination =>
      RareHostsInAlike(m, p, q, o);
      LooseFollows(RareHostsIn(m, p, o), RareHostsIn(m, q, o));
    case OffHoursActivity =>
      OffHoursInAlike(pick1, pick2, p, q, o);
  }

  lemma TopOfMapped(xs: seq<Candidate>, fp: Candidate -> Candidate)
    requires KeepsRank(fp)
    ensures Top(MapSeq(xs, fp)) == MapSeq(Top(xs), fp)
  {
    hide Collect, Sort, MapSeq;
    var ranked := Sort(Collect(xs, Keep), ByScoreTitle);
    KeepMaps(xs, fp);
    SortMaps(Collect(xs, Keep), fp, ByScoreTitle);
    MapSeqTake(ranked, Min(|ranked|, MAX_PER_DETECTOR), fp);
  }

  /** Ranking is a function of what the fingerprint keeps, ties included. */
  lemma TopMaps(xs: seq<Candidate>, ys: seq<Candidate>, fp: Candidate -> Candidate)
    requires KeepsRank(fp) && MapSeq(xs, fp) == MapSeq(ys, fp)
    ensures MapSeq(Top(xs), fp) == MapSeq(Top(ys), fp)
  {
    TopOfMapped(xs, fp);
    TopOfMapped(ys, fp);
  }

  lemma ReportsInAlike(m: Maths, pick1: Chooser, pick2: Chooser, p: Aggregate, q: Aggregate, o: Orders, fp: Candidate -> Candidate)
    requires KeepsRank(fp)
    requires forall d :: MapSeq(DetectedIn(d, m, pick1, p, o), fp) == MapSeq(DetectedIn(d, m, pick2, q, o), fp)
    ensures MapSeq(ReportIn(m, pick1, p, o), fp) == MapSeq(ReportIn(m, pick2, q, o), fp)
  {
    var a, b := AnswersIn(m, pick1, p, o), AnswersIn(m, pick2, q, o);
    forall i | 0 <= i < |a| ensures MapSeq(a[i], fp) == MapSeq(b[i], fp) {
      TopMaps(DetectedIn(SCORERS[i], m, pick1, p, o), DetectedIn(SCORERS[i], m, pick2, q, o), fp);
    }
    RankedAlike(a, b, fp);
  }

  /** Same rows, same orders: the same report. */
  lemma SameReportIn(m: Maths, pick1: Chooser, pick2: Chooser, p: Aggregate, q: Aggregate, o: Orders)
    requires Same(p, q) && Lists(o, p) && ChoosesEight(pick1) && ChoosesEight(pick2)
    ensures MapSeq(ReportIn(m, pick1, p, o), LooseFingerprint) == MapSeq(ReportIn(m, pick2, q, o), LooseFingerprint)
    ensures SameUncapped(p, q) ==> MapSeq(ReportIn(m, pick1, p, o), Fingerprint) == MapSeq(ReportIn(m, pick2, q, o), Fingerprint)
  {
    hide Same, Lists, SameUncapped;
    FingerprintsKeepRank();
    forall d
      ensures MapSeq(DetectedIn(d, m, pick1, p, o), LooseFingerprint) == MapSeq(DetectedIn(d, m, pick2, q, o), LooseFingerprint)
      ensures SameUncapped(p, q) ==> MapSeq(DetectedIn(d, m, pick1, p, o), Fingerprint) == MapSeq(DetectedIn(d, m, pick2, q, o), Fingerprint)
    {
      DetectedInAlike(d, m, pick1, pick2, p, q, o);
    }
    ReportsInAlike(m, pick1, pick2, p, q, o, LooseFingerprint);
    if SameUncapped(p, q) {
      ReportsInAlike(m, pick1, pick2, p, q, o, Fingerprint);
    }
  }

  // --- Visiting in order is one of the ways to visit ---

  lemma Reordered<K(!new)>(ks: seq<K>, keys: set<K>, f: K -> Option<Candidate>)
    requires Enumerates(ks, keys)
    ensures multiset(Collect(ks, f)) == multiset(Collect(Listing(keys), f))
  {
    EnumerationsPermute(ks, Listing(keys), keys);
    CollectPermutes(ks, Listing(keys), f);
  }

  lemma GroupOrderEnumerates<K(!new), G(!new)>(ks: seq<K>, keys: set<K>, keep: K -> bool, group: K -> G)
    requires Enumerates(ks, keys)
    ensures Enumerates(GroupOrder(ks, keep, group), GroupNames(keys, keep, group))
  {
    var named := Collect(ks, NameIf(keep, group));
    FirstSeenMembers(named);
    forall g ensures g in named <==> g in GroupNames(keys, keep, group) {
      CollectMember(ks, NameIf(keep, group), g);
      if g in named {
        var i :| 0 <= i < |ks| && NameIf(keep, group)(ks[i]) == Some(g);
        assert ks[i] in ks;
      }
      if g in GroupNames(keys, keep, group) {
        var k :| k in keys && keep(k) && group(k) == g;
        var i :| 0 <= i < |ks| && ks[i] == k;
        assert NameIf(keep, group)(ks[i]) == Some(g);
      }
    }
  }

  lemma {:induction false} FilterKeeps<K(!new)>(ks: seq<K>, keep: K -> bool)
    requires NoDup(ks)
    ensures NoDup(Collect(ks, If(keep))) && forall k :: k in Collect(ks, If(keep)) <==> k in ks && keep(k)
  {
    if |ks| > 0 {
      var front, k := ks[..|ks| - 1], ks[|ks| - 1];
      FilterKeeps(front, keep);
      assert ks == front + [k] && k !in front;
      CollectSnoc(front, k, If(keep));
    }
  }

  lemma SlotsEnumerate(ks: seq<Slot>, slots: Slots, quiet: set<int>, actor: string)
    requires Enumerates(ks, slots.Keys)
    ensures Enumerates(SlotsInOrder(ks, quiet, actor), QuietSlots(slots, quiet, actor))
  {
    FilterKeeps(ks, (k: Slot) => OfActor(quiet, actor, k));
  }

  /** The quiet slots of each actor, in the dictionary's order. */
  function OrdersByActor(slots: Slots, ks: seq<Slot>, quiet: set<int>): map<string, seq<Slot>> {
    map actor | actor in QuietActors(slots, quiet) :: SlotsInOrder(ks, quiet, actor)
  }

  lemma ActorsInOrder(pick: Chooser, counts: map<int, int>, median: real, slots: Slots, ks: seq<Slot>)
    requires Enumerates(ks, slots.Keys)
    ensures var quiet := QuietHours(counts, median);
      var orders := OrdersByActor(slots, ks, quiet);
      && (forall actor :: actor in orders ==> Enumerates(orders[actor], QuietSlots(slots, quiet, actor)))
      && multiset(Collect(GroupOrder(ks, InHours(quiet), ActorOf), JudgeInOrder(pick, counts, median, slots, ks)))
         == multiset(Collect(Listing(orders.Keys), ActorJudge(pick, counts, median, slots, orders)))
  {
    hide SlotsInOrder, QuietSlots, JudgeSlots, Collect, Listing;
    var quiet := QuietHours(counts, median);
    var orders, actors := OrdersByActor(slots, ks, quiet), GroupOrder(ks, InHours(quiet), ActorOf);
    forall actor | actor in orders ensures Enumerates(orders[actor], QuietSlots(slots, quiet, actor)) {
      SlotsEnumerate(ks, slots, quiet, actor);
    }
    GroupOrderEnumerates(ks, slots.Keys, InHours(quiet), ActorOf);
    var judge, inOrder := ActorJudge(pick, counts, median, slots, orders), JudgeInOrder(pick, counts, median, slots, ks);
    forall i | 0 <= i < |actors| ensures judge(actors[i]) == inOrder(actors[i]) {
      assert actors[i] in actors;
    }
    CollectAgrees(actors, judge, inOrder);
    Reordered(actors, orders.Keys, judge);
  }

  lemma OffHoursInAnswers(pick: Chooser, p: Aggregate, o: Orders)
    requires ChoosesEight(pick) && Enumerates(o.hourActors, p.hourActors.Keys)
    ensures Reports(LooseFingerprint, Top(OffHoursIn(pick, p, o)), OffHoursOf(pick, p))
    ensures Uncapped(p.hourActors) ==> Reports(Fingerprint, Top(OffHoursIn(pick, p, o)), OffHoursOf(pick, p))
    ensures forall c :: c in Top(OffHoursIn(pick, p, o)) ==> Sampled(p.hourActors, c)
  {
    hide Top, Reports, Enumerates, GroupOrder, Collect, Listing, QuietSlots, ActorJudge;
    if |p.hourCounts| < 4 {
      NothingReported(pick, p);
    } else {
      var median := Median(Volumes(p.hourCounts));
      var quiet := QuietHours(p.hourCounts, median);
      ActorsInOrder(pick, p.hourCounts, median, p.hourActors, o.hourActors);
      QuietReported(pick, p, median, OrdersByActor(p.hourActors, o.hourActors, quiet), OffHoursIn(pick, p, o));
    }
  }

  lemma BurstsInOrder(m: Maths, p: Aggregate, o: Orders)
    requires Enumerates(o.ipMinute, p.ipMinute.Keys)
    ensures multiset(BurstsIn(m, p, o)) == multiset(Bursts(m, p))
  {
    if |p.ipMinute| >= 5 {
      var counts := BucketCounts(p.ipMinute);
      var scoring := BurstScoring(m, counts);
      hide BucketCounts, BurstScoring, Median, Collect, Listing;
      GroupOrderEnumerates(o.ipMinute, p.ipMinute.Keys, IsFlagged(p.ipMinute, scoring), AddressOf);
      Reordered(GroupOrder(o.ipMinute, IsFlagged(p.ipMinute, scoring), AddressOf), FlaggedAddresses(p.ipMinute, scoring),
                Burst(p.ipMinute, scoring, Median(counts)));
    }
  }

  lemma FoundInOrder(d: Detector, m: Maths, pick: Chooser, p: Aggregate, o: Orders)
    requires Lists(o, p) && !d.OffHoursActivity?
    ensures multiset(DetectedIn(d, m, pick, p, o)) == multiset(Detected(d, m, pick, p))
  {
    hide BurstsIn, Bursts, Collect, Listing, Busiest;
    match d
    case VolumeSpike => BurstsInOrder(m, p, o);
    case DataExfil => Reordered(o.userHost, p.userHost.Keys, Over(p.userHost, NO_BYTES, TransferJudge(m, p.reqByteLogs)));
    case Beaconing => Reordered(o.ipHostTimes, p.ipHostTimes.Keys, Over(p.ipHostTimes, [], BeaconJudge(m)));
    case BlockedThreats => Reordered(o.threats, p.threats.Keys, Over(p.threats, NO_THREAT, JudgeThreat));
    case RareDestination => Reordered(o.hosts, p.hosts.Keys, Over(p.hosts, NO_HOST, RareJudge(m, Busiest(p.hosts))));
    case OffHoursActivity =>
  }

  lemma AnswerInOrder(d: Detector, m: Maths, pick: Chooser, p: Aggregate, o: Orders)
    requires Lists(o, p) && ChoosesEight(pick)
    ensures Answers(d, m, pick, p, Top(DetectedIn(d, m, pick, p, o)))
  {
    hide Top, Reports, Ranks;
    if d.OffHoursActivity? {
      OffHoursInAnswers(pick, p, o);
    } else {
      FoundInOrder(d, m, pick, p, o);
      TopRanks(DetectedIn(d, m, pick, p, o), Detected(d, m, pick, p));
      RankAnswers(Top(DetectedIn(d, m, pick, p, o)), Detected(d, m, pick, p));
    }
  }

  /** So the report in insertion order is a result the detectors may give when their dictionaries are visited in any order. */
  lemma InOrderIsResult(m: Maths, pick: Chooser, p: Aggregate, o: Orders)
    requires Lists(o, p) && ChoosesEight(pick)
    ensures IsResult(m, pick, p, ReportIn(m, pick, p, o))
  {
    hide Answers, Lists;
    var parts := AnswersIn(m, pick, p, o);
    forall i | 0 <= i < |parts| ensures Answers(SCORERS[i], m, pick, p, parts[i]) {
      AnswerInOrder(SCORERS[i], m, pick, p, o);
    }
    assert AllAnswer(m, pick, p, parts);
  }

  // --- Sharding in order ---

  /** The orders of a reduce of `shards`, which is those of one process. */
  function MergedOrdersOf(shards: seq<seq<LogEntry>>): Orders {
    AllMergedOrders(MapSeq(shards, OrdersOf))
  }

  lemma BothDescribe(m: Maths, pick1: Chooser, pick2: Chooser, shards: seq<seq<LogEntry>>)
    requires ChoosesEight(pick1) && ChoosesEight(pick2)
    ensures Describes(m, Merged(m, pick1, shards), Flatten(shards)) && Describes(m, Whole(m, pick2, Flatten(shards)), Flatten(shards))
  {
    OneShard(m, Flatten(shards));
    ReducedDescribes(m, pick1, shards);
    ReducedDescribes(m, pick2, [Flatten(shards)]);
  }

  /** The sharding theorem without conditions on names: rows split in order, shards merged in order, dictionaries in
      insertion order. Both reports are results the detectors may give. */
  lemma ShardingInOrderIsExact(m: Maths, pick1: Chooser, pick2: Chooser, shards: seq<seq<LogEntry>>)
    requires ChoosesEight(pick1) && ChoosesEight(pick2)
    ensures var sharded := ReportIn(m, pick1, Merged(m, pick1, shards), MergedOrdersOf(shards));
      var whole := ReportIn(m, pick2, Whole(m, pick2, Flatten(shards)), OrdersOf(Flatten(shards)));
      && IsResult(m, pick1, Merged(m, pick1, shards), sharded)
      && IsResult(m, pick2, Whole(m, pick2, Flatten(shards)), whole)
      && MapSeq(sharded, LooseFingerprint) == MapSeq(whole, LooseFingerprint)
      && (Uncapped(Merged(m, pick1, shards).hourActors) ==> MapSeq(sharded, Fingerprint) == MapSeq(whole, Fingerprint))
  {
    hide ReportIn, Whole, Merged, IsResult, Lists;
    var rows := Flatten(shards);
    var p, q := Whole(m, pick2, rows), Merged(m, pick1, shards);
    ShardsKeepOrder(shards);
    BothDescribe(m, pick1, pick2, shards);
    DescribeSame(m, p, q, rows, rows);
    OrdersList(m, p, rows);
    OrdersList(m, q, rows);
    InOrderIsResult(m, pick2, p, OrdersOf(rows));
    InOrderIsResult(m, pick1, q, OrdersOf(rows));
    SameReportIn(m, pick2, pick1, p, q, OrdersOf(rows));
    SameHostsIff(m, pick2, pick1, shards);
  }

  /** End to end: in every run, whatever crashes, raises, expires or interleaves, every save is reported as one process
      would report all rows, whatever they hold. */
  lemma SavedReportsAreExact(m: Maths, rows: seq<LogEntry>, shardSize: int, workers: nat, acts: seq<Action>, i: nat,
                             pick1: Chooser, pick2: Chooser)
    requires Run(AnalysisOf(m, rows, shardSize), workers, acts).Some?
    requires (|rows| <= SizeUsed(shardSize) && |rows| <= 10_000_000) || forall j :: 0 <= j < |acts| ==> !ByReaper(acts[j])
    requires i < |Run(AnalysisOf(m, rows, shardSize), workers, acts).value.saves|
    requires ChoosesEight(pick1) && ChoosesEight(pick2)
    ensures var merged := MergeAllOf(pick1, Run(AnalysisOf(m, rows, shardSize), workers, acts).value.saves[i]);
      var saved := ReportIn(m, pick1, merged, MergedOrdersOf(Slices(rows, ShardsFor(|rows|, shardSize), SizeUsed(shardSize))));
      var whole := ReportIn(m, pick2, Whole(m, pick2, rows), OrdersOf(rows));
      && MapSeq(saved, LooseFingerprint) == MapSeq(whole, LooseFingerprint)
      && (Uncapped(merged.hourActors) ==> MapSeq(saved, Fingerprint) == MapSeq(whole, Fingerprint))
  {
    hide ReportIn, Whole;
    SavedParts(m, rows, shardSize, workers, acts, i);
    SlicesCover(rows, shardSize);
    ShardingInOrderIsExact(m, pick1, pick2, Slices(rows, ShardsFor(|rows|, shardSize), SizeUsed(shardSize)));
  }
}
