/** No finding cites a row that does not exist: from the aggregates through the detectors, the ranking and the
    model's answer, every row id that is saved is the id of a row of the upload. */
module Citations {
  import opened Common
  import opened LogEntries
  import opened Aggregates
  import opened Statistics
  import opened Candidates
  import opened VolumeSpikes
  import opened GroupDetectors
  import opened OffHours
  import opened Detection
  import opened Readings
  import opened HourFindings
  import Reporting

  ghost predicate IsRow(es: seq<LogEntry>, id: int) {
    exists i :: 0 <= i < |es| && es[i].id == id
  }

  ghost predicate Cites(es: seq<LogEntry>, ids: seq<int>) {
    forall id :: id in ids ==> IsRow(es, id)
  }

  ghost predicate AllCite(es: seq<LogEntry>, cs: seq<Candidate>) {
    forall c :: c in cs ==> Cites(es, c.entryIds)
  }

  lemma PickCites<K(!new)>(es: seq<LogEntry>, key: LogEntry -> Option<K>, k: K)
    ensures Cites(es, Pick(es, key, k, IdOf))
  {
    forall id | id in Pick(es, key, k, IdOf) ensures IsRow(es, id) {
      CollectMember(es, At(key, k, IdOf), id);
      var i :| 0 <= i < |es| && At(key, k, IdOf)(es[i]) == Some(id);
    }
  }

  lemma {:induction false} FlattenCites(es: seq<LogEntry>, xss: seq<seq<int>>)
    requires forall i :: 0 <= i < |xss| ==> Cites(es, xss[i])
    ensures Cites(es, Flatten(xss))
  {
    if |xss| > 0 {
      FlattenCites(es, xss[..|xss| - 1]);
    }
  }

  lemma CollectedCites<K>(es: seq<LogEntry>, ks: seq<K>, f: K -> Option<Candidate>)
    requires forall i :: 0 <= i < |ks| && f(ks[i]).Some? ==> Cites(es, f(ks[i]).value.entryIds)
    ensures AllCite(es, Collect(ks, f))
  {
    forall c | c in Collect(ks, f) ensures Cites(es, c.entryIds) {
      CollectMember(ks, f, c);
    }
  }

  /** Detectors that judge a group cite the group's own rows. */
  lemma FoundCites<K(!new), V(!new)>(es: seq<LogEntry>, groups: map<K, V>, absent: V, judge: (K, V) -> Option<Candidate>)
    requires forall k :: k in groups && judge(k, groups[k]).Some? ==> Cites(es, judge(k, groups[k]).value.entryIds)
    ensures AllCite(es, Found(groups, absent, judge))
  {
    var ks := Listing(groups.Keys);
    forall i | 0 <= i < |ks| && Over(groups, absent, judge)(ks[i]).Some?
      ensures Cites(es, Over(groups, absent, judge)(ks[i]).value.entryIds)
    {
      assert ks[i] in ks;
      OverAt(groups, absent, judge, ks[i]);
    }
    CollectedCites(es, ks, Over(groups, absent, judge));
  }

  lemma TransferIds(m: Maths, logs: seq<real>, k: Pair, g: ByteStats)
    requires JudgeTransfer(m, logs, k, g).Some?
    ensures JudgeTransfer(m, logs, k, g).value.entryIds == g.ids
  {}

  lemma TransfersCite(m: Maths, p: Aggregate, es: seq<LogEntry>)
    requires Grouped(p.userHost, es, UploadKey, BytesFitOf(m))
    ensures AllCite(es, Transfers(m, p))
  {
    var judge := TransferJudge(m, p.reqByteLogs);
    forall k | k in p.userHost && judge(k, p.userHost[k]).Some? ensures Cites(es, judge(k, p.userHost[k]).value.entryIds) {
      assert BytesFitOf(m)(p.userHost[k], es, k);
      TransferIds(m, p.reqByteLogs, k, p.userHost[k]);
      PickCites(es, UploadKey, k);
    }
    FoundCites(es, p.userHost, NO_BYTES, judge);
  }

  lemma BeaconIds(m: Maths, k: Pair, ordered: seq<Hit>)
    requires BeaconFrom(m, k, ordered).Some?
    ensures BeaconFrom(m, k, ordered).value.entryIds == MapSeq(ordered, HitId)
  {}

  lemma HitIsRow(es: seq<LogEntry>, k: Pair, h: Hit)
    requires h in Pick(es, FlowKey, k, HitOf)
    ensures IsRow(es, h.1)
  {
    CollectMember(es, At(FlowKey, k, HitOf), h);
    var i :| 0 <= i < |es| && At(FlowKey, k, HitOf)(es[i]) == Some(h);
  }

  lemma SortedMember<T>(xs: seq<T>, le: (T, T) -> bool, x: T)
    requires x in Sort(xs, le)
    ensures x in xs
  {
    assert x in multiset(Sort(xs, le));
    assert x in multiset(xs);
  }

  lemma HitsCite(es: seq<LogEntry>, k: Pair)
    ensures Cites(es, MapSeq(Sort(Pick(es, FlowKey, k, HitOf), HitLe), HitId))
  {
    var hits := Pick(es, FlowKey, k, HitOf);
    var ordered := Sort(hits, HitLe);
    forall id | id in MapSeq(ordered, HitId) ensures IsRow(es, id) {
      var j :| 0 <= j < |ordered| && HitId(ordered[j]) == id;
      SortedMember(hits, HitLe, ordered[j]);
      HitIsRow(es, k, ordered[j]);
    }
  }

  lemma BeaconsCite(m: Maths, p: Aggregate, es: seq<LogEntry>)
    requires Grouped(p.ipHostTimes, es, FlowKey, HitsFit)
    ensures AllCite(es, Beacons(m, p))
  {
    var judge := BeaconJudge(m);
    forall k | k in p.ipHostTimes && judge(k, p.ipHostTimes[k]).Some? ensures Cites(es, judge(k, p.ipHostTimes[k]).value.entryIds) {
      assert HitsFit(p.ipHostTimes[k], es, k);
      BeaconIds(m, k, Sort(p.ipHostTimes[k], HitLe));
      HitsCite(es, k);
    }
    FoundCites(es, p.ipHostTimes, [], judge);
  }

  lemma ThreatsCite(p: Aggregate, es: seq<LogEntry>)
    requires Grouped(p.threats, es, ThreatKey, ThreatFit)
    ensures AllCite(es, Threats(p))
  {
    forall k | k in p.threats ensures Cites(es, p.threats[k].ids) {
      assert ThreatFit(p.threats[k], es, k);
      PickCites(es, ThreatKey, k);
    }
    FoundCites(es, p.threats, NO_THREAT, JudgeThreat);
  }

  lemma RareIds(m: Maths, busiest: int, host: string, g: HostStats)
    requires JudgeRare(m, busiest, host, g).Some?
    ensures JudgeRare(m, busiest, host, g).value.entryIds == g.ids
  {}

  lemma RareHostsCite(m: Maths, p: Aggregate, es: seq<LogEntry>)
    requires Grouped(p.hosts, es, HostKey, HostFit)
    ensures AllCite(es, RareHosts(m, p))
  {
    var judge := RareJudge(m, Busiest(p.hosts));
    forall k | k in p.hosts && judge(k, p.hosts[k]).Some? ensures Cites(es, judge(k, p.hosts[k]).value.entryIds) {
      assert HostFit(p.hosts[k], es, k);
      RareIds(m, Busiest(p.hosts), k, p.hosts[k]);
      PickCites(es, HostKey, k);
    }
    FoundCites(es, p.hosts, NO_HOST, judge);
  }

  lemma WindowsCite(es: seq<LogEntry>, minutes: Minutes, scoring: nat -> real, ip: string)
    requires forall k :: k in minutes ==> Cites(es, minutes[k])
    ensures Cites(es, Flatten(MapSeq(FlaggedWindows(minutes, scoring, ip), IdsOf)))
  {
    var windows := FlaggedWindows(minutes, scoring, ip);
    forall i | 0 <= i < |windows| ensures Cites(es, MapSeq(windows, IdsOf)[i]) {
      var t := SortedInts(FlaggedMinutes(minutes, scoring, ip))[i];
      assert windows[i] == MakeWindow(minutes, scoring, (ip, t));
    }
    FlattenCites(es, MapSeq(windows, IdsOf));
  }

  lemma BurstIds(median: real, ip: string, windows: seq<Window>)
    requires BurstFrom(median, ip, windows).Some?
    ensures BurstFrom(median, ip, windows).value.entryIds == Flatten(MapSeq(windows, IdsOf))
  {}

  lemma BurstsOfCite(es: seq<LogEntry>, minutes: Minutes, scoring: nat -> real, median: real)
    requires forall k :: k in minutes ==> Cites(es, minutes[k])
    ensures AllCite(es, BurstsOf(minutes, scoring, median))
  {
    var ips := Listing(FlaggedAddresses(minutes, scoring));
    forall i | 0 <= i < |ips| && Burst(minutes, scoring, median)(ips[i]).Some?
      ensures Cites(es, Burst(minutes, scoring, median)(ips[i]).value.entryIds)
    {
      WindowsCite(es, minutes, scoring, ips[i]);
      BurstIds(median, ips[i], FlaggedWindows(minutes, scoring, ips[i]));
    }
    CollectedCites(es, ips, Burst(minutes, scoring, median));
  }

  lemma BurstsCite(m: Maths, p: Aggregate, es: seq<LogEntry>)
    requires Grouped(p.ipMinute, es, MinuteKey, MinutesFit)
    ensures AllCite(es, Bursts(m, p))
  {
    forall k | k in p.ipMinute ensures Cites(es, p.ipMinute[k]) {
      assert MinutesFit(p.ipMinute[k], es, k);
      PickCites(es, MinuteKey, k);
    }
    if |p.ipMinute| >= 5 {
      var counts := BucketCounts(p.ipMinute);
      BurstsOfCite(es, p.ipMinute, BurstScoring(m, counts), Median(counts));
    }
  }

  lemma {:induction false} FoldedCites(es: seq<LogEntry>, pick: Chooser, slots: Slots, order: seq<Slot>)
    requires forall k :: k in slots ==> Cites(es, slots[k].ids)
    ensures Cites(es, Folded(pick, slots, order).ids)
  {
    if |order| > 0 {
      FoldedCites(es, pick, slots, order[..|order| - 1]);
    }
  }

  lemma ActorIds(counts: map<int, int>, median: real, actor: string, hours: seq<int>, activity: HourStats)
    requires JudgeActor(counts, median, actor, hours, activity).Some?
    ensures JudgeActor(counts, median, actor, hours, activity).value.entryIds == activity.ids
  {}

  lemma OffHoursCite(pick: Chooser, p: Aggregate, es: seq<LogEntry>)
    requires Grouped(p.hourActors, es, HourActorKey, HourFit)
    ensures AllCite(es, OffHoursOf(pick, p))
  {
    forall k | k in p.hourActors ensures Cites(es, p.hourActors[k].ids) {
      assert HourFit(p.hourActors[k], es, k);
      PickCites(es, HourActorKey, k);
    }
    if |p.hourCounts| >= 4 {
      var counts, median := p.hourCounts, Median(Volumes(p.hourCounts));
      var quiet := QuietHours(counts, median);
      var actors, judge := Listing(QuietActors(p.hourActors, quiet)), Quiet(pick, counts, median, p.hourActors);
      forall i | 0 <= i < |actors| && judge(actors[i]).Some? ensures Cites(es, judge(actors[i]).value.entryIds) {
        var order := Listing(QuietSlots(p.hourActors, quiet, actors[i]));
        FoldedCites(es, pick, p.hourActors, order);
        ActorIds(counts, median, actors[i], HoursOf(order), Folded(pick, p.hourActors, order));
      }
      CollectedCites(es, actors, judge);
    }
  }

  /** Every detector cites rows of the upload only. */
  lemma DetectedCite(d: Detector, m: Maths, pick: Chooser, p: Aggregate, es: seq<LogEntry>)
    requires Describes(m, p, es)
    ensures AllCite(es, Detected(d, m, pick, p))
  {
    match d
    case VolumeSpike => BurstsCite(m, p, es);
    case DataExfil => TransfersCite(m, p, es);
    case Beaconing => BeaconsCite(m, p, es);
    case BlockedThreats => ThreatsCite(p, es);
    case RareDestination => RareHostsCite(m, p, es);
    case OffHoursActivity => OffHoursCite(pick, p, es);
  }

  lemma RankedWasFound(out: seq<Candidate>, cs: seq<Candidate>, c: Candidate)
    requires Ranks(out, cs) && c in out
    ensures c in cs
  {
    assert c in multiset(out);
    assert c in Collect(cs, Keep);
    CollectMember(cs, Keep, c);
  }

  /** Whatever is reported was found, up to the relabelling `fp`. */
  lemma ReportedWasFound(out: seq<Candidate>, cs: seq<Candidate>, fp: Candidate -> Candidate, c: Candidate)
    returns (found: Candidate)
    requires Reports(fp, out, cs) && c in out
    ensures found in cs && fp(found) == fp(c)
  {
    var i :| 0 <= i < |out| && out[i] == c;
    assert MapSeq(out, fp)[i] == fp(c);
    RankedWasFound(MapSeq(out, fp), MapSeq(cs, fp), fp(c));
    var j :| 0 <= j < |cs| && MapSeq(cs, fp)[j] == fp(c);
    found := cs[j];
  }

  lemma SameRows(es: seq<LogEntry>, xs: seq<int>, ys: seq<int>)
    requires multiset(xs) == multiset(ys) && Cites(es, ys)
    ensures Cites(es, xs)
  {
    forall id | id in xs ensures IsRow(es, id) {
      assert id in multiset(xs);
      assert id in ys;
    }
  }

  lemma SameIds(a: Candidate, b: Candidate)
    requires LooseFingerprint(a) == LooseFingerprint(b)
    ensures multiset(a.entryIds) == multiset(b.entryIds)
  {
    assert LooseFingerprint(a).entryIds == Sort(a.entryIds, IntLe);
    assert LooseFingerprint(b).entryIds == Sort(b.entryIds, IntLe);
  }

  /** Ranking and relabelling do not change which rows are cited. */
  lemma ReportCites(es: seq<LogEntry>, out: seq<Candidate>, cs: seq<Candidate>)
    requires Reports(LooseFingerprint, out, cs) && AllCite(es, cs)
    ensures AllCite(es, out)
  {
    forall c | c in out ensures Cites(es, c.entryIds) {
      var found := ReportedWasFound(out, cs, LooseFingerprint, c);
      SameIds(c, found);
      SameRows(es, c.entryIds, found.entryIds);
    }
  }

  lemma {:induction false} FlattenAllCite(es: seq<LogEntry>, parts: seq<seq<Candidate>>)
    requires forall i :: 0 <= i < |parts| ==> AllCite(es, parts[i])
    ensures AllCite(es, Flatten(parts))
  {
    if |parts| > 0 {
      FlattenAllCite(es, parts[..|parts| - 1]);
    }
  }

  /** A result over an aggregate of some rows cites those rows only. */
  lemma ResultCites(m: Maths, pick: Chooser, p: Aggregate, es: seq<LogEntry>, out: seq<Candidate>)
    requires Describes(m, p, es) && IsResult(m, pick, p, out)
    ensures AllCite(es, out)
  {
    var parts :| |parts| == |SCORERS| && AllAnswer(m, pick, p, parts) && out == Sort(Flatten(parts), ByRank);
    forall i | 0 <= i < |parts| ensures AllCite(es, parts[i]) {
      DetectedCite(SCORERS[i], m, pick, p, es);
      ReportCites(es, parts[i], Detected(SCORERS[i], m, pick, p));
    }
    FlattenAllCite(es, parts);
    forall c | c in out ensures Cites(es, c.entryIds) {
      assert c in multiset(out);
      assert c in Flatten(parts);
    }
  }

  /** Whatever the model answers, a saved finding cites rows of the upload only. */
  lemma SavedFindingsCite(m: Maths, pick: Chooser, p: Aggregate, es: seq<LogEntry>, out: seq<Candidate>,
                          items: seq<Reporting.Item>, row: Reporting.Finding)
    requires Describes(m, p, es) && IsResult(m, pick, p, out) && row in Collect(items, Reporting.Resolved(out))
    ensures Cites(es, row.entryIds)
  {
    ResultCites(m, pick, p, es, out);
    Reporting.RowsAreReal(items, out, row);
    var k :| 0 <= k < |out| && row.kind == out[k].kind && row.entryIds == out[k].entryIds;
    assert out[k] in out;
  }

  // --- The sample of hosts ---

  lemma FoundShape<K(!new), V(!new)>(groups: map<K, V>, absent: V, judge: (K, V) -> Option<Candidate>, c: Candidate)
    requires c in Found(groups, absent, judge) && forall k, v :: judge(k, v).Some? ==> !judge(k, v).value.evidence.OffHoursEvidence?
    ensures !c.evidence.OffHoursEvidence?
  {
    var ks := Listing(groups.Keys);
    CollectMember(ks, Over(groups, absent, judge), c);
    var i :| 0 <= i < |ks| && Over(groups, absent, judge)(ks[i]) == Some(c);
    OverAt(groups, absent, judge, ks[i]);
  }

  lemma WindowsShape(median: real, ip: string, windows: seq<Window>)
    requires BurstFrom(median, ip, windows).Some?
    ensures !BurstFrom(median, ip, windows).value.evidence.OffHoursEvidence?
  {}

  lemma BurstShape(minutes: Minutes, scoring: nat -> real, median: real, c: Candidate)
    requires c in BurstsOf(minutes, scoring, median)
    ensures !c.evidence.OffHoursEvidence?
  {
    var ips := Listing(FlaggedAddresses(minutes, scoring));
    CollectMember(ips, Burst(minutes, scoring, median), c);
    var i :| 0 <= i < |ips| && Burst(minutes, scoring, median)(ips[i]) == Some(c);
    WindowsShape(median, ips[i], FlaggedWindows(minutes, scoring, ips[i]));
  }

  lemma BurstsShowNone(m: Maths, p: Aggregate, c: Candidate)
    requires c in Bursts(m, p)
    ensures !c.evidence.OffHoursEvidence?
  {
    BurstShape(p.ipMinute, BurstScoring(m, BucketCounts(p.ipMinute)), Median(BucketCounts(p.ipMinute)), c);
  }

  lemma BeaconsShowNone(m: Maths, p: Aggregate, c: Candidate)
    requires c in Beacons(m, p)
    ensures !c.evidence.OffHoursEvidence?
  {
    FoundShape(p.ipHostTimes, [], BeaconJudge(m), c);
  }

  lemma TransfersShowNone(m: Maths, p: Aggregate, c: Candidate)
    requires c in Transfers(m, p)
    ensures !c.evidence.OffHoursEvidence?
  {
    FoundShape(p.userHost, NO_BYTES, TransferJudge(m, p.reqByteLogs), c);
  }

  lemma ThreatsShowNone(p: Aggregate, c: Candidate)
    requires c in Threats(p)
    ensures !c.evidence.OffHoursEvidence?
  {
    FoundShape(p.threats, NO_THREAT, JudgeThreat, c);
  }

  lemma RareHostsShowNone(m: Maths, p: Aggregate, c: Candidate)
    requires c in RareHosts(m, p)
    ensures !c.evidence.OffHoursEvidence?
  {
    hide Busiest;
    FoundShape(p.hosts, NO_HOST, RareJudge(m, Busiest(p.hosts)), c);
  }

  /** Only the off-hours detector shows a sample of hosts. */
  lemma OthersShowNone(d: Detector, m: Maths, pick: Chooser, p: Aggregate, c: Candidate)
    requires d != OffHoursActivity && c in Detected(d, m, pick, p)
    ensures !c.evidence.OffHoursEvidence?
  {
    match d
    case VolumeSpike => BurstsShowNone(m, p, c);
    case DataExfil => TransfersShowNone(m, p, c);
    case Beaconing => BeaconsShowNone(m, p, c);
    case BlockedThreats => ThreatsShowNone(p, c);
    case RareDestination => RareHostsShowNone(m, p, c);
    case OffHoursActivity =>
  }

  lemma OffHoursPart(m: Maths, pick: Chooser, p: Aggregate, parts: seq<seq<Candidate>>, i: nat, c: Candidate)
    requires |parts| == |SCORERS| && AllAnswer(m, pick, p, parts) && i < |parts| && c in parts[i] && c.evidence.OffHoursEvidence?
    ensures Sampled(p.hourActors, c)
  {
    if SCORERS[i] != OffHoursActivity {
      var found := ReportedWasFound(parts[i], Detected(SCORERS[i], m, pick, p), LooseFingerprint, c);
      OthersShowNone(SCORERS[i], m, pick, p, found);
      assert false;
    }
  }

  lemma {:induction false} InPart<T>(parts: seq<seq<T>>, x: T) returns (i: nat)
    requires x in Flatten(parts)
    ensures i < |parts| && x in parts[i]
  {
    var n := |parts| - 1;
    if x in parts[n] {
      i := n;
    } else {
      i := InPart(parts[..n], x);
    }
  }

  /** However capped sets were chosen, the hosts a finding shows are at most five, and each was met by its actor in one of
      the hours it lists. */
  lemma ShownHostsWereMet(m: Maths, pick: Chooser, p: Aggregate, es: seq<LogEntry>, out: seq<Candidate>, c: Candidate)
    requires Describes(m, p, es) && IsResult(m, pick, p, out) && c in out && c.evidence.OffHoursEvidence?
    ensures |c.evidence.hosts| <= 5
    ensures forall h :: h in c.evidence.hosts ==> MetBy(es, c.evidence.actor, c.evidence.hours, h)
  {
    var parts :| |parts| == |SCORERS| && AllAnswer(m, pick, p, parts) && out == Sort(Flatten(parts), ByRank);
    SortedMember(Flatten(parts), ByRank, c);
    var i := InPart(parts, c);
    OffHoursPart(m, pick, p, parts, i, c);
    ActorsAre(p.hourActors, es);
    SampledWereMet(p.hourActors, es, c);
  }
}
