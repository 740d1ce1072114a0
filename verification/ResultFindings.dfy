/** What an analysis reports, in terms of the rows of the log alone: the reports of the six detectors put in one order. */
module ResultFindings {
  import opened Common
  import opened LogEntries
  import opened Aggregates
  import opened Candidates
  import opened Detection
  import opened Exactness
  import opened Readings
  import opened GroupFindings
  import opened BurstFindings
  import opened HourFindings
  import OffHours

  /** What one detector reports of the rows. */
  ghost predicate Tells(d: Detector, m: Maths, es: seq<LogEntry>, out: seq<Candidate>) {
    match d
    case VolumeSpike => Reported(out, FindsBursts(m, es))
    case DataExfil => Reported(out, FindsTransfers(m, es))
    case Beaconing => Reported(out, FindsBeacons(m, es))
    case BlockedThreats => Reported(out, FindsThreats(es))
    case RareDestination => Reported(out, FindsRareHosts(m, es))
    case OffHoursActivity =>
      HoursReported(out, es) && forall c :: c in out ==> HostsMet(es, c) && (FewHosts(es) ==> FirstHostsMet(es, c))
  }

  /** Best first, then by kind, then by title. */
  ghost predicate BestFirst(out: seq<Candidate>) {
    forall i, j :: 0 <= i < j < |out| ==>
      || out[i].score > out[j].score
      || (out[i].score == out[j].score && StrLe(out[i].kind, out[j].kind)
          && (out[i].kind == out[j].kind ==> StrLe(out[i].title, out[j].title)))
  }

  ghost predicate SixReports(m: Maths, es: seq<LogEntry>, out: seq<Candidate>, bursts: seq<Candidate>, transfers: seq<Candidate>,
                             beacons: seq<Candidate>, threats: seq<Candidate>, rare: seq<Candidate>, hours: seq<Candidate>) {
    && Tells(VolumeSpike, m, es, bursts) && Tells(DataExfil, m, es, transfers) && Tells(Beaconing, m, es, beacons)
    && Tells(BlockedThreats, m, es, threats) && Tells(RareDestination, m, es, rare) && Tells(OffHoursActivity, m, es, hours)
    && multiset(out) == multiset(bursts + transfers + beacons + threats + rare + hours) && BestFirst(out)
  }

  /** The reports of all six detectors on the rows, best first. */
  ghost predicate IsReport(m: Maths, es: seq<LogEntry>, out: seq<Candidate>) {
    exists bursts, transfers, beacons, threats, rare, hours :: SixReports(m, es, out, bursts, transfers, beacons, threats, rare, hours)
  }

  lemma AnswerTells(d: Detector, m: Maths, pick: Chooser, p: Aggregate, es: seq<LogEntry>, out: seq<Candidate>)
    requires ChoosesEight(pick) && Reads(m, p, es) && Answers(d, m, pick, p, out)
    ensures Tells(d, m, es, out)
  {
    hide Reported, HoursReported, HostsMet, FirstHostsMet, FewHosts, Ranks, Reports, OffHours.Sampled, OffHours.Uncapped;
    match d
    case VolumeSpike => BurstsReported(m, p, es, out);
    case DataExfil => TransfersReported(m, p, es, out);
    case Beaconing => BeaconsReported(m, p, es, out);
    case BlockedThreats => ThreatsReported(p, es, out);
    case RareDestination => RareHostsReported(m, p, es, out);
    case OffHoursActivity =>
      OffHoursReported(pick, p, es, out);
      forall c | c in out ensures HostsMet(es, c) {
        SampledWereMet(p.hourActors, es, c);
      }
      if FewHosts(es) {
        HostsExactlyShown(pick, p, es, out);
      }
  }

  lemma FlattenNext<T>(xss: seq<seq<T>>, n: nat)
    requires n < |xss|
    ensures Flatten(xss[..n + 1]) == Flatten(xss[..n]) + xss[n]
  {
    assert xss[..n + 1][..n] == xss[..n];
  }

  lemma FlattenNone<T>(xss: seq<seq<T>>)
    ensures Flatten(xss[..0]) == []
  {}

  lemma Flattened(parts: seq<seq<Candidate>>)
    requires |parts| == 6
    ensures Flatten(parts) == parts[0] + parts[1] + parts[2] + parts[3] + parts[4] + parts[5]
  {
    hide Flatten;
    FlattenNone(parts);
    FlattenNext(parts, 0);
    FlattenNext(parts, 1);
    FlattenNext(parts, 2);
    FlattenNext(parts, 3);
    FlattenNext(parts, 4);
    FlattenNext(parts, 5);
    assert [] + parts[0] == parts[0] && parts[..6] == parts;
  }

  lemma RankedBestFirst(cs: seq<Candidate>)
    ensures BestFirst(Sort(cs, ByRank))
  {
    ByRankPreorder();
    SortSorted(cs, ByRank);
    var out := Sort(cs, ByRank);
    forall i, j | 0 <= i < j < |out|
      ensures || out[i].score > out[j].score
              || (out[i].score == out[j].score && StrLe(out[i].kind, out[j].kind)
                  && (out[i].kind == out[j].kind ==> StrLe(out[i].title, out[j].title)))
    {
      assert ByRank(out[i], out[j]);
      StrLeTotal(out[i].kind, out[j].kind);
    }
  }

  /** A result on an aggregate of the rows is a report of the rows. */
  lemma ResultTells(m: Maths, pick: Chooser, p: Aggregate, es: seq<LogEntry>, out: seq<Candidate>)
    requires ChoosesEight(pick) && Describes(m, p, es) && IsResult(m, pick, p, out)
    ensures IsReport(m, es, out)
  {
    hide Answers, Tells, BestFirst, Describes, Reads, ChoosesEight;
    DescribesReads(m, p, es);
    var parts :| |parts| == |SCORERS| && AllAnswer(m, pick, p, parts) && out == Sort(Flatten(parts), ByRank);
    forall i | 0 <= i < |parts| ensures Tells(SCORERS[i], m, es, parts[i]) {
      AnswerTells(SCORERS[i], m, pick, p, es, parts[i]);
    }
    Flattened(parts);
    RankedBestFirst(Flatten(parts));
    assert SixReports(m, es, out, parts[0], parts[1], parts[2], parts[3], parts[4], parts[5]);
  }

  /** However the rows are split into shards, the reduce reports what the rows say. */
  lemma ReduceTells(m: Maths, pick: Chooser, shards: seq<seq<LogEntry>>, out: seq<Candidate>)
    requires ChoosesEight(pick) && IsResult(m, pick, MergeAllOf(pick, MapSeq(shards, MapOfShard(m))), out)
    ensures IsReport(m, Flatten(shards), out)
  {
    hide IsResult, IsReport, Describes, ChoosesEight;
    ReducedDescribes(m, pick, shards);
    ResultTells(m, pick, MergeAllOf(pick, MapSeq(shards, MapOfShard(m))), Flatten(shards), out);
  }
}
