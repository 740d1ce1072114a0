/** Running all detectors over merged aggregates, and the single-process entry point. */
module Detection {
  import opened Common
  import opened LogEntries
  import opened Aggregates
  import opened Partials
  import opened Candidates
  import VolumeSpikes
  import GroupDetectors
  import OffHours

  datatype Detector = VolumeSpike | DataExfil | Beaconing | BlockedThreats | RareDestination | OffHoursActivity

  const SCORERS := [VolumeSpike, DataExfil, Beaconing, BlockedThreats, RareDestination, OffHoursActivity]

  /** What a detector finds in `p`, before ranking. */
  ghost function Detected(d: Detector, m: Maths, pick: Chooser, p: Aggregate): seq<Candidate> {
    match d
    case VolumeSpike => VolumeSpikes.Bursts(m, p)
    case DataExfil => GroupDetectors.Transfers(m, p)
    case Beaconing => GroupDetectors.Beacons(m, p)
    case BlockedThreats => GroupDetectors.Threats(p)
    case RareDestination => GroupDetectors.RareHosts(m, p)
    case OffHoursActivity => OffHours.OffHoursOf(pick, p)
  }

  /** `out` ranks what the detector finds. Which hosts an off-hours finding shows is only promised while no evidence set
      was capped; that they are a sample of the actor's own, always. */
  ghost predicate Answers(d: Detector, m: Maths, pick: Chooser, p: Aggregate, out: seq<Candidate>) {
    && Reports(LooseFingerprint, out, Detected(d, m, pick, p))
    && (!d.OffHoursActivity? ==> Ranks(out, Detected(d, m, pick, p)))
    && (OffHours.Uncapped(p.hourActors) ==> Reports(Fingerprint, out, Detected(d, m, pick, p)))
    && (d.OffHoursActivity? ==> forall c :: c in out ==> OffHours.Sampled(p.hourActors, c))
  }

  lemma RankAnswers(out: seq<Candidate>, cs: seq<Candidate>)
    requires Ranks(out, cs)
    ensures Reports(LooseFingerprint, out, cs) && Reports(Fingerprint, out, cs)
  {
    FingerprintsKeepRank();
    RanksMaps(out, cs, LooseFingerprint);
    RanksMaps(out, cs, Fingerprint);
  }

  method RunDetector(d: Detector, m: Maths, pick: Chooser, p: Aggregate) returns (out: seq<Candidate>)
    requires ChoosesEight(pick)
    ensures Answers(d, m, pick, p, out)
  {
    hide ChoosesEight;
    match d
    case VolumeSpike =>
      out := VolumeSpikes.ScoreVolumeSpike(m, p);
      RankAnswers(out, VolumeSpikes.Bursts(m, p));
    case DataExfil =>
      out := GroupDetectors.ScoreDataExfil(m, p);
      RankAnswers(out, GroupDetectors.Transfers(m, p));
    case Beaconing =>
      out := GroupDetectors.ScoreBeaconing(m, p);
      RankAnswers(out, GroupDetectors.Beacons(m, p));
    case BlockedThreats =>
      out := GroupDetectors.ScoreBlockedThreats(p);
      RankAnswers(out, GroupDetectors.Threats(p));
    case RareDestination =>
      out := GroupDetectors.ScoreRareDestination(m, p);
      RankAnswers(out, GroupDetectors.RareHosts(m, p));
    case OffHoursActivity =>
      out := OffHours.ScoreOffHours(pick, p);
  }

  /** `parts` holds one answer per detector, in the order they run. */
  ghost predicate AllAnswer(m: Maths, pick: Chooser, p: Aggregate, parts: seq<seq<Candidate>>) {
    && |parts| <= |SCORERS|
    && forall i :: 0 <= i < |parts| ==> Answers(SCORERS[i], m, pick, p, parts[i])
  }

  /** `out` ranks the answers of all six detectors on `p`. */
  ghost predicate IsResult(m: Maths, pick: Chooser, p: Aggregate, out: seq<Candidate>) {
    exists parts :: |parts| == |SCORERS| && AllAnswer(m, pick, p, parts) && out == Sort(Flatten(parts), ByRank)
  }

  lemma OneMoreAnswer(m: Maths, pick: Chooser, p: Aggregate, parts: seq<seq<Candidate>>, out: seq<Candidate>)
    requires |parts| < |SCORERS| && AllAnswer(m, pick, p, parts) && Answers(SCORERS[|parts|], m, pick, p, out)
    ensures AllAnswer(m, pick, p, parts + [out]) && Flatten(parts + [out]) == Flatten(parts) + out
  {
    hide Answers, Flatten;
    FlattenSnoc(parts, out);
    var more := parts + [out];
    forall i | 0 <= i < |more| ensures Answers(SCORERS[i], m, pick, p, more[i]) {
      assert i == |parts| || more[i] == parts[i];
    }
  }

  /** All six detectors on one aggregate, their reports put in one ranking. */
  method Score(m: Maths, pick: Chooser, p: Aggregate) returns (found: seq<Candidate>)
    requires ChoosesEight(pick)
    ensures IsResult(m, pick, p, found)
  {
    hide Answers;
    found := [];
    ghost var parts: seq<seq<Candidate>> := [];
    for i := 0 to |SCORERS|
      invariant |parts| == i && AllAnswer(m, pick, p, parts) && found == Flatten(parts)
    {
      var out := RunDetector(SCORERS[i], m, pick, p);
      OneMoreAnswer(m, pick, p, parts, out);
      parts, found := parts + [out], found + out;
    }
    found := Sort(found, ByRank);
  }

  /** The answer of a reduce: all detectors on the merged partials, which stay as they are. */
  method ReducePartials(m: Maths, pick: Chooser, partials: seq<Partial>) returns (found: seq<Candidate>)
    requires ChoosesEight(pick) && AllValid(partials)
    ensures AllValid(partials) && Views(partials) == old(Views(partials))
    ensures IsResult(m, pick, MergeAllOf(pick, Views(partials)), found)
  {
    hide Partial.Valid, Partial.View, IsResult;
    var combined := MergeAll(pick, partials);
    found := Score(m, pick, combined.View());
  }

  /** The answer a single process gives for `entries`. */
  method DetectAll(m: Maths, pick: Chooser, entries: seq<LogEntry>) returns (found: seq<Candidate>)
    requires ChoosesEight(pick)
    ensures IsResult(m, pick, MergeAllOf(pick, [MapOf(m, entries)]), found)
  {
    hide Partial.Valid, Partial.View, IsResult;
    var partial := MapShard(m, entries);
    found := ReducePartials(m, pick, [partial]);
    assert Views([partial]) == [MapOf(m, entries)];
  }
}
