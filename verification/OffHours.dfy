/** Activity in hours that are quiet for this data, grouped by actor. */
module OffHours {
  import opened Common
  import opened Dictionaries
  import opened Aggregates
  import opened Statistics
  import opened Candidates
  import opened GroupDetectors

  const MIN_OFF_HOURS_REQUESTS := 5
  const QUIET_HOUR_RATIO := 0.15

  /** An hour of the day and an actor. */
  type Slot = (int, string)

  type Slots = map<Slot, HourStats>

  function Volume(counts: map<int, int>): int -> Option<real> {
    hour => Some(Get(counts, hour, 0) as real)
  }

  /** Requests per hour of day, over the hours seen. */
  ghost function Volumes(counts: map<int, int>): (volumes: seq<real>)
    ensures |volumes| == |counts|
  {
    AllCollected(Listing(counts.Keys), Volume(counts));
    EnumerationLength(Listing(counts.Keys), counts.Keys);
    Collect(Listing(counts.Keys), Volume(counts))
  }

  function QuietHours(counts: map<int, int>, median: real): set<int> {
    set hour | hour in counts && counts[hour] as real < QUIET_HOUR_RATIO * median
  }

  function InHours(hours: set<int>): Slot -> bool {
    (k: Slot) => k.0 in hours
  }

  function ActorOf(k: Slot): string {
    k.1
  }

  function HourOfSlot(k: Slot): int {
    k.0
  }

  /** An actor's slots folded together in the order `order`. */
  function Folded(pick: Chooser, slots: Slots, order: seq<Slot>): HourStats {
    if |order| == 0 then NO_HOUR
    else
      var n := |order| - 1;
      MergeHour(pick, Folded(pick, slots, order[..n]), Get(slots, order[n], NO_HOUR))
  }

  function VolumeOf(counts: map<int, int>): int -> real {
    hour => Get(counts, hour, 0) as real
  }

  function MeanVolume(counts: map<int, int>, hours: seq<int>): real
    requires |hours| > 0
  {
    Mean(MapSeq(hours, VolumeOf(counts)))
  }

  function Capped(x: real): real {
    MinReal(1.0, x)
  }

  /** The quieter the hours and the more the actor did in them, the higher. */
  function ActorScore(median: real, volume: real, requests: nat): real
    requires median != 0.0
  {
    Capped((1.0 - volume / median) * Capped(requests as real / 10.0))
  }

  function ActorCandidate(actor: string, score: real, hours: seq<int>, median: real, volume: real, activity: HourStats): Candidate {
    var hosts := SortedStrings(activity.hosts);
    Candidate(
      "off_hours",
      "Off-hours activity: " + actor,
      score,
      activity.ids,
      OffHoursEvidence(actor, |activity.ids|, hours, median, volume, hosts[..Min(|hosts|, 5)]))
  }

  function JudgeActor(counts: map<int, int>, median: real, actor: string, hours: seq<int>, activity: HourStats): Option<Candidate> {
    if |activity.ids| < MIN_OFF_HOURS_REQUESTS || |hours| == 0 || median == 0.0 then None
    else
      var volume := MeanVolume(counts, hours);
      var score := ActorScore(median, volume, |activity.ids|);
      if score <= 0.0 then None
      else Some(ActorCandidate(actor, Round3(score), hours, median, volume, activity))
  }

  function HoursOf(order: seq<Slot>): seq<int> {
    SortedInts(Elems(MapSeq(order, HourOfSlot)))
  }

  /** The candidate for an actor whose quiet slots were met in the order `order`. */
  function JudgeSlots(pick: Chooser, counts: map<int, int>, median: real, slots: Slots, actor: string, order: seq<Slot>): Option<Candidate> {
    JudgeActor(counts, median, actor, HoursOf(order), Folded(pick, slots, order))
  }

  function ActorJudge(pick: Chooser, counts: map<int, int>, median: real, slots: Slots, orders: map<string, seq<Slot>>): string -> Option<Candidate> {
    actor => JudgeSlots(pick, counts, median, slots, actor, Get(orders, actor, []))
  }

  function QuietActors(slots: Slots, quiet: set<int>): set<string> {
    GroupNames(slots.Keys, InHours(quiet), ActorOf)
  }

  function QuietSlots(slots: Slots, quiet: set<int>, actor: string): set<Slot> {
    Members(slots.Keys, InHours(quiet), ActorOf, actor)
  }

  /** The same judgement with the actor's slots taken in one fixed order. */
  ghost function Quiet(pick: Chooser, counts: map<int, int>, median: real, slots: Slots): string -> Option<Candidate> {
    actor => JudgeSlots(pick, counts, median, slots, actor, Listing(QuietSlots(slots, QuietHours(counts, median), actor)))
  }

  /** Every off-hours finding of an aggregate, before ranking. */
  ghost function OffHoursOf(pick: Chooser, p: Aggregate): seq<Candidate> {
    if |p.hourCounts| < 4 then []
    else
      var median := Median(Volumes(p.hourCounts));
      Collect(Listing(QuietActors(p.hourActors, QuietHours(p.hourCounts, median))), Quiet(pick, p.hourCounts, median, p.hourActors))
  }

  /** No slot has more hosts than a set of evidence may keep. */
  ghost predicate Uncapped(slots: Slots) {
    forall k :: k in slots ==> |slots[k].hosts| <= MAX_EVIDENCE_VALUES
  }

  // --- The order in which an actor's slots are folded ---

  function SlotIds(slots: Slots): Slot -> seq<int> {
    (k: Slot) => Get(slots, k, NO_HOUR).ids
  }

  lemma {:induction false} FoldedIds(pick: Chooser, slots: Slots, order: seq<Slot>)
    ensures Folded(pick, slots, order).ids == Flatten(MapSeq(order, SlotIds(slots)))
  {
    if |order| > 0 {
      var n := |order| - 1;
      FoldedIds(pick, slots, order[..n]);
      MapSeqSnoc(order[..n], order[n], SlotIds(slots));
      assert order == order[..n] + [order[n]];
    }
  }

  /** All hosts of the listed slots. */
  ghost function HostsAmong(slots: Slots, order: seq<Slot>): set<string> {
    set i, host | 0 <= i < |order| && host in Get(slots, order[i], NO_HOUR).hosts :: host
  }

  lemma HostsAmongSnoc(slots: Slots, order: seq<Slot>, k: Slot)
    ensures HostsAmong(slots, order + [k]) == HostsAmong(slots, order) + Get(slots, k, NO_HOUR).hosts
  {
    var longer := order + [k];
    forall host | host in HostsAmong(slots, order) ensures host in HostsAmong(slots, longer) {
      var i :| 0 <= i < |order| && host in Get(slots, order[i], NO_HOUR).hosts;
      assert longer[i] == order[i];
    }
    forall host | host in Get(slots, k, NO_HOUR).hosts ensures host in HostsAmong(slots, longer) {
      assert longer[|order|] == k;
    }
  }

  lemma ChoosesAll(pick: Chooser, hosts: set<string>)
    requires ChoosesEight(pick) && |hosts| <= MAX_EVIDENCE_VALUES
    ensures pick(hosts) == hosts
  {
    SubsetFull(pick(hosts), hosts);
  }

  lemma {:induction false} FoldedHosts(pick: Chooser, slots: Slots, order: seq<Slot>)
    requires Uncapped(slots) && ChoosesEight(pick)
    ensures Folded(pick, slots, order).hosts == HostsAmong(slots, order)
  {
    if |order| > 0 {
      var n := |order| - 1;
      FoldedHosts(pick, slots, order[..n]);
      ChoosesAll(pick, Get(slots, order[n], NO_HOUR).hosts);
      HostsAmongSnoc(slots, order[..n], order[n]);
      assert order == order[..n] + [order[n]];
    } else {
      assert HostsAmong(slots, order) == {};
    }
  }

  /** Two dictionaries of slots that cite the same rows. */
  ghost predicate SameSlots(s1: Slots, s2: Slots) {
    && s1.Keys == s2.Keys
    && forall k :: k in s1 ==> multiset(s1[k].ids) == multiset(s2[k].ids)
  }

  ghost predicate SameHosts(s1: Slots, s2: Slots) {
    && s1.Keys == s2.Keys
    && forall k :: k in s1 ==> s1[k].hosts == s2[k].hosts
  }

  lemma FoldedIdsAgree(pick1: Chooser, pick2: Chooser, s1: Slots, s2: Slots, o1: seq<Slot>, o2: seq<Slot>)
    requires SameSlots(s1, s2) && multiset(o1) == multiset(o2)
    ensures multiset(Folded(pick1, s1, o1).ids) == multiset(Folded(pick2, s2, o2).ids)
  {
    FoldedIds(pick1, s1, o1);
    FoldedIds(pick2, s2, o2);
    FlattenBags(MapSeq(o1, SlotIds(s1)), MapSeq(o1, SlotIds(s2)));
    MapSeqPermutes(o1, o2, SlotIds(s2));
    FlattenPermutes(MapSeq(o1, SlotIds(s2)), MapSeq(o2, SlotIds(s2)));
  }

  lemma HostsAmongPermute(s1: Slots, s2: Slots, o1: seq<Slot>, o2: seq<Slot>)
    requires multiset(o1) == multiset(o2)
    requires forall k :: Get(s1, k, NO_HOUR).hosts == Get(s2, k, NO_HOUR).hosts
    ensures HostsAmong(s1, o1) <= HostsAmong(s2, o2)
  {
    forall host | host in HostsAmong(s1, o1) ensures host in HostsAmong(s2, o2) {
      var i :| 0 <= i < |o1| && host in Get(s1, o1[i], NO_HOUR).hosts;
      assert o1[i] in multiset(o2);
      var j :| 0 <= j < |o2| && o2[j] == o1[i];
      assert host in Get(s2, o2[j], NO_HOUR).hosts;
    }
  }

  lemma FoldedHostsAgree(pick1: Chooser, pick2: Chooser, s1: Slots, s2: Slots, o1: seq<Slot>, o2: seq<Slot>)
    requires SameHosts(s1, s2) && Uncapped(s1) && ChoosesEight(pick1) && ChoosesEight(pick2)
    requires multiset(o1) == multiset(o2)
    ensures Folded(pick1, s1, o1).hosts == Folded(pick2, s2, o2).hosts
  {
    FoldedHosts(pick1, s1, o1);
    FoldedHosts(pick2, s2, o2);
    assert forall k :: Get(s1, k, NO_HOUR).hosts == Get(s2, k, NO_HOUR).hosts;
    HostsAmongPermute(s1, s2, o1, o2);
    HostsAmongPermute(s2, s1, o2, o1);
  }

  lemma HoursAgree(o1: seq<Slot>, o2: seq<Slot>)
    requires multiset(o1) == multiset(o2)
    ensures HoursOf(o1) == HoursOf(o2)
  {
    MapSeqPermutes(o1, o2, HourOfSlot);
    ElemsPermutes(MapSeq(o1, HourOfSlot), MapSeq(o2, HourOfSlot));
  }

  lemma ActorCandidatesAgree(actor: string, score: real, hours: seq<int>, median: real, volume: real, a: HourStats, b: HourStats)
    requires multiset(a.ids) == multiset(b.ids)
    ensures LooseFingerprint(ActorCandidate(actor, score, hours, median, volume, a)) == LooseFingerprint(ActorCandidate(actor, score, hours, median, volume, b))
    ensures a.hosts == b.hosts ==>
      Fingerprint(ActorCandidate(actor, score, hours, median, volume, a)) == Fingerprint(ActorCandidate(actor, score, hours, median, volume, b))
  {
    SameLength(a.ids, b.ids);
    IntLeOrder();
    SortPermutes(a.ids, b.ids, IntLe);
  }

  lemma JudgeActorAgrees(counts: map<int, int>, median: real, actor: string, hours: seq<int>, a: HourStats, b: HourStats)
    requires multiset(a.ids) == multiset(b.ids)
    ensures SameUpTo(LooseFingerprint, JudgeActor(counts, median, actor, hours, a), JudgeActor(counts, median, actor, hours, b))
    ensures a.hosts == b.hosts ==>
      SameUpTo(Fingerprint, JudgeActor(counts, median, actor, hours, a), JudgeActor(counts, median, actor, hours, b))
  {
    SameLength(a.ids, b.ids);
    if |a.ids| >= MIN_OFF_HOURS_REQUESTS && |hours| > 0 && median != 0.0 {
      var volume := MeanVolume(counts, hours);
      ActorCandidatesAgree(actor, Round3(ActorScore(median, volume, |a.ids|)), hours, median, volume, a, b);
    }
  }

  /** The order in which slots are met, and how capped hosts were chosen, show at most in the sample of hosts. */
  lemma JudgeSlotsAgrees(pick1: Chooser, pick2: Chooser, counts: map<int, int>, median: real, s1: Slots, s2: Slots,
                         actor: string, o1: seq<Slot>, o2: seq<Slot>)
    requires SameSlots(s1, s2) && multiset(o1) == multiset(o2) && ChoosesEight(pick1) && ChoosesEight(pick2)
    ensures SameUpTo(LooseFingerprint, JudgeSlots(pick1, counts, median, s1, actor, o1), JudgeSlots(pick2, counts, median, s2, actor, o2))
    ensures SameHosts(s1, s2) && Uncapped(s1) ==>
      SameUpTo(Fingerprint, JudgeSlots(pick1, counts, median, s1, actor, o1), JudgeSlots(pick2, counts, median, s2, actor, o2))
  {
    HoursAgree(o1, o2);
    FoldedIdsAgree(pick1, pick2, s1, s2, o1, o2);
    if SameHosts(s1, s2) && Uncapped(s1) {
      FoldedHostsAgree(pick1, pick2, s1, s2, o1, o2);
    }
    JudgeActorAgrees(counts, median, actor, HoursOf(o1), Folded(pick1, s1, o1), Folded(pick2, s2, o2));
  }

  // --- The sample of hosts ---

  ghost predicate MetIn(slots: Slots, actor: string, hours: seq<int>, host: string) {
    exists hour :: hour in hours && (hour, actor) in slots && host in slots[(hour, actor)].hosts
  }

  /** What an off-hours finding shows of hosts: at most five, each met by the actor in one of the hours it lists. */
  ghost predicate Sampled(slots: Slots, c: Candidate) {
    && c.evidence.OffHoursEvidence? && |c.evidence.hosts| <= 5
    && forall h :: h in c.evidence.hosts ==> MetIn(slots, c.evidence.actor, c.evidence.hours, h)
  }

  /** Folding invents no host. */
  lemma {:induction false} FoldedWithin(pick: Chooser, slots: Slots, order: seq<Slot>)
    requires ChoosesEight(pick)
    ensures Folded(pick, slots, order).hosts <= HostsAmong(slots, order)
  {
    if |order| > 0 {
      var n := |order| - 1;
      FoldedWithin(pick, slots, order[..n]);
      HostsAmongSnoc(slots, order[..n], order[n]);
      assert order == order[..n] + [order[n]];
    }
  }

  lemma SampleShape(counts: map<int, int>, median: real, actor: string, hours: seq<int>, activity: HourStats)
    requires JudgeActor(counts, median, actor, hours, activity).Some?
    ensures var shown := JudgeActor(counts, median, actor, hours, activity).value.evidence;
      && shown.OffHoursEvidence? && shown.actor == actor && shown.hours == hours && |shown.hosts| <= 5
      && forall h :: h in shown.hosts ==> h in activity.hosts
  {
    var hosts := SortedStrings(activity.hosts);
    forall h | h in hosts[..Min(|hosts|, 5)] ensures h in activity.hosts {
      assert h in hosts;
    }
  }

  lemma ListedHour(order: seq<Slot>, i: nat)
    requires i < |order|
    ensures order[i].0 in HoursOf(order)
  {
    assert MapSeq(order, HourOfSlot)[i] == order[i].0;
  }

  lemma FoldedMet(pick: Chooser, slots: Slots, actor: string, order: seq<Slot>, h: string)
    requires ChoosesEight(pick) && h in Folded(pick, slots, order).hosts
    requires forall i :: 0 <= i < |order| ==> order[i].1 == actor
    ensures MetIn(slots, actor, HoursOf(order), h)
  {
    FoldedWithin(pick, slots, order);
    var i :| 0 <= i < |order| && h in Get(slots, order[i], NO_HOUR).hosts;
    ListedHour(order, i);
    assert (order[i].0, actor) == order[i];
  }

  lemma JudgedSample(pick: Chooser, counts: map<int, int>, median: real, slots: Slots, actor: string, order: seq<Slot>)
    requires ChoosesEight(pick) && JudgeSlots(pick, counts, median, slots, actor, order).Some?
    requires forall i :: 0 <= i < |order| ==> order[i].1 == actor
    ensures Sampled(slots, JudgeSlots(pick, counts, median, slots, actor, order).value)
  {
    var activity := Folded(pick, slots, order);
    SampleShape(counts, median, actor, HoursOf(order), activity);
    forall h | h in activity.hosts ensures MetIn(slots, actor, HoursOf(order), h) {
      FoldedMet(pick, slots, actor, order, h);
    }
  }

  lemma TopWasFound(found: seq<Candidate>, c: Candidate)
    requires c in Top(found)
    ensures c in multiset(found)
  {
    var ranked := Sort(Collect(found, Keep), ByScoreTitle);
    assert c in ranked;
    assert c in multiset(ranked);
    CollectMember(found, Keep, c);
  }

  lemma SampledFindings(pick: Chooser, counts: map<int, int>, median: real, slots: Slots, orders: map<string, seq<Slot>>, found: seq<Candidate>)
    requires ChoosesEight(pick)
    requires forall actor :: actor in orders ==> forall i :: 0 <= i < |orders[actor]| ==> orders[actor][i].1 == actor
    requires multiset(found) == multiset(Collect(Listing(orders.Keys), ActorJudge(pick, counts, median, slots, orders)))
    ensures forall c :: c in Top(found) ==> Sampled(slots, c)
  {
    var actors, judge := Listing(orders.Keys), ActorJudge(pick, counts, median, slots, orders);
    forall c | c in Top(found) ensures Sampled(slots, c) {
      TopWasFound(found, c);
      assert c in multiset(Collect(actors, judge));
      CollectMember(actors, judge, c);
      var i :| 0 <= i < |actors| && judge(actors[i]) == Some(c);
      assert actors[i] in actors;
      JudgedSample(pick, counts, median, slots, actors[i], orders[actors[i]]);
    }
  }

  // --- The scorer ---

  lemma {:induction false} NoneFound(actors: seq<string>, judge: string -> Option<Candidate>)
    requires forall actor :: judge(actor).None?
    ensures Collect(actors, judge) == []
  {
    if |actors| > 0 {
      NoneFound(actors[..|actors| - 1], judge);
    }
  }

  /** A dataset with no volume or no quiet hour has no off-hours findings. */
  lemma NothingQuiet(pick: Chooser, p: Aggregate)
    requires |p.hourCounts| >= 4
    requires Median(Volumes(p.hourCounts)) == 0.0 || QuietHours(p.hourCounts, Median(Volumes(p.hourCounts))) == {}
    ensures OffHoursOf(pick, p) == []
  {
    var median := Median(Volumes(p.hourCounts));
    var actors := QuietActors(p.hourActors, QuietHours(p.hourCounts, median));
    if median == 0.0 {
      NoneFound(Listing(actors), Quiet(pick, p.hourCounts, median, p.hourActors));
    } else {
      assert actors == {};
    }
  }

  lemma NothingReported(pick: Chooser, p: Aggregate)
    requires OffHoursOf(pick, p) == []
    ensures Reports(LooseFingerprint, Top([]), OffHoursOf(pick, p))
    ensures Reports(Fingerprint, Top([]), OffHoursOf(pick, p)) && Top([]) == []
  {
    TopRanks([], []);
    assert Top([]) == [];
  }

  lemma ActorsAgree(pick: Chooser, p: Aggregate, median: real, orders: map<string, seq<Slot>>, actor: string)
    requires ChoosesEight(pick) && actor in orders
    requires Enumerates(orders[actor], QuietSlots(p.hourActors, QuietHours(p.hourCounts, median), actor))
    ensures SameUpTo(LooseFingerprint, ActorJudge(pick, p.hourCounts, median, p.hourActors, orders)(actor),
                     Quiet(pick, p.hourCounts, median, p.hourActors)(actor))
    ensures Uncapped(p.hourActors) ==>
      SameUpTo(Fingerprint, ActorJudge(pick, p.hourCounts, median, p.hourActors, orders)(actor),
               Quiet(pick, p.hourCounts, median, p.hourActors)(actor))
  {
    var slots := QuietSlots(p.hourActors, QuietHours(p.hourCounts, median), actor);
    EnumerationsPermute(orders[actor], Listing(slots), slots);
    JudgeSlotsAgrees(pick, pick, p.hourCounts, median, p.hourActors, p.hourActors, actor, orders[actor], Listing(slots));
  }

  lemma ActorsReported(pick: Chooser, p: Aggregate, median: real, orders: map<string, seq<Slot>>, found: seq<Candidate>)
    requires ChoosesEight(pick) && |p.hourCounts| >= 4 && median == Median(Volumes(p.hourCounts))
    requires orders.Keys == QuietActors(p.hourActors, QuietHours(p.hourCounts, median))
    requires forall actor :: actor in orders ==> Enumerates(orders[actor], QuietSlots(p.hourActors, QuietHours(p.hourCounts, median), actor))
    requires multiset(found) == multiset(Collect(Listing(orders.Keys), ActorJudge(pick, p.hourCounts, median, p.hourActors, orders)))
    ensures Reports(LooseFingerprint, Top(found), OffHoursOf(pick, p))
    ensures Uncapped(p.hourActors) ==> Reports(Fingerprint, Top(found), OffHoursOf(pick, p))
  {
    var actors := Listing(orders.Keys);
    var f, g := ActorJudge(pick, p.hourCounts, median, p.hourActors, orders), Quiet(pick, p.hourCounts, median, p.hourActors);
    forall i | 0 <= i < |actors|
      ensures SameUpTo(LooseFingerprint, f(actors[i]), g(actors[i]))
      ensures Uncapped(p.hourActors) ==> SameUpTo(Fingerprint, f(actors[i]), g(actors[i]))
    {
      assert actors[i] in actors;
      ActorsAgree(pick, p, median, orders, actors[i]);
    }
    FingerprintsKeepRank();
    FoundReports(LooseFingerprint, found, actors, f, g);
    if Uncapped(p.hourActors) {
      FoundReports(Fingerprint, found, actors, f, g);
    }
  }

  lemma QuietReported(pick: Chooser, p: Aggregate, median: real, orders: map<string, seq<Slot>>, found: seq<Candidate>)
    requires ChoosesEight(pick) && |p.hourCounts| >= 4 && median == Median(Volumes(p.hourCounts))
    requires orders.Keys == QuietActors(p.hourActors, QuietHours(p.hourCounts, median))
    requires forall actor :: actor in orders ==> Enumerates(orders[actor], QuietSlots(p.hourActors, QuietHours(p.hourCounts, median), actor))
    requires multiset(found) == multiset(Collect(Listing(orders.Keys), ActorJudge(pick, p.hourCounts, median, p.hourActors, orders)))
    ensures Reports(LooseFingerprint, Top(found), OffHoursOf(pick, p))
    ensures Uncapped(p.hourActors) ==> Reports(Fingerprint, Top(found), OffHoursOf(pick, p))
    ensures forall c :: c in Top(found) ==> Sampled(p.hourActors, c)
  {
    hide Top, Reports;
    ActorsReported(pick, p, median, orders, found);
    forall actor, i | actor in orders && 0 <= i < |orders[actor]| ensures orders[actor][i].1 == actor {
      assert orders[actor][i] in orders[actor];
    }
    SampledFindings(pick, p.hourCounts, median, p.hourActors, orders, found);
  }

  /** Activity in hours that are quiet for this data. */
  method ScoreOffHours(pick: Chooser, p: Aggregate) returns (out: seq<Candidate>)
    requires ChoosesEight(pick)
    ensures Reports(LooseFingerprint, out, OffHoursOf(pick, p))
    ensures Uncapped(p.hourActors) ==> Reports(Fingerprint, out, OffHoursOf(pick, p))
    ensures forall c :: c in out ==> Sampled(p.hourActors, c)
  {
    hide Reports, Top, Median;
    if |p.hourCounts| < 4 {
      NothingReported(pick, p);
      return Top([]);
    }
    var volumes := Scan(p.hourCounts.Keys, Volume(p.hourCounts));
    MedianPermutes(Volumes(p.hourCounts), volumes);
    var median := Median(volumes);
    if median == 0.0 {
      NothingQuiet(pick, p);
      NothingReported(pick, p);
      return Top([]);
    }
    var quiet := QuietHours(p.hourCounts, median);
    if quiet == {} {
      NothingQuiet(pick, p);
      NothingReported(pick, p);
      return Top([]);
    }
    var orders := GroupKeys(p.hourActors.Keys, InHours(quiet), ActorOf);
    var found := Scan(orders.Keys, ActorJudge(pick, p.hourCounts, median, p.hourActors, orders));
    QuietReported(pick, p, median, orders, found);
    out := Top(found);
  }
}
