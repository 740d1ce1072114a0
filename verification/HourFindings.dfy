/** What is reported of activity in quiet hours, in terms of the rows: which hours are quiet, and for each actor busy enough in
    them, the rows of those hours. */
module HourFindings {
  import opened Common
  import opened Dictionaries
  import opened LogEntries
  import opened Aggregates
  import opened Statistics
  import opened Candidates
  import opened OffHours
  import opened Readings
  import opened Figures
  import opened GroupFindings

  /** How many rows fall in the hour of day. */
  ghost function Traffic(es: seq<LogEntry>, hour: int): nat {
    |Through(es, HourRows(hour), RowId)|
  }

  ghost predicate VolumesOf(es: seq<LogEntry>, hours: seq<int>, volumes: seq<real>) {
    && NoDup(hours) && |volumes| == |hours|
    && (forall hour :: hour in hours <==> AnyRow(es, HourRows(hour)))
    && (forall i :: 0 <= i < |hours| ==> volumes[i] == Traffic(es, hours[i]) as real)
  }

  /** The traffic of all hours of day with a row. */
  ghost predicate IsVolumes(es: seq<LogEntry>, volumes: seq<real>) {
    exists hours :: VolumesOf(es, hours, volumes)
  }

  /** Less than 15 percent of the median hour's traffic. */
  ghost predicate IsQuiet(es: seq<LogEntry>, median: real, hour: int) {
    AnyRow(es, HourRows(hour)) && Traffic(es, hour) as real < 0.15 * median
  }

  /** The quiet hours an actor was active in, earliest first. */
  ghost predicate QuietFor(es: seq<LogEntry>, median: real, actor: string, hours: seq<int>) {
    && (forall i, j :: 0 <= i < j < |hours| ==> hours[i] < hours[j])
    && (forall hour :: hour in hours <==> IsQuiet(es, median, hour) && AnyRow(es, ActorRows(hour, actor)))
  }

  ghost function RowsAt(es: seq<LogEntry>, actor: string, hours: seq<int>): seq<int> {
    if |hours| == 0 then []
    else RowsAt(es, actor, hours[..|hours| - 1]) + Through(es, ActorRows(hours[|hours| - 1], actor), RowId)
  }

  ghost function TrafficAt(es: seq<LogEntry>, hours: seq<int>): seq<real> {
    seq(|hours|, i requires 0 <= i < |hours| => Traffic(es, hours[i]) as real)
  }

  /** The quieter the hours beside the median, and the more requests up to ten, the surer. */
  ghost predicate IsQuietness(median: real, volume: real, requests: nat, share: real, score: real) {
    && share * median == volume
    && score == if requests >= 10 then (if share > 0.0 then 1.0 - share else 1.0)
                else if (1.0 - share) * requests as real >= 10.0 then 1.0 else (1.0 - share) * (requests as real / 10.0)
  }

  ghost predicate HoursBy(es: seq<LogEntry>, actor: string, c: Candidate,
                          median: real, hours: seq<int>, volume: real, share: real, score: real) {
    && median != 0.0 && QuietFor(es, median, actor, hours) && |hours| > 0 && IsMean(TrafficAt(es, hours), volume)
    && multiset(c.entryIds) == multiset(RowsAt(es, actor, hours)) && |c.entryIds| >= 5
    && IsQuietness(median, volume, |c.entryIds|, share, score) && score > 0.0 && IsRounded(score, c.score)
    && c.kind == "off_hours" && c.title == "Off-hours activity: " + actor && c.evidence.OffHoursEvidence?
    && c.evidence == OffHoursEvidence(actor, |c.entryIds|, hours, median, volume, c.evidence.hosts)
  }

  ghost predicate HoursFinding(es: seq<LogEntry>, median: real, actor: string, c: Candidate) {
    exists hours, volume, share, score :: HoursBy(es, actor, c, median, hours, volume, share, score)
  }

  /** Nothing is judged with fewer than four hours of day. Which hosts are shown is said apart. */
  ghost function FindsHours(es: seq<LogEntry>): Candidate -> bool {
    c => exists volumes, median, actor :: IsVolumes(es, volumes) && |volumes| >= 4 && IsMedian(volumes, median) && HoursFinding(es, median, actor, c)
  }

  // --- Traffic and quiet hours ---

  lemma VolumesListed(counts: map<int, int>, es: seq<LogEntry>, hours: seq<int>, volumes: seq<real>)
    requires HoursRead(counts, es) && VolumesOf(es, hours, volumes)
    ensures volumes == Collect(hours, Volume(counts)) && Enumerates(hours, counts.Keys)
  {
    hide Through, AnyRow;
    forall hour ensures hour in hours <==> hour in counts.Keys {
      assert hour in hours <==> AnyRow(es, HourRows(hour));
    }
    AllCollected(hours, Volume(counts));
    forall i | 0 <= i < |hours| ensures volumes[i] == Collect(hours, Volume(counts))[i] {
      assert hours[i] in hours;
    }
  }

  lemma VolumesArePermuted(counts: map<int, int>, es: seq<LogEntry>, volumes: seq<real>)
    requires HoursRead(counts, es) && IsVolumes(es, volumes)
    ensures multiset(volumes) == multiset(Volumes(counts))
  {
    hide Collect, VolumesOf, HoursRead, Listing;
    var hours :| VolumesOf(es, hours, volumes);
    VolumesListed(counts, es, hours, volumes);
    EnumerationsPermute(hours, Listing(counts.Keys), counts.Keys);
    CollectPermutes(hours, Listing(counts.Keys), Volume(counts));
  }

  lemma TrafficRead(counts: map<int, int>, es: seq<LogEntry>, hour: int)
    requires HoursRead(counts, es)
    ensures Traffic(es, hour) == Get(counts, hour, 0) && (hour in counts.Keys <==> AnyRow(es, HourRows(hour)))
  {
    hide AnyRow;
    ThroughSome(es, HourRows(hour), RowId);
    assert hour in counts <==> AnyRow(es, HourRows(hour));
  }

  lemma VolumesAre(counts: map<int, int>, es: seq<LogEntry>)
    requires HoursRead(counts, es)
    ensures IsVolumes(es, Volumes(counts))
  {
    hide Traffic, AnyRow, HoursRead, Listing, Collect;
    var hours, volumes := Listing(counts.Keys), Volumes(counts);
    AllCollected(hours, Volume(counts));
    forall i | 0 <= i < |hours| ensures volumes[i] == Traffic(es, hours[i]) as real {
      TrafficRead(counts, es, hours[i]);
    }
    forall hour ensures hour in hours <==> AnyRow(es, HourRows(hour)) {
      TrafficRead(counts, es, hour);
    }
    assert VolumesOf(es, hours, volumes);
  }

  /** The median traffic does not depend on how the hours are listed. */
  lemma TypicalHour(counts: map<int, int>, es: seq<LogEntry>, volumes: seq<real>, median: real)
    requires HoursRead(counts, es) && IsVolumes(es, volumes) && |volumes| > 0
    ensures |volumes| == |counts| && (IsMedian(volumes, median) <==> median == Median(Volumes(counts)))
  {
    hide IsVolumes, HoursRead, IsMedian, Median;
    VolumesArePermuted(counts, es, volumes);
    SameLength(volumes, Volumes(counts));
    MedianPermutes(volumes, Volumes(counts));
    MedianIff(volumes, median);
  }

  lemma QuietIff(counts: map<int, int>, es: seq<LogEntry>, median: real, hour: int)
    requires HoursRead(counts, es)
    ensures hour in QuietHours(counts, median) <==> IsQuiet(es, median, hour)
  {}

  ghost predicate BelowMiddle(es: seq<LogEntry>, sorted: seq<real>, hour: int)
    requires |sorted| > 0
  {
    var n, traffic := |sorted|, Traffic(es, hour) as real;
    && AnyRow(es, HourRows(hour))
    && if n % 2 == 1 then traffic < 0.15 * sorted[n / 2] else traffic < 0.15 * ((sorted[n / 2 - 1] + sorted[n / 2]) / 2.0)
  }

  /** Which hours are quiet, from the sorted traffic of the hours seen: those with less than 15 percent of the middle
      hour's, or of the mean of the two middle hours when their number is even. */
  lemma QuietByMiddle(counts: map<int, int>, es: seq<LogEntry>, volumes: seq<real>, sorted: seq<real>, hour: int)
    requires HoursRead(counts, es) && IsVolumes(es, volumes) && Ascending(sorted, volumes) && |sorted| > 0
    ensures |sorted| == |counts|
    ensures hour in QuietHours(counts, Median(Volumes(counts))) <==> BelowMiddle(es, sorted, hour)
  {
    hide IsVolumes, HoursRead, IsMedian, Median;
    SameLength(sorted, volumes);
    MedianMiddle(volumes, sorted);
    MedianIff(volumes, Median(volumes));
    TypicalHour(counts, es, volumes, Median(volumes));
    QuietIff(counts, es, Median(volumes), hour);
  }

  // --- The hours and rows of one actor ---

  lemma SlotHours(counts: map<int, int>, slots: Slots, es: seq<LogEntry>, median: real, actor: string, hour: int)
    requires HoursRead(counts, es) && ActorsRead(slots, es)
    ensures (hour, actor) in QuietSlots(slots, QuietHours(counts, median), actor)
       <==> IsQuiet(es, median, hour) && AnyRow(es, ActorRows(hour, actor))
  {
    hide UpToEight, Through, IsQuiet, AnyRow;
    QuietIff(counts, es, median, hour);
    assert (hour, actor) in slots <==> AnyRow(es, ActorRows(hour, actor));
  }

  lemma HourListed(order: seq<Slot>, actor: string, hour: int)
    requires forall i :: 0 <= i < |order| ==> order[i].1 == actor
    ensures hour in HoursOf(order) <==> (hour, actor) in order
  {
    var found := MapSeq(order, HourOfSlot);
    if i :| 0 <= i < |found| && found[i] == hour {
      assert order[i] == (hour, actor);
    }
    if i :| 0 <= i < |order| && order[i] == (hour, actor) {
      assert found[i] == hour;
    }
  }

  lemma HoursIff(counts: map<int, int>, slots: Slots, es: seq<LogEntry>, median: real, actor: string, order: seq<Slot>, hours: seq<int>)
    requires HoursRead(counts, es) && ActorsRead(slots, es)
    requires Enumerates(order, QuietSlots(slots, QuietHours(counts, median), actor))
    ensures QuietFor(es, median, actor, hours) <==> hours == HoursOf(order)
  {
    hide HoursRead, ActorsRead, IsQuiet, AnyRow;
    var listed := HoursOf(order);
    forall i | 0 <= i < |order| ensures order[i].1 == actor {
      assert order[i] in order;
    }
    forall hour ensures hour in listed <==> IsQuiet(es, median, hour) && AnyRow(es, ActorRows(hour, actor)) {
      HourListed(order, actor, hour);
      SlotHours(counts, slots, es, median, actor, hour);
    }
    OnceAscending(hours, Elems(MapSeq(order, HourOfSlot)));
  }

  function SlotOf(actor: string): int -> Slot {
    hour => (hour, actor)
  }

  lemma {:induction false} SlotRows(slots: Slots, es: seq<LogEntry>, actor: string, hours: seq<int>)
    requires ActorsRead(slots, es) && forall i :: 0 <= i < |hours| ==> (hours[i], actor) in slots
    ensures Flatten(MapSeq(MapSeq(hours, SlotOf(actor)), SlotIds(slots))) == RowsAt(es, actor, hours)
  {
    if |hours| > 0 {
      var n := |hours| - 1;
      var ids := MapSeq(MapSeq(hours, SlotOf(actor)), SlotIds(slots));
      SlotRows(slots, es, actor, hours[..n]);
      assert ids[..n] == MapSeq(MapSeq(hours[..n], SlotOf(actor)), SlotIds(slots));
      assert ids[n] == Through(es, ActorRows(hours[n], actor), RowId);
    }
  }

  lemma SlotsOfHours(slots: Slots, quiet: set<int>, actor: string, order: seq<Slot>)
    requires Enumerates(order, QuietSlots(slots, quiet, actor))
    ensures multiset(MapSeq(HoursOf(order), SlotOf(actor))) == multiset(order)
    ensures forall i :: 0 <= i < |HoursOf(order)| ==> (HoursOf(order)[i], actor) in slots
  {
    var hours := HoursOf(order);
    var listed := MapSeq(hours, SlotOf(actor));
    forall i | 0 <= i < |order| ensures order[i].1 == actor {
      assert order[i] in order;
    }
    forall k ensures k in listed <==> k in order {
      HourListed(order, actor, k.0);
      if i :| 0 <= i < |listed| && listed[i] == k {
        assert hours[i] in hours;
      }
      if k in order {
        assert k.1 == actor;
        var i :| 0 <= i < |hours| && hours[i] == k.0;
        assert listed[i] == k;
      }
    }
    forall i | 0 <= i < |hours| ensures (hours[i], actor) in slots {
      HourListed(order, actor, hours[i]);
    }
    EnumerationsPermute(listed, order, QuietSlots(slots, quiet, actor));
  }

  lemma RowsOfSlots(pick: Chooser, slots: Slots, quiet: set<int>, es: seq<LogEntry>, actor: string, order: seq<Slot>)
    requires ActorsRead(slots, es) && Enumerates(order, QuietSlots(slots, quiet, actor))
    ensures multiset(Folded(pick, slots, order).ids) == multiset(RowsAt(es, actor, HoursOf(order)))
  {
    hide ActorsRead, HoursOf, QuietSlots, Flatten, Folded, RowsAt;
    var hours := HoursOf(order);
    SlotsOfHours(slots, quiet, actor, order);
    SlotRows(slots, es, actor, hours);
    FoldedIds(pick, slots, order);
    MapSeqPermutes(MapSeq(hours, SlotOf(actor)), order, SlotIds(slots));
    FlattenPermutes(MapSeq(MapSeq(hours, SlotOf(actor)), SlotIds(slots)), MapSeq(order, SlotIds(slots)));
  }

  // --- Scores ---

  lemma VolumeIff(counts: map<int, int>, es: seq<LogEntry>, hours: seq<int>, volume: real)
    requires HoursRead(counts, es) && |hours| > 0
    ensures IsMean(TrafficAt(es, hours), volume) <==> volume == MeanVolume(counts, hours)
  {
    hide Mean, HoursRead;
    var volumes := MapSeq(hours, VolumeOf(counts));
    forall i | 0 <= i < |hours| ensures volumes[i] == TrafficAt(es, hours)[i] {
      TrafficRead(counts, es, hours[i]);
    }
    assert volumes == TrafficAt(es, hours);
    MeanIff(volumes, volume);
  }

  lemma QuietnessIff(median: real, volume: real, requests: nat, share: real, score: real)
    requires median != 0.0
    ensures IsQuietness(median, volume, requests, share, score) <==> share == volume / median && score == ActorScore(median, volume, requests)
  {
    QuotientIff(volume, median, share);
    var rest, n := 1.0 - share, requests as real;
    if requests < 10 {
      assert rest * (n / 10.0) == rest * n / 10.0;
    }
  }

  // --- The finding of one actor ---

  /** The same finding, whatever the order of the rows cited and whichever hosts are shown. */
  ghost predicate Alike(c: Candidate, d: Candidate) {
    && c.evidence.OffHoursEvidence? && d.evidence.OffHoursEvidence? && multiset(c.entryIds) == multiset(d.entryIds)
    && c.kind == d.kind && c.title == d.title && c.score == d.score
    && c.evidence.(hosts := []) == d.evidence.(hosts := [])
  }

  lemma AlikeIff(c: Candidate, d: Candidate)
    requires c.evidence.OffHoursEvidence? && d.evidence.OffHoursEvidence?
    ensures Alike(c, d) <==> LooseFingerprint(c) == LooseFingerprint(d)
  {
    IntLeOrder();
    if multiset(c.entryIds) == multiset(d.entryIds) {
      SortPermutes(c.entryIds, d.entryIds, IntLe);
    }
    if Sort(c.entryIds, IntLe) == Sort(d.entryIds, IntLe) {
      assert multiset(Sort(c.entryIds, IntLe)) == multiset(c.entryIds);
    }
  }

  lemma FindingAlike(es: seq<LogEntry>, median: real, actor: string, c: Candidate, d: Candidate)
    requires HoursFinding(es, median, actor, c) && Alike(c, d)
    ensures HoursFinding(es, median, actor, d)
  {
    hide QuietFor, IsMean, IsQuietness, IsRounded, RowsAt;
    var hours, volume, share, score :| HoursBy(es, actor, c, median, hours, volume, share, score);
    SameLength(c.entryIds, d.entryIds);
    assert HoursBy(es, actor, d, median, hours, volume, share, score);
  }

  /** The judgement of an actor whose slots are met in the order `order`. */
  lemma HoursJudged(pick: Chooser, p: Aggregate, es: seq<LogEntry>, median: real, actor: string, order: seq<Slot>, c: Candidate)
    requires HoursRead(p.hourCounts, es) && ActorsRead(p.hourActors, es)
    requires Enumerates(order, QuietSlots(p.hourActors, QuietHours(p.hourCounts, median), actor))
    requires JudgeSlots(pick, p.hourCounts, median, p.hourActors, actor, order) == Some(c)
    ensures HoursFinding(es, median, actor, c)
  {
    hide HoursRead, ActorsRead, QuietFor, IsMean, IsQuietness, IsRounded, RowsAt, QuietSlots, HoursOf, Folded, MeanVolume, ActorScore, Round3;
    var hours, n := HoursOf(order), |c.entryIds|;
    var volume := MeanVolume(p.hourCounts, hours);
    var score := ActorScore(median, volume, n);
    HoursIff(p.hourCounts, p.hourActors, es, median, actor, order, hours);
    RowsOfSlots(pick, p.hourActors, QuietHours(p.hourCounts, median), es, actor, order);
    VolumeIff(p.hourCounts, es, hours, volume);
    QuietnessIff(median, volume, n, volume / median, score);
    RoundedIff(score, c.score);
    assert HoursBy(es, actor, c, median, hours, volume, volume / median, score);
  }

  lemma HoursOnly(pick: Chooser, p: Aggregate, es: seq<LogEntry>, median: real, actor: string, order: seq<Slot>, c: Candidate)
    requires HoursRead(p.hourCounts, es) && ActorsRead(p.hourActors, es)
    requires Enumerates(order, QuietSlots(p.hourActors, QuietHours(p.hourCounts, median), actor))
    requires HoursFinding(es, median, actor, c)
    ensures var found := JudgeSlots(pick, p.hourCounts, median, p.hourActors, actor, order); found.Some? && Alike(c, found.value)
  {
    hide HoursRead, ActorsRead, QuietFor, IsMean, IsQuietness, IsRounded, RowsAt, QuietSlots, HoursOf, Folded, MeanVolume, ActorScore, Round3;
    var hours, volume, share, score :| HoursBy(es, actor, c, median, hours, volume, share, score);
    HoursIff(p.hourCounts, p.hourActors, es, median, actor, order, hours);
    RowsOfSlots(pick, p.hourActors, QuietHours(p.hourCounts, median), es, actor, order);
    SameLength(c.entryIds, Folded(pick, p.hourActors, order).ids);
    VolumeIff(p.hourCounts, es, hours, volume);
    QuietnessIff(median, volume, |c.entryIds|, share, score);
    RoundedIff(score, c.score);
  }

  // --- All actors ---

  ghost function JudgedQuiet(pick: Chooser, p: Aggregate, median: real, actor: string): Option<Candidate> {
    Quiet(pick, p.hourCounts, median, p.hourActors)(actor)
  }

  lemma JudgedListed(pick: Chooser, p: Aggregate, median: real, actor: string)
    requires JudgedQuiet(pick, p, median, actor).Some?
    ensures actor in QuietActors(p.hourActors, QuietHours(p.hourCounts, median))
  {
    hide Folded, MeanVolume, ActorScore, Round3, QuietHours;
    var order := Listing(QuietSlots(p.hourActors, QuietHours(p.hourCounts, median), actor));
    assert HoursOf(order)[0] in HoursOf(order);
    var i :| 0 <= i < |order|;
    assert order[i] in order;
    assert ActorOf(order[i]) == actor;
  }

  lemma HoursMember(pick: Chooser, p: Aggregate, median: real, c: Candidate)
    requires |p.hourCounts| >= 4 && median == Median(Volumes(p.hourCounts))
    ensures c in OffHoursOf(pick, p) <==> exists actor :: JudgedQuiet(pick, p, median, actor) == Some(c)
  {
    hide JudgeSlots, Median;
    var actors := Listing(QuietActors(p.hourActors, QuietHours(p.hourCounts, median)));
    var f := Quiet(pick, p.hourCounts, median, p.hourActors);
    CollectMember(actors, f, c);
    forall actor | JudgedQuiet(pick, p, median, actor) == Some(c) ensures exists i :: 0 <= i < |actors| && f(actors[i]) == Some(c) {
      JudgedListed(pick, p, median, actor);
      assert actor in actors;
      var i :| 0 <= i < |actors| && actors[i] == actor;
    }
    if i :| 0 <= i < |actors| && f(actors[i]) == Some(c) {
      assert JudgedQuiet(pick, p, median, actors[i]) == Some(c);
    }
  }

  lemma JudgedTells(pick: Chooser, p: Aggregate, median: real, actor: string)
    requires JudgedQuiet(pick, p, median, actor).Some?
    ensures var c := JudgedQuiet(pick, p, median, actor).value; c.evidence.OffHoursEvidence? && c.evidence.actor == actor
  {}

  ghost predicate ActorsDiffer(cs: seq<Candidate>) {
    && (forall i :: 0 <= i < |cs| ==> cs[i].evidence.OffHoursEvidence?)
    && (forall i, j :: 0 <= i < j < |cs| ==> cs[i].evidence.actor != cs[j].evidence.actor)
  }

  lemma JudgedDiffer(pick: Chooser, p: Aggregate, median: real, actors: seq<string>)
    requires NoDup(actors)
    ensures ActorsDiffer(Collect(actors, Quiet(pick, p.hourCounts, median, p.hourActors)))
  {
    hide JudgeSlots, Collect;
    var f := Quiet(pick, p.hourCounts, median, p.hourActors);
    var found := Collect(actors, f);
    forall x | x in actors && f(x).Some? ensures f(x).value.evidence.OffHoursEvidence? && f(x).value.evidence.actor == x {
      JudgedTells(pick, p, median, x);
    }
    CollectNoDup(actors, f);
    forall i | 0 <= i < |found|
      ensures found[i].evidence.OffHoursEvidence? && f(found[i].evidence.actor) == Some(found[i])
    {
      CollectMember(actors, f, found[i]);
      var j :| 0 <= j < |actors| && f(actors[j]) == Some(found[i]);
      assert actors[j] in actors;
    }
  }

  lemma HoursOnce(pick: Chooser, p: Aggregate)
    ensures ActorsDiffer(OffHoursOf(pick, p))
  {
    hide Quiet, Median;
    if |p.hourCounts| >= 4 {
      var median := Median(Volumes(p.hourCounts));
      JudgedDiffer(pick, p, median, Listing(QuietActors(p.hourActors, QuietHours(p.hourCounts, median))));
    }
  }

  lemma LooselyOnce(cs: seq<Candidate>)
    requires ActorsDiffer(cs)
    ensures NoDup(MapSeq(cs, LooseFingerprint))
  {
    var loose := MapSeq(cs, LooseFingerprint);
    forall i, j | 0 <= i < j < |loose| ensures loose[i] != loose[j] {
      assert loose[i].evidence.actor == cs[i].evidence.actor && loose[j].evidence.actor == cs[j].evidence.actor;
    }
  }

  lemma QuietJudgement(pick: Chooser, p: Aggregate, es: seq<LogEntry>, median: real, c: Candidate)
    requires HoursRead(p.hourCounts, es) && ActorsRead(p.hourActors, es)
    ensures (exists actor :: JudgedQuiet(pick, p, median, actor) == Some(c)) ==> exists actor :: HoursFinding(es, median, actor, c)
    ensures forall actor :: HoursFinding(es, median, actor, c) ==>
      var found := JudgedQuiet(pick, p, median, actor); found.Some? && Alike(c, found.value)
  {
    hide JudgeSlots, HoursFinding, Alike, HoursRead, ActorsRead, QuietSlots, QuietHours;
    forall actor
      ensures JudgedQuiet(pick, p, median, actor) == Some(c) ==> HoursFinding(es, median, actor, c)
      ensures HoursFinding(es, median, actor, c) ==>
        var found := JudgedQuiet(pick, p, median, actor); found.Some? && Alike(c, found.value)
    {
      var order := Listing(QuietSlots(p.hourActors, QuietHours(p.hourCounts, median), actor));
      if JudgedQuiet(pick, p, median, actor) == Some(c) {
        HoursJudged(pick, p, es, median, actor, order, c);
      }
      if HoursFinding(es, median, actor, c) {
        HoursOnly(pick, p, es, median, actor, order, c);
      }
    }
  }

  /** What an aggregate of the rows finds is, up to the order of the rows cited and the hosts shown, what there is to find. */
  lemma HoursIffFound(pick: Chooser, p: Aggregate, es: seq<LogEntry>, c: Candidate)
    requires HoursRead(p.hourCounts, es) && ActorsRead(p.hourActors, es)
    ensures c in OffHoursOf(pick, p) ==> FindsHours(es)(c)
    ensures FindsHours(es)(c) ==> exists d :: d in OffHoursOf(pick, p) && Alike(c, d)
  {
    hide HoursFinding, Alike, HoursRead, ActorsRead, Median, IsMedian, IsVolumes, JudgedQuiet;
    if c in OffHoursOf(pick, p) {
      var volumes := Volumes(p.hourCounts);
      VolumesAre(p.hourCounts, es);
      MedianIff(volumes, Median(volumes));
      HoursMember(pick, p, Median(volumes), c);
      QuietJudgement(pick, p, es, Median(volumes), c);
    }
    if FindsHours(es)(c) {
      var volumes, median, actor :| IsVolumes(es, volumes) && |volumes| >= 4 && IsMedian(volumes, median) && HoursFinding(es, median, actor, c);
      TypicalHour(p.hourCounts, es, volumes, median);
      QuietJudgement(pick, p, es, median, c);
      HoursMember(pick, p, median, JudgedQuiet(pick, p, median, actor).value);
    }
  }

  // --- The report ---

  ghost predicate ShowsAlike(out: seq<Candidate>, c: Candidate) {
    || (exists d :: d in out && Alike(c, d))
    || (|out| == 5 && forall x :: x in out ==> x.score > c.score || (x.score == c.score && StrLe(x.title, c.title)))
  }

  /** At most five findings of at least 0.30, best first and no actor twice; and none there is to find ranks above one shown,
      unless it is shown with its rows in some order. */
  ghost predicate HoursReported(out: seq<Candidate>, es: seq<LogEntry>) {
    && ActorsDiffer(out) && |out| <= 5
    && (forall i, j :: 0 <= i < j < |out| ==> out[i].score > out[j].score || (out[i].score == out[j].score && StrLe(out[i].title, out[j].title)))
    && (forall c :: c in out ==> FindsHours(es)(c) && c.score >= 0.30)
    && (forall c :: FindsHours(es)(c) && c.score >= 0.30 ==> ShowsAlike(out, c))
  }

  ghost function Among(cs: seq<Candidate>): Candidate -> bool {
    c => c in cs
  }

  lemma MappedFrom(xs: seq<Candidate>, fp: Candidate -> Candidate, y: Candidate) returns (x: Candidate)
    requires y in MapSeq(xs, fp)
    ensures x in xs && fp(x) == y
  {
    var i :| 0 <= i < |xs| && MapSeq(xs, fp)[i] == y;
    x := xs[i];
  }

  lemma MappedTo(xs: seq<Candidate>, fp: Candidate -> Candidate, x: Candidate)
    requires x in xs
    ensures fp(x) in MapSeq(xs, fp)
  {
    var i :| 0 <= i < |xs| && xs[i] == x;
    assert MapSeq(xs, fp)[i] == fp(x);
  }

  /** What a reported candidate is, up to the relabelling. */
  lemma ReportedFrom(fp: Candidate -> Candidate, out: seq<Candidate>, cs: seq<Candidate>, c: Candidate) returns (d: Candidate)
    requires Reports(fp, out, cs) && c in out && KeepsRank(fp)
    ensures d in cs && fp(d) == fp(c) && c.score >= 0.30
  {
    MappedTo(out, fp, c);
    assert fp(c) in multiset(MapSeq(out, fp));
    KeptIff(MapSeq(cs, fp), fp(c));
    d := MappedFrom(cs, fp, fp(c));
  }

  lemma LooseShape(c: Candidate, d: Candidate)
    requires LooseFingerprint(c) == LooseFingerprint(d)
    ensures c.evidence.OffHoursEvidence? <==> d.evidence.OffHoursEvidence?
    ensures c.evidence.OffHoursEvidence? ==> c.evidence.actor == d.evidence.actor
  {}

  lemma FindsAlike(es: seq<LogEntry>, c: Candidate, d: Candidate)
    requires FindsHours(es)(c) && Alike(c, d)
    ensures FindsHours(es)(d)
  {
    hide IsMedian, IsVolumes, HoursFinding, Alike;
    var volumes, median, actor :| IsVolumes(es, volumes) && |volumes| >= 4 && IsMedian(volumes, median) && HoursFinding(es, median, actor, c);
    FindingAlike(es, median, actor, c, d);
  }

  lemma ReportedIsFound(pick: Chooser, p: Aggregate, es: seq<LogEntry>, out: seq<Candidate>, c: Candidate)
    requires HoursRead(p.hourCounts, es) && ActorsRead(p.hourActors, es)
    requires Reports(LooseFingerprint, out, OffHoursOf(pick, p)) && c in out
    ensures FindsHours(es)(c) && c.score >= 0.30 && c.evidence.OffHoursEvidence?
  {
    hide HoursRead, ActorsRead, OffHoursOf, Reports, LooseFingerprint, IsMedian, IsVolumes, HoursFinding;
    FingerprintsKeepRank();
    var d := ReportedFrom(LooseFingerprint, out, OffHoursOf(pick, p), c);
    HoursIffFound(pick, p, es, d);
    HoursOnce(pick, p);
    LooseShape(c, d);
    AlikeIff(d, c);
    FindsAlike(es, d, c);
  }

  lemma FoundIsShown(pick: Chooser, p: Aggregate, es: seq<LogEntry>, out: seq<Candidate>, c: Candidate)
    requires HoursRead(p.hourCounts, es) && ActorsRead(p.hourActors, es)
    requires Reported(MapSeq(out, LooseFingerprint), Among(MapSeq(OffHoursOf(pick, p), LooseFingerprint)))
    requires FindsHours(es)(c) && c.score >= 0.30
    ensures ShowsAlike(out, c)
  {
    hide HoursRead, ActorsRead, OffHoursOf, FindsHours, LooseFingerprint;
    FingerprintsKeepRank();
    HoursIffFound(pick, p, es, c);
    var d :| d in OffHoursOf(pick, p) && Alike(c, d);
    AlikeIff(c, d);
    MappedTo(OffHoursOf(pick, p), LooseFingerprint, d);
    assert Shows(MapSeq(out, LooseFingerprint), LooseFingerprint(d));
    if LooseFingerprint(d) in MapSeq(out, LooseFingerprint) {
      var x := MappedFrom(out, LooseFingerprint, LooseFingerprint(d));
      LooseShape(x, c);
      AlikeIff(c, x);
    } else {
      forall x | x in out ensures x.score > c.score || (x.score == c.score && StrLe(x.title, c.title)) {
        MappedTo(out, LooseFingerprint, x);
      }
    }
  }

  ghost predicate ComesFrom(cs: seq<Candidate>, c: Candidate, d: Candidate) {
    && d in cs && LooseFingerprint(d) == LooseFingerprint(c)
    && c.evidence.OffHoursEvidence? && d.evidence.OffHoursEvidence? && c.evidence.actor == d.evidence.actor
  }

  lemma ReportedDiffer(pick: Chooser, p: Aggregate, out: seq<Candidate>)
    requires Reports(LooseFingerprint, out, OffHoursOf(pick, p)) && NoDup(MapSeq(out, LooseFingerprint))
    ensures ActorsDiffer(out)
  {
    hide OffHoursOf, Reports, LooseFingerprint;
    FingerprintsKeepRank();
    HoursOnce(pick, p);
    forall i | 0 <= i < |out| ensures exists d :: ComesFrom(OffHoursOf(pick, p), out[i], d) {
      var d := ReportedFrom(LooseFingerprint, out, OffHoursOf(pick, p), out[i]);
      LooseShape(out[i], d);
      assert ComesFrom(OffHoursOf(pick, p), out[i], d);
    }
    forall i, j | 0 <= i < j < |out| ensures out[i].evidence.actor != out[j].evidence.actor {
      var d :| ComesFrom(OffHoursOf(pick, p), out[i], d);
      var e :| ComesFrom(OffHoursOf(pick, p), out[j], e);
      assert d != e by {
        assert MapSeq(out, LooseFingerprint)[i] != MapSeq(out, LooseFingerprint)[j];
      }
    }
  }

  /** What is reported of quiet hours, whichever hosts are shown. */
  lemma OffHoursReported(pick: Chooser, p: Aggregate, es: seq<LogEntry>, out: seq<Candidate>)
    requires HoursRead(p.hourCounts, es) && ActorsRead(p.hourActors, es) && Reports(LooseFingerprint, out, OffHoursOf(pick, p))
    ensures HoursReported(out, es)
  {
    hide HoursRead, ActorsRead, OffHoursOf, FindsHours, LooseFingerprint, Ranks, ShowsAlike, ActorsDiffer;
    var loose, cs := MapSeq(out, LooseFingerprint), MapSeq(OffHoursOf(pick, p), LooseFingerprint);
    FingerprintsKeepRank();
    HoursOnce(pick, p);
    LooselyOnce(OffHoursOf(pick, p));
    RanksReport(loose, cs, Among(cs));
    ReportedDiffer(pick, p, out);
    forall i, j | 0 <= i < j < |out|
      ensures out[i].score > out[j].score || (out[i].score == out[j].score && StrLe(out[i].title, out[j].title))
    {
      assert loose[i] == LooseFingerprint(out[i]) && loose[j] == LooseFingerprint(out[j]);
    }
    forall c | c in out ensures FindsHours(es)(c) && c.score >= 0.30 {
      ReportedIsFound(pick, p, es, out, c);
    }
    forall c | FindsHours(es)(c) && c.score >= 0.30 ensures ShowsAlike(out, c) {
      FoundIsShown(pick, p, es, out, c);
    }
  }

  // --- The hosts shown ---

  /** At most five hosts, all of which the actor met in the hours named. */
  ghost predicate HostsMet(es: seq<LogEntry>, c: Candidate) {
    && c.evidence.OffHoursEvidence? && |c.evidence.hosts| <= 5
    && forall host :: host in c.evidence.hosts ==> MetBy(es, c.evidence.actor, c.evidence.hours, host)
  }

  ghost predicate AllMet(es: seq<LogEntry>, actor: string, hours: seq<int>, listed: seq<string>) {
    NoDup(listed) && Sorted(listed, StrLe) && forall host :: host in listed <==> MetBy(es, actor, hours, host)
  }

  /** The first five, in alphabetical order, of the hosts the actor met in the hours named. */
  ghost predicate FirstHostsMet(es: seq<LogEntry>, c: Candidate) {
    c.evidence.OffHoursEvidence? && exists listed ::
      && AllMet(es, c.evidence.actor, c.evidence.hours, listed)
      && c.evidence.hosts == if |listed| > 5 then listed[..5] else listed
  }

  lemma FewUncapped(slots: Slots, es: seq<LogEntry>)
    requires ActorsRead(slots, es) && FewHosts(es)
    ensures Uncapped(slots)
    ensures forall hour, actor :: (hour, actor) in slots ==> NamesIn(slots[(hour, actor)].hosts, es, ActorRows(hour, actor), TheHost)
  {
    hide NamesIn, AnyRow, Through;
    forall hour, actor | (hour, actor) in slots
      ensures |slots[(hour, actor)].hosts| <= 8 && NamesIn(slots[(hour, actor)].hosts, es, ActorRows(hour, actor), TheHost)
    {
      var all :| && NamesIn(all, es, ActorRows(hour, actor), TheHost) && slots[(hour, actor)].hosts <= all
                 && (|all| <= 8 ==> slots[(hour, actor)].hosts == all);
    }
    forall k | k in slots ensures |slots[k].hosts| <= MAX_EVIDENCE_VALUES {
      var (hour, actor) := k;
      assert |slots[(hour, actor)].hosts| <= 8;
    }
  }

  lemma MetHere(slots: Slots, es: seq<LogEntry>, hour: int, actor: string, host: string)
    requires ActorsRead(slots, es) && (hour, actor) in slots && host in slots[(hour, actor)].hosts
    ensures exists i :: 0 <= i < |es| && AtHour(es[i], hour) && ActedAs(es[i], actor) && Names(es[i].host, host)
  {
    var all :| NamesIn(all, es, ActorRows(hour, actor), TheHost) && slots[(hour, actor)].hosts <= all;
    assert host in all;
    var i :| 0 <= i < |es| && ActorRows(hour, actor)(es[i]) && Names(TheHost(es[i]), host);
  }

  /** Sampled hosts were met. */
  lemma SampledWereMet(slots: Slots, es: seq<LogEntry>, c: Candidate)
    requires ActorsRead(slots, es) && Sampled(slots, c)
    ensures HostsMet(es, c)
  {
    hide ActorsRead, AtHour, ActedAs, Names;
    forall host | host in c.evidence.hosts ensures MetBy(es, c.evidence.actor, c.evidence.hours, host) {
      var hour :| hour in c.evidence.hours && (hour, c.evidence.actor) in slots && host in slots[(hour, c.evidence.actor)].hosts;
      MetHere(slots, es, hour, c.evidence.actor, host);
      var i :| 0 <= i < |es| && AtHour(es[i], hour) && ActedAs(es[i], c.evidence.actor) && Names(es[i].host, host);
    }
  }

  lemma AmongMet(slots: Slots, quiet: set<int>, es: seq<LogEntry>, actor: string, order: seq<Slot>, host: string)
    requires ActorsRead(slots, es) && FewHosts(es) && Enumerates(order, QuietSlots(slots, quiet, actor))
    ensures host in HostsAmong(slots, order) ==> MetBy(es, actor, HoursOf(order), host)
  {
    hide ActorsRead, FewHosts, AtHour, ActedAs, Names;
    if host in HostsAmong(slots, order) {
      var i :| 0 <= i < |order| && host in Get(slots, order[i], NO_HOUR).hosts;
      assert order[i] in order;
      assert order[i] == (order[i].0, actor);
      ListedHour(order, i);
      MetHere(slots, es, order[i].0, actor, host);
      var j :| 0 <= j < |es| && AtHour(es[j], order[i].0) && ActedAs(es[j], actor) && Names(es[j].host, host);
    }
  }

  lemma MetAmong(slots: Slots, quiet: set<int>, es: seq<LogEntry>, actor: string, order: seq<Slot>, host: string)
    requires ActorsRead(slots, es) && FewHosts(es) && Enumerates(order, QuietSlots(slots, quiet, actor))
    requires MetBy(es, actor, HoursOf(order), host)
    ensures host in HostsAmong(slots, order)
  {
    hide ActorsRead, FewHosts, AtHour, ActedAs, Names;
    var i, hour :| 0 <= i < |es| && hour in HoursOf(order) && AtHour(es[i], hour) && ActedAs(es[i], actor) && Names(es[i].host, host);
    forall j | 0 <= j < |order| ensures order[j].1 == actor {
      assert order[j] in order;
    }
    HourListed(order, actor, hour);
    FewUncapped(slots, es);
    assert ActorRows(hour, actor)(es[i]) && Names(TheHost(es[i]), host);
    var j :| 0 <= j < |order| && order[j] == (hour, actor);
    assert host in Get(slots, order[j], NO_HOUR).hosts;
  }

  lemma JudgedShows(pick: Chooser, p: Aggregate, median: real, actor: string, order: seq<Slot>, c: Candidate)
    requires JudgeSlots(pick, p.hourCounts, median, p.hourActors, actor, order) == Some(c)
    ensures c.evidence.OffHoursEvidence? && c.evidence.actor == actor && c.evidence.hours == HoursOf(order)
    ensures var listed := SortedStrings(Folded(pick, p.hourActors, order).hosts);
      c.evidence.hosts == if |listed| > 5 then listed[..5] else listed
  {
    hide Folded, MeanVolume, ActorScore, Round3, HoursOf;
    var listed := SortedStrings(Folded(pick, p.hourActors, order).hosts);
    assert listed[..|listed|] == listed;
  }

  lemma FoldedAllMet(pick: Chooser, slots: Slots, quiet: set<int>, es: seq<LogEntry>, actor: string, order: seq<Slot>)
    requires ChoosesEight(pick) && ActorsRead(slots, es) && FewHosts(es) && Enumerates(order, QuietSlots(slots, quiet, actor))
    ensures AllMet(es, actor, HoursOf(order), SortedStrings(Folded(pick, slots, order).hosts))
  {
    hide ActorsRead, FewHosts, QuietSlots, HoursOf, MetBy, HostsAmong, Folded, Uncapped;
    var listed := SortedStrings(Folded(pick, slots, order).hosts);
    FewUncapped(slots, es);
    FoldedHosts(pick, slots, order);
    forall host ensures host in listed <==> MetBy(es, actor, HoursOf(order), host) {
      AmongMet(slots, quiet, es, actor, order, host);
      if MetBy(es, actor, HoursOf(order), host) {
        MetAmong(slots, quiet, es, actor, order, host);
      }
    }
  }

  lemma JudgedHosts(pick: Chooser, p: Aggregate, es: seq<LogEntry>, median: real, actor: string, c: Candidate)
    requires ChoosesEight(pick) && ActorsRead(p.hourActors, es) && FewHosts(es) && JudgedQuiet(pick, p, median, actor) == Some(c)
    ensures FirstHostsMet(es, c)
  {
    hide ActorsRead, FewHosts, AllMet, QuietSlots, QuietHours, HoursOf, Folded, JudgeSlots, ChoosesEight;
    var quiet := QuietHours(p.hourCounts, median);
    var order := Listing(QuietSlots(p.hourActors, quiet, actor));
    JudgedShows(pick, p, median, actor, order, c);
    FoldedAllMet(pick, p.hourActors, quiet, es, actor, order);
  }

  lemma SameShown(es: seq<LogEntry>, c: Candidate, d: Candidate)
    requires Fingerprint(c) == Fingerprint(d) && FirstHostsMet(es, d)
    ensures FirstHostsMet(es, c)
  {
    assert c.evidence == d.evidence;
  }

  /** Where no actor met more than eight hosts in an hour, the hosts shown are the first five, however the log was split. */
  lemma HostsExactlyShown(pick: Chooser, p: Aggregate, es: seq<LogEntry>, out: seq<Candidate>)
    requires ChoosesEight(pick) && ActorsRead(p.hourActors, es) && FewHosts(es)
    requires Uncapped(p.hourActors) ==> Reports(Fingerprint, out, OffHoursOf(pick, p))
    ensures forall c :: c in out ==> FirstHostsMet(es, c)
  {
    hide ActorsRead, FewHosts, FirstHostsMet, ChoosesEight, Median, JudgedQuiet, Reports;
    FewUncapped(p.hourActors, es);
    FingerprintsKeepRank();
    forall c | c in out ensures FirstHostsMet(es, c) {
      var d := ReportedFrom(Fingerprint, out, OffHoursOf(pick, p), c);
      var median := Median(Volumes(p.hourCounts));
      HoursMember(pick, p, median, d);
      var actor :| JudgedQuiet(pick, p, median, actor) == Some(d);
      JudgedHosts(pick, p, es, median, actor, d);
      SameShown(es, c, d);
    }
  }
}
