/** A split that shows in a finding: an upload whose off-hours finding lists other hosts when it is analysed in two shards
    than when one process analyses it. */
module ShownHosts {
  import opened Common
  import opened LogEntries
  import opened Aggregates
  import opened Statistics
  import opened Candidates
  import opened OffHours
  import opened Exactness
  import opened KeptEvidence
  import opened Publishing

  const BOB := "bob"

  /** `n` rows of one user in hour `h`, naming no host. */
  function Noise(h: int, n: nat): seq<LogEntry> {
    seq(n, i => LogEntry(h * 1000 + i, 0, Some(h * 3600 * SECOND), None, Some(BOB), None, None, None, None, None))
  }

  /** Visit `i` of nine in hour 0, each to a host of its own; the host with the shortest name comes last. */
  function Call(i: nat): LogEntry
    requires i < 9
  {
    LogEntry(i, 0, Some(0), None, Some(ANN), Some(HostName(9 - i)), None, None, None, None)
  }

  function Calls(n: nat): seq<LogEntry>
    requires n <= 9
  {
    seq(n, i requires 0 <= i < 9 => Call(i))
  }

  /** The names of the hosts visited first, longest first. */
  function Called(n: nat): seq<string>
    requires n <= 9
  {
    seq(n, i requires 0 <= i < 9 => HostName(9 - i))
  }

  const BUSY: seq<LogEntry> := Noise(1, 100) + Noise(2, 100) + Noise(3, 100)
  const FIRST: seq<LogEntry> := BUSY + Calls(8)
  const LAST: seq<LogEntry> := [Call(8)]
  const ROWS: seq<LogEntry> := BUSY + Calls(9)

  // --- What the groups of these rows are ---

  /** Rows that all fall into group `at`. */
  lemma {:induction false} AllIn<K(!new), T>(es: seq<LogEntry>, key: LogEntry -> Option<K>, at: K, k: K, val: LogEntry -> Option<T>)
    requires forall i :: 0 <= i < |es| ==> key(es[i]) == Some(at)
    ensures Pick(es, key, k, val) == if k == at then Collect(es, val) else []
  {
    if |es| > 0 {
      var front, e := es[..|es| - 1], es[|es| - 1];
      AllIn(front, key, at, k, val);
      assert es == front + [e];
      PickSnoc(front, e, key, k, val);
      CollectSnoc(front, e, val);
    }
  }

  lemma {:induction false} AllIds(es: seq<LogEntry>)
    ensures |Collect(es, IdOf)| == |es|
  {
    if |es| > 0 {
      AllIds(es[..|es| - 1]);
    }
  }

  lemma {:induction false} NoHosts(es: seq<LogEntry>)
    requires forall i :: 0 <= i < |es| ==> HostOf(es[i]).None?
    ensures Collect(es, HostOf) == []
  {
    if |es| > 0 {
      NoHosts(es[..|es| - 1]);
    }
  }

  lemma {:induction false} CalledHosts(n: nat)
    requires n <= 9
    ensures Collect(Calls(n), HostOf) == Called(n)
  {
    hide Collect;
    if n > 0 {
      CalledHosts(n - 1);
      assert Calls(n) == Calls(n - 1) + [Call(n - 1)];
      assert |HostName(9 - (n - 1))| > 0;
      CollectSnoc(Calls(n - 1), Call(n - 1), HostOf);
    }
  }

  lemma NoiseKeys(h: int, n: nat, i: nat)
    requires 0 <= h < 24 && i < n
    ensures HourKey(Noise(h, n)[i]) == Some(h) && HourActorKey(Noise(h, n)[i]) == Some((h, BOB)) && HostOf(Noise(h, n)[i]).None?
  {}

  lemma CallKeys(i: nat)
    requires i < 9
    ensures HourKey(Call(i)) == Some(0) && HourActorKey(Call(i)) == Some((0, ANN))
  {}

  lemma NoisePicks(h: int, n: nat, k: int, slot: Slot)
    requires 0 <= h < 24
    ensures |Pick(Noise(h, n), HourKey, k, IdOf)| == if k == h then n else 0
    ensures |Pick(Noise(h, n), HourActorKey, slot, IdOf)| == if slot == (h, BOB) then n else 0
    ensures Pick(Noise(h, n), HourActorKey, slot, HostOf) == []
  {
    var rows := Noise(h, n);
    forall i | 0 <= i < n
      ensures HourKey(rows[i]) == Some(h) && HourActorKey(rows[i]) == Some((h, BOB)) && HostOf(rows[i]).None?
    {
      NoiseKeys(h, n, i);
    }
    AllIn(rows, HourKey, h, k, IdOf);
    AllIn(rows, HourActorKey, (h, BOB), slot, IdOf);
    AllIn(rows, HourActorKey, (h, BOB), slot, HostOf);
    AllIds(rows);
    NoHosts(rows);
  }

  lemma CallPicks(n: nat, k: int, slot: Slot)
    requires n <= 9
    ensures |Pick(Calls(n), HourKey, k, IdOf)| == if k == 0 then n else 0
    ensures |Pick(Calls(n), HourActorKey, slot, IdOf)| == if slot == (0, ANN) then n else 0
    ensures Pick(Calls(n), HourActorKey, slot, HostOf) == if slot == (0, ANN) then Called(n) else []
  {
    forall i | 0 <= i < n ensures HourKey(Calls(n)[i]) == Some(0) && HourActorKey(Calls(n)[i]) == Some((0, ANN)) {
      CallKeys(i);
    }
    AllIn(Calls(n), HourKey, 0, k, IdOf);
    AllIn(Calls(n), HourActorKey, (0, ANN), slot, IdOf);
    AllIn(Calls(n), HourActorKey, (0, ANN), slot, HostOf);
    AllIds(Calls(n));
    CalledHosts(n);
  }

  /** How many rows of each hour and each slot there are, and the hosts they name. */
  ghost predicate Shape(rows: seq<LogEntry>, hours: int -> nat, slots: Slot -> nat, hosts: Slot -> seq<string>) {
    && (forall k :: |Pick(rows, HourKey, k, IdOf)| == hours(k))
    && (forall slot :: |Pick(rows, HourActorKey, slot, IdOf)| == slots(slot))
    && (forall slot :: Pick(rows, HourActorKey, slot, HostOf) == hosts(slot))
  }

  lemma ShapeAppend(a: seq<LogEntry>, b: seq<LogEntry>, h1: int -> nat, h2: int -> nat, h: int -> nat, s1: Slot -> nat, s2: Slot -> nat, s: Slot -> nat,
                    n1: Slot -> seq<string>, n2: Slot -> seq<string>, n: Slot -> seq<string>)
    requires Shape(a, h1, s1, n1) && Shape(b, h2, s2, n2)
    requires (forall k :: h(k) == h1(k) + h2(k)) && forall slot :: s(slot) == s1(slot) + s2(slot) && n(slot) == n1(slot) + n2(slot)
    ensures Shape(a + b, h, s, n)
  {
    forall k ensures |Pick(a + b, HourKey, k, IdOf)| == h(k) {
      PickAppend(a, b, HourKey, k, IdOf);
    }
    forall slot ensures |Pick(a + b, HourActorKey, slot, IdOf)| == s(slot) && Pick(a + b, HourActorKey, slot, HostOf) == n(slot) {
      PickAppend(a, b, HourActorKey, slot, IdOf);
      PickAppend(a, b, HourActorKey, slot, HostOf);
    }
  }

  function NoiseHours(from: int, to: int): int -> nat {
    (k: int) => if from <= k <= to then 100 else 0
  }

  function NoiseSlots(from: int, to: int): Slot -> nat {
    (slot: Slot) => if from <= slot.0 <= to && slot.1 == BOB then 100 else 0
  }

  function NoNames(): Slot -> seq<string> {
    (slot: Slot) => []
  }

  lemma NoiseShape(h: int)
    requires 0 <= h < 24
    ensures Shape(Noise(h, 100), NoiseHours(h, h), NoiseSlots(h, h), NoNames())
  {
    forall k ensures |Pick(Noise(h, 100), HourKey, k, IdOf)| == NoiseHours(h, h)(k) {
      NoisePicks(h, 100, k, (0, ANN));
    }
    forall slot: Slot
      ensures |Pick(Noise(h, 100), HourActorKey, slot, IdOf)| == NoiseSlots(h, h)(slot)
      ensures Pick(Noise(h, 100), HourActorKey, slot, HostOf) == NoNames()(slot)
    {
      NoisePicks(h, 100, h, slot);
    }
  }

  lemma NoiseAppend(rows: seq<LogEntry>, from: int, h: int)
    requires 0 <= from <= h < 24 && Shape(rows, NoiseHours(from, h - 1), NoiseSlots(from, h - 1), NoNames())
    ensures Shape(rows + Noise(h, 100), NoiseHours(from, h), NoiseSlots(from, h), NoNames())
  {
    NoiseShape(h);
    ShapeAppend(rows, Noise(h, 100), NoiseHours(from, h - 1), NoiseHours(h, h), NoiseHours(from, h),
                NoiseSlots(from, h - 1), NoiseSlots(h, h), NoiseSlots(from, h), NoNames(), NoNames(), NoNames());
  }

  lemma BusyShape()
    ensures Shape(BUSY, NoiseHours(1, 3), NoiseSlots(1, 3), NoNames())
  {
    hide Shape, Noise;
    NoiseShape(1);
    NoiseAppend(Noise(1, 100), 1, 2);
    NoiseAppend(Noise(1, 100) + Noise(2, 100), 1, 3);
  }

  function CallHours(n: nat): int -> nat {
    (k: int) => if k == 0 then n else 0
  }

  function CallSlots(n: nat): Slot -> nat {
    (slot: Slot) => if slot == (0, ANN) then n else 0
  }

  function CallNames(n: nat): Slot -> seq<string>
    requires n <= 9
  {
    (slot: Slot) => if slot == (0, ANN) then Called(n) else []
  }

  lemma CallShape(n: nat)
    requires n <= 9
    ensures Shape(Calls(n), CallHours(n), CallSlots(n), CallNames(n))
  {
    forall k ensures |Pick(Calls(n), HourKey, k, IdOf)| == CallHours(n)(k) {
      CallPicks(n, k, (0, ANN));
    }
    forall slot: Slot
      ensures |Pick(Calls(n), HourActorKey, slot, IdOf)| == CallSlots(n)(slot)
      ensures Pick(Calls(n), HourActorKey, slot, HostOf) == CallNames(n)(slot)
    {
      CallPicks(n, 0, slot);
    }
  }

  function RowHours(): int -> nat {
    (k: int) => if 1 <= k <= 3 then 100 else if k == 0 then 9 else 0
  }

  function RowSlots(): Slot -> nat {
    (slot: Slot) => if 1 <= slot.0 <= 3 && slot.1 == BOB then 100 else if slot == (0, ANN) then 9 else 0
  }

  ghost predicate RowShape(rows: seq<LogEntry>) {
    Shape(rows, RowHours(), RowSlots(), CallNames(9))
  }

  lemma RowsShape()
    ensures RowShape(ROWS)
  {
    hide CallNames;
    BusyShape();
    CallShape(9);
    ShapeAppend(BUSY, Calls(9), NoiseHours(1, 3), CallHours(9), RowHours(), NoiseSlots(1, 3), CallSlots(9), RowSlots(),
                NoNames(), CallNames(9), CallNames(9));
  }

  // --- The quiet hour and its actor, on any aggregate of rows of that shape ---

  const COUNTS: map<int, int> := map[0 := 9, 1 := 100, 2 := 100, 3 := 100]

  lemma CountsAre(k: int)
    ensures k in COUNTS <==> 0 <= k <= 3
    ensures k in COUNTS ==> COUNTS[k] == RowHours()(k)
  {}

  lemma RowCount(m: Maths, p: Aggregate, rows: seq<LogEntry>, k: int)
    requires Describes(m, p, rows) && RowShape(rows)
    ensures k in p.hourCounts <==> 0 <= k <= 3
    ensures k in p.hourCounts ==> p.hourCounts[k] == RowHours()(k)
  {
    assert |Pick(rows, HourKey, k, IdOf)| == RowHours()(k);
    if k in p.hourCounts {
      assert CountFit(p.hourCounts[k], rows, k);
    }
  }

  lemma RowCounts(m: Maths, p: Aggregate, rows: seq<LogEntry>)
    requires Describes(m, p, rows) && RowShape(rows)
    ensures p.hourCounts == COUNTS
  {
    hide Describes, RowShape;
    forall k ensures (k in p.hourCounts <==> k in COUNTS) && (k in COUNTS ==> p.hourCounts[k] == COUNTS[k]) {
      RowCount(m, p, rows, k);
      CountsAre(k);
    }
  }

  lemma MedianOfFour(a: real, b: real)
    requires a <= b
    ensures Median([a, b, b, b]) == b
  {
    hide Sort;
    var xs := [a, b, b, b];
    RealLeOrder();
    SortSorted(xs, RealLe);
    SortedUnique(Sort(xs, RealLe), xs, RealLe);
  }

  lemma FourVolumes()
    ensures Collect([0, 1, 2, 3], Volume(COUNTS)) == [9.0, 100.0, 100.0, 100.0]
  {
    AllCollected([0, 1, 2, 3], Volume(COUNTS));
  }

  lemma FourHours()
    ensures multiset(Volumes(COUNTS)) == multiset(Collect([0, 1, 2, 3], Volume(COUNTS)))
  {
    var hours := [0, 1, 2, 3];
    EnumerationsPermute(Listing(COUNTS.Keys), hours, COUNTS.Keys);
    CollectPermutes(Listing(COUNTS.Keys), hours, Volume(COUNTS));
  }

  lemma RowMedian()
    ensures |Volumes(COUNTS)| > 0 && Median(Volumes(COUNTS)) == 100.0
  {
    FourHours();
    FourVolumes();
    assert |COUNTS| > 0 by {
      assert 0 in COUNTS;
    }
    MedianPermutes(Volumes(COUNTS), [9.0, 100.0, 100.0, 100.0]);
    MedianOfFour(9.0, 100.0);
  }

  lemma RowQuiet()
    ensures QuietHours(COUNTS, 100.0) == {0}
  {}

  lemma RowSlotsHeld(m: Maths, p: Aggregate, rows: seq<LogEntry>, slot: Slot)
    requires Describes(m, p, rows) && RowShape(rows)
    ensures slot in p.hourActors <==> (1 <= slot.0 <= 3 && slot.1 == BOB) || slot == (0, ANN)
    ensures slot == (0, ANN) ==> |p.hourActors[slot].ids| == 9
  {
    assert |Pick(rows, HourActorKey, slot, IdOf)| == RowSlots()(slot);
    if slot == (0, ANN) {
      assert HourFit(p.hourActors[slot], rows, slot);
    }
  }

  lemma QuietAnn(m: Maths, p: Aggregate, rows: seq<LogEntry>)
    requires Describes(m, p, rows) && RowShape(rows)
    ensures QuietActors(p.hourActors, {0}) == {ANN} && QuietSlots(p.hourActors, {0}, ANN) == {(0, ANN)}
  {
    hide Grouped;
    RowSlotsHeld(m, p, rows, (0, ANN));
    forall slot | slot in p.hourActors && slot.0 == 0 ensures slot == (0, ANN) {
      RowSlotsHeld(m, p, rows, slot);
    }
    assert ActorOf((0, ANN)) == ANN && InHours({0})((0, ANN));
  }

  lemma OneListed<T(!new)>(x: T)
    ensures Listing({x}) == [x]
  {
    EnumerationLength(Listing({x}), {x});
    assert Listing({x})[0] in Listing({x});
  }

  lemma OneCollected<A>(x: A, f: A -> Option<Candidate>)
    ensures Collect([x], f) == OptionSeq(f(x))
  {
    assert [x][..0] == [];
  }

  lemma HourZero()
    ensures HoursOf([(0, ANN)]) == [0]
  {
    var order := [(0, ANN)];
    assert MapSeq(order, HourOfSlot)[0] == 0;
    assert Elems(MapSeq(order, HourOfSlot)) == {0};
    EnumerationLength(SortedInts({0}), {0});
    assert SortedInts({0})[0] in SortedInts({0});
  }

  lemma ZeroVolume()
    ensures MeanVolume(COUNTS, [0]) == 9.0
  {
    var volumes := MapSeq([0], VolumeOf(COUNTS));
    assert volumes == [9.0];
    assert volumes[..0] == [];
  }

  lemma FoldedOne(pick: Chooser, slots: Slots, k: Slot)
    requires k in slots
    ensures Folded(pick, slots, [k]) == HourStats(slots[k].ids, pick(slots[k].hosts))
  {
    assert [k][..0] == [];
    assert NO_HOUR.ids + slots[k].ids == slots[k].ids;
    assert NO_HOUR.hosts + pick(slots[k].hosts) == pick(slots[k].hosts);
  }

  function Shown(hosts: set<string>): seq<string> {
    var listed := SortedStrings(hosts);
    listed[..Min(|listed|, 5)]
  }

  /** A finding worth reporting that shows the first five of `hosts`. */
  ghost predicate Shows(found: Option<Candidate>, hosts: set<string>) {
    found.Some? && found.value.score >= MIN_SCORE && found.value.evidence.OffHoursEvidence? && found.value.evidence.hosts == Shown(hosts)
  }

  lemma AnnScore(activity: HourStats)
    requires |activity.ids| == 9
    ensures Shows(JudgeActor(COUNTS, 100.0, ANN, [0], activity), activity.hosts)
  {
    ZeroVolume();
    assert ActorScore(100.0, 9.0, 9) == 0.819;
    assert Round3(0.819) >= MIN_SCORE;
  }

  /** The finding about Ann, with the hosts of her one quiet slot. */
  lemma AnnJudged(slots: Slots)
    requires (0, ANN) in slots && |slots[(0, ANN)].ids| == 9
    ensures Shows(JudgeSlots(FirstEight, COUNTS, 100.0, slots, ANN, [(0, ANN)]), FirstEight(slots[(0, ANN)].hosts))
  {
    HourZero();
    FoldedOne(FirstEight, slots, (0, ANN));
    AnnScore(HourStats(slots[(0, ANN)].ids, FirstEight(slots[(0, ANN)].hosts)));
  }

  lemma AnnQuiet(slots: Slots)
    requires QuietSlots(slots, {0}, ANN) == {(0, ANN)}
    ensures Quiet(FirstEight, COUNTS, 100.0, slots)(ANN) == JudgeSlots(FirstEight, COUNTS, 100.0, slots, ANN, [(0, ANN)])
  {
    hide JudgeSlots, QuietHours;
    RowQuiet();
    OneListed((0, ANN));
  }

  lemma FourCounts()
    ensures |COUNTS| == 4
  {
    EnumerationLength([0, 1, 2, 3], COUNTS.Keys);
  }

  /** Only Ann is judged. */
  lemma OnlyAnn(m: Maths, p: Aggregate, rows: seq<LogEntry>)
    requires Describes(m, p, rows) && RowShape(rows)
    ensures OffHoursOf(FirstEight, p) == OptionSeq(JudgeSlots(FirstEight, COUNTS, 100.0, p.hourActors, ANN, [(0, ANN)]))
  {
    hide JudgeSlots, Quiet, QuietActors, QuietSlots, QuietHours, Describes, RowShape;
    RowCounts(m, p, rows);
    RowMedian();
    RowQuiet();
    QuietAnn(m, p, rows);
    OneListed(ANN);
    AnnQuiet(p.hourActors);
    assert |p.hourCounts| >= 4 by {
      FourCounts();
    }
    OneCollected(ANN, Quiet(FirstEight, COUNTS, 100.0, p.hourActors));
  }

  /** The off-hours detector finds Ann and nobody else. */
  lemma AnnFound(m: Maths, p: Aggregate, rows: seq<LogEntry>)
    requires Describes(m, p, rows) && RowShape(rows)
    ensures (0, ANN) in p.hourActors && |OffHoursOf(FirstEight, p)| == 1
    ensures Shows(Some(OffHoursOf(FirstEight, p)[0]), FirstEight(p.hourActors[(0, ANN)].hosts))
  {
    hide OffHoursOf, JudgeSlots, FirstEight;
    OnlyAnn(m, p, rows);
    RowSlotsHeld(m, p, rows, (0, ANN));
    AnnJudged(p.hourActors);
  }

  // --- The hosts it shows ---

  lemma {:induction false} HostNamesOrdered(j: nat, k: nat)
    requires j <= k
    ensures StrLe(HostName(j), HostName(k))
  {
    if j > 0 {
      HostNamesOrdered(j - 1, k - 1);
      assert HostName(j)[1..] == HostName(j - 1) && HostName(k)[1..] == HostName(k - 1);
    }
  }

  /** The least of a set is listed first. */
  lemma LeastFirst(s: set<string>, x: string)
    requires x in s && forall y :: y in s ==> StrLe(x, y)
    ensures |SortedStrings(s)| > 0 && SortedStrings(s)[0] == x
  {
    var listed := SortedStrings(s);
    var i :| 0 <= i < |listed| && listed[i] == x;
    assert listed[0] in listed;
    if i > 0 {
      assert StrLe(listed[0], listed[i]);
    }
    StrLeTotal(listed[0], x);
  }

  lemma LeastListed(s: set<string>, x: string)
    requires x in s && forall y :: y in s ==> StrLe(x, y)
    ensures x in Shown(s)
  {
    LeastFirst(s, x);
    assert Shown(s)[0] == x;
  }

  lemma LeastChosen(s: set<string>, x: string)
    requires x in s && forall y :: y in s ==> StrLe(x, y)
    ensures x in FirstEight(s) && FirstEight(s) <= s
  {
    FirstEightChooses();
    LeastFirst(s, x);
    var listed := SortedStrings(s);
    assert listed[..Min(|listed|, MAX_EVIDENCE_VALUES)][0] == x;
  }

  /** So it is among the eight chosen, and among the five shown. */
  lemma LeastShown(s: set<string>, x: string)
    requires x in s && forall y :: y in s ==> StrLe(x, y)
    ensures x in Shown(FirstEight(s))
  {
    hide FirstEight;
    LeastChosen(s, x);
    LeastListed(FirstEight(s), x);
  }

  lemma NotListed(s: set<string>, x: string)
    requires x !in s
    ensures x !in Shown(s)
  {
    forall y | y in Shown(s) ensures y in s {
      assert y in SortedStrings(s);
    }
  }

  lemma NotShown(s: set<string>, x: string)
    requires x !in s
    ensures x !in Shown(FirstEight(s))
  {
    hide FirstEight;
    FirstEightChooses();
    assert FirstEight(s) <= s;
    NotListed(FirstEight(s), x);
  }

  lemma CalledDiffer(n: nat)
    requires n <= 9
    ensures NoDup(Called(n)) && |Elems(Called(n))| == n
  {
    forall i, j | 0 <= i < j < n ensures Called(n)[i] != Called(n)[j] {
      assert |Called(n)[i]| == 9 - i && |Called(n)[j]| == 9 - j;
    }
    DistinctElems(Called(n));
  }

  lemma ShortestMissing(n: nat)
    requires n <= 8
    ensures HostName(1) !in Elems(Called(n))
  {
    forall i | 0 <= i < n ensures Called(n)[i] != HostName(1) {
      assert |Called(n)[i]| == 9 - i && |HostName(1)| == 1;
    }
  }

  lemma NinthMissed()
    ensures HostName(1) !in FirstKept(Called(9))
  {
    CalledDiffer(8);
    DistinctKept(Called(8));
    ShortestMissing(8);
    assert Called(9)[..8] == Called(8);
  }

  /** One process has no room for the ninth host. */
  lemma WholeMisses(m: Maths, rows: seq<LogEntry>)
    requires RowShape(rows)
    ensures HostName(1) !in HostsOf(Whole(m, FirstEight, rows), (0, ANN))
  {
    FirstEightChooses();
    WholeKeeps(m, FirstEight, rows, (0, ANN));
    assert Pick(rows, HourActorKey, (0, ANN), HostOf) == CallNames(9)((0, ANN));
    NinthMissed();
  }

  lemma LastInUnion(first: seq<LogEntry>, v: string)
    requires v in KeptEvidence.Kept(LAST, HourActorKey, (0, ANN), HostOf)
    ensures v in KeptUnion([first, LAST], HourActorKey, (0, ANN), HostOf)
  {
    UnionMember([first, LAST], HourActorKey, (0, ANN), HostOf, v);
    assert [first, LAST][1] == LAST;
  }

  lemma LastKept()
    ensures HostName(1) in KeptEvidence.Kept(LAST, HourActorKey, (0, ANN), HostOf)
  {
    CallKeys(8);
    var none: seq<LogEntry> := [];
    assert |HostName(1)| > 0;
    KeptSnoc(none, Call(8), HourActorKey, (0, ANN), HostOf);
    assert none + [Call(8)] == LAST;
  }

  /** The last shard has. */
  lemma MergedKeeps(m: Maths, first: seq<LogEntry>)
    ensures HostName(1) in HostsOf(Merged(m, FirstEight, [first, LAST]), (0, ANN))
  {
    hide FirstEight;
    FirstEightChooses();
    MergedKeep(m, FirstEight, [first, LAST], (0, ANN), "");
    LastKept();
    LastInUnion(first, HostName(1));
  }

  lemma FlattenTwo<T>(a: seq<T>, b: seq<T>)
    ensures Flatten([a, b]) == a + b
  {
    var none: seq<T> := [];
    assert [a, b][..1] == [a] && [a][..0] == [];
    assert Flatten([a]) == none + a == a;
  }

  lemma TwoShards()
    ensures Flatten([FIRST, LAST]) == ROWS
  {
    FlattenTwo(FIRST, LAST);
    assert Calls(9) == Calls(8) + LAST;
    Assoc(BUSY, Calls(8), LAST);
    assert FIRST == BUSY + Calls(8) && ROWS == BUSY + Calls(9);
    assert FIRST + LAST == ROWS;
  }

  /** Every host of Ann's is named by some number of letters, at least one. */
  lemma HostsAreNames(m: Maths, p: Aggregate, rows: seq<LogEntry>, h: string)
    requires Describes(m, p, rows) && RowShape(rows) && (0, ANN) in p.hourActors && h in p.hourActors[(0, ANN)].hosts
    ensures StrLe(HostName(1), h)
  {
    hide Pick;
    assert HourFit(p.hourActors[(0, ANN)], rows, (0, ANN));
    assert Pick(rows, HourActorKey, (0, ANN), HostOf) == CallNames(9)((0, ANN));
    var i :| 0 <= i < 9 && Called(9)[i] == h;
    HostNamesOrdered(1, 9 - i);
  }

  lemma WholeDescribes(m: Maths, rows: seq<LogEntry>)
    ensures Describes(m, Whole(m, FirstEight, rows), rows)
  {
    FirstEightChooses();
    OneShard(m, rows);
    ReducedDescribes(m, FirstEight, [rows]);
  }

  lemma OneShows(m: Maths, rows: seq<LogEntry>)
    requires RowShape(rows)
    ensures var one := OffHoursOf(FirstEight, Whole(m, FirstEight, rows));
      |one| == 1 && one[0].score >= MIN_SCORE && one[0].evidence.OffHoursEvidence? && HostName(1) !in one[0].evidence.hosts
  {
    hide OffHoursOf, FirstEight, Whole;
    var p := Whole(m, FirstEight, rows);
    WholeDescribes(m, rows);
    AnnFound(m, p, rows);
    WholeMisses(m, rows);
    NotShown(p.hourActors[(0, ANN)].hosts, HostName(1));
  }

  lemma TwoShow(m: Maths, first: seq<LogEntry>, rows: seq<LogEntry>)
    requires RowShape(rows) && Flatten([first, LAST]) == rows
    ensures var two := OffHoursOf(FirstEight, Merged(m, FirstEight, [first, LAST]));
      |two| == 1 && two[0].score >= MIN_SCORE && two[0].evidence.OffHoursEvidence? && HostName(1) in two[0].evidence.hosts
  {
    hide OffHoursOf, FirstEight;
    var q := Merged(m, FirstEight, [first, LAST]);
    FirstEightChooses();
    ReducedDescribes(m, FirstEight, [first, LAST]);
    AnnFound(m, q, rows);
    MergedKeeps(m, first);
    forall h | h in q.hourActors[(0, ANN)].hosts ensures StrLe(HostName(1), h) {
      HostsAreNames(m, q, rows, h);
    }
    LeastShown(q.hourActors[(0, ANN)].hosts, HostName(1));
  }

  lemma BusyLength()
    ensures |BUSY| == 300
  {
    assert |Noise(1, 100)| == |Noise(2, 100)| == |Noise(3, 100)| == 100;
  }

  /** Those are the shards of an analysis whose shards hold 308 rows. */
  lemma ShardsOf308()
    ensures Slices(ROWS, ShardsFor(|ROWS|, 308), SizeUsed(308)) == [FIRST, LAST]
  {
    hide Noise, Call;
    BusyLength();
    assert ShardsFor(309, 308) == 2;
    var slices := Slices(ROWS, 2, 308);
    assert slices[0] == FIRST && slices[1] == LAST;
  }

  /** The two findings about Ann differ: in two shards it shows the host with the shortest name, in one process it does not. */
  lemma ShownHostsDiffer(m: Maths)
    ensures Slices(ROWS, ShardsFor(|ROWS|, 308), SizeUsed(308)) == [FIRST, LAST] && Flatten([FIRST, LAST]) == ROWS
    ensures var one, two := OffHoursOf(FirstEight, Whole(m, FirstEight, ROWS)), OffHoursOf(FirstEight, Merged(m, FirstEight, [FIRST, LAST]));
      && |one| == 1 && one[0].score >= MIN_SCORE && one[0].evidence.OffHoursEvidence? && HostName(1) !in one[0].evidence.hosts
      && |two| == 1 && two[0].score >= MIN_SCORE && two[0].evidence.OffHoursEvidence? && HostName(1) in two[0].evidence.hosts
  {
    hide OffHoursOf, Slices;
    ShardsOf308();
    TwoShards();
    RowsShape();
    OneShows(m, ROWS);
    TwoShow(m, FIRST, ROWS);
  }
}
