/** The values partial aggregates hold, what they mean in terms of log entries, and how
    two of them combine. */
module Aggregates {
  import opened Common
  import opened LogEntries
  import opened Dictionaries

  const MAX_EVIDENCE_VALUES := 8

  datatype ByteStats = ByteStats(ids: seq<int>, totalBytes: int, logValues: seq<real>)
  datatype ThreatStats = ThreatStats(ids: seq<int>, users: set<string>, actions: set<string>)
  datatype HostStats = HostStats(ids: seq<int>, users: set<string>, urls: set<string>)
  datatype HourStats = HourStats(ids: seq<int>, hosts: set<string>)

  const NO_BYTES := ByteStats([], 0, [])
  const NO_THREAT := ThreatStats([], {}, {})
  const NO_HOST := HostStats([], {}, {})
  const NO_HOUR := HourStats([], {})

  datatype Aggregate = Aggregate(
    ipMinute: map<(string, int), seq<int>>,
    userHost: map<(string, string), ByteStats>,
    reqByteLogs: seq<real>,
    ipHostTimes: map<(string, string), seq<(real, int)>>,
    threats: map<(string, string), ThreatStats>,
    hosts: map<string, HostStats>,
    hourCounts: map<int, int>,
    hourActors: map<(int, string), HourStats>,
    entriesSeen: int)

  const EMPTY := Aggregate(map[], map[], [], map[], map[], map[], map[], map[], 0)

  // --- Mapping: the effect of one entry ---

  function AddAll(s: set<string>, o: Option<string>): set<string> {
    if o.Some? then s + {o.value} else s
  }

  /** Adds a value only while the evidence set is below its cap. */
  function AddCapped(s: set<string>, o: Option<string>): set<string> {
    if o.Some? && |s| < MAX_EVIDENCE_VALUES then s + {o.value} else s
  }

  function AppendAt<K(==), V>(m: map<K, seq<V>>, k: Option<K>, v: Option<V>): map<K, seq<V>> {
    if k.Some? && v.Some? then m[k.value := Get(m, k.value, []) + [v.value]] else m
  }

  function ByteStep(m: Maths, g: ByteStats, e: LogEntry): ByteStats {
    ByteStats(g.ids + [e.id], g.totalBytes + Sum(OptionSeq(BytesOf(e))), g.logValues + OptionSeq(LogBytes(m, e)))
  }

  function ThreatStep(g: ThreatStats, e: LogEntry): ThreatStats {
    ThreatStats(g.ids + [e.id], AddAll(g.users, UserOf(e)), AddAll(g.actions, ActionOf(e)))
  }

  function HostStep(g: HostStats, e: LogEntry): HostStats {
    HostStats(g.ids + [e.id], AddAll(g.users, UserOf(e)), AddCapped(g.urls, UrlOf(e)))
  }

  function HourStep(g: HourStats, e: LogEntry): HourStats {
    HourStats(g.ids + [e.id], AddCapped(g.hosts, HostOf(e)))
  }

  function WithUpload(m: Maths, groups: map<(string, string), ByteStats>, e: LogEntry): map<(string, string), ByteStats> {
    var k := UploadKey(e);
    if k.Some? then groups[k.value := ByteStep(m, Get(groups, k.value, NO_BYTES), e)] else groups
  }

  function WithThreat(groups: map<(string, string), ThreatStats>, e: LogEntry): map<(string, string), ThreatStats> {
    var k := ThreatKey(e);
    if k.Some? then groups[k.value := ThreatStep(Get(groups, k.value, NO_THREAT), e)] else groups
  }

  function WithHost(groups: map<string, HostStats>, e: LogEntry): map<string, HostStats> {
    var k := HostKey(e);
    if k.Some? then groups[k.value := HostStep(Get(groups, k.value, NO_HOST), e)] else groups
  }

  function WithHourCount(counts: map<int, int>, e: LogEntry): map<int, int> {
    var k := HourKey(e);
    if k.Some? then counts[k.value := Get(counts, k.value, 0) + 1] else counts
  }

  function WithHourActor(groups: map<(int, string), HourStats>, e: LogEntry): map<(int, string), HourStats> {
    var k := HourActorKey(e);
    if k.Some? then groups[k.value := HourStep(Get(groups, k.value, NO_HOUR), e)] else groups
  }

  function Step(m: Maths, p: Aggregate, e: LogEntry): Aggregate {
    Aggregate(
      AppendAt(p.ipMinute, MinuteKey(e), IdOf(e)),
      WithUpload(m, p.userHost, e),
      p.reqByteLogs + (if IsUpload(e) then OptionSeq(LogBytes(m, e)) else []),
      AppendAt(p.ipHostTimes, FlowKey(e), HitOf(e)),
      WithThreat(p.threats, e),
      WithHost(p.hosts, e),
      WithHourCount(p.hourCounts, e),
      WithHourActor(p.hourActors, e),
      p.entriesSeen + 1)
  }

  function MapOf(m: Maths, es: seq<LogEntry>): Aggregate {
    if |es| == 0 then EMPTY else Step(m, MapOf(m, es[..|es| - 1]), es[|es| - 1])
  }

  // --- Merging ---

  /** Which members `set(list(s)[:8])` keeps. Python leaves the order of a set open, so any choice is allowed. */
  type Chooser = set<string> -> set<string>

  ghost predicate ChoosesEight(pick: Chooser) {
    forall s :: pick(s) <= s && |pick(s)| == Min(|s|, MAX_EVIDENCE_VALUES)
  }

  /** One such choice: the first eight in string order. */
  function FirstEight(s: set<string>): set<string> {
    var listed := SortedStrings(s);
    Elems(listed[..Min(|listed|, MAX_EVIDENCE_VALUES)])
  }

  lemma {:induction false} DistinctElems<T>(xs: seq<T>)
    requires NoDup(xs)
    ensures |Elems(xs)| == |xs|
  {
    if |xs| > 0 {
      var front, x := xs[..|xs| - 1], xs[|xs| - 1];
      DistinctElems(front);
      assert Elems(xs) == Elems(front) + {x};
      assert x !in Elems(front);
    }
  }

  lemma FirstEightChooses()
    ensures ChoosesEight(FirstEight)
  {
    forall s: set<string> ensures FirstEight(s) <= s && |FirstEight(s)| == Min(|s|, MAX_EVIDENCE_VALUES) {
      var listed := SortedStrings(s);
      DistinctElems(listed[..Min(|listed|, MAX_EVIDENCE_VALUES)]);
      assert forall x :: x in listed ==> x in s;
    }
  }

  function MergeBytes(x: ByteStats, y: ByteStats): ByteStats {
    ByteStats(x.ids + y.ids, x.totalBytes + y.totalBytes, x.logValues + y.logValues)
  }

  function MergeThreat(x: ThreatStats, y: ThreatStats): ThreatStats {
    ThreatStats(x.ids + y.ids, x.users + y.users, x.actions + y.actions)
  }

  function MergeHost(pick: Chooser, x: HostStats, y: HostStats): HostStats {
    HostStats(x.ids + y.ids, x.users + y.users, x.urls + pick(y.urls))
  }

  function MergeHour(pick: Chooser, x: HourStats, y: HourStats): HourStats {
    HourStats(x.ids + y.ids, x.hosts + pick(y.hosts))
  }

  function HostMerger(pick: Chooser): (HostStats, HostStats) -> HostStats {
    (x, y) => MergeHost(pick, x, y)
  }

  function HourMerger(pick: Chooser): (HourStats, HourStats) -> HourStats {
    (x, y) => MergeHour(pick, x, y)
  }

  function Extend<T>(x: seq<T>, y: seq<T>): seq<T> {
    x + y
  }

  function Plus(x: int, y: int): int {
    x + y
  }

  /** Dictionary `a` after folding in every entry of `b`, group by group. */
  function Join<K(==), V>(a: map<K, V>, b: map<K, V>, absent: V, merge: (V, V) -> V): (c: map<K, V>)
    ensures c.Keys == a.Keys + b.Keys
  {
    map k | k in a.Keys + b.Keys :: if k in b then merge(Get(a, k, absent), b[k]) else a[k]
  }

  /** Joining one more group is an update of that group. */
  lemma JoinOneMore<K, V>(a: map<K, V>, b: map<K, V>, absent: V, merge: (V, V) -> V, todo: set<K>, key: K)
    requires todo <= b.Keys && key in todo
    ensures Join(a, b - (todo - {key}), absent, merge)
         == Join(a, b - todo, absent, merge)[key := merge(Get(Join(a, b - todo, absent, merge), key, absent), b[key])]
  {
    var before, after := Join(a, b - todo, absent, merge), Join(a, b - (todo - {key}), absent, merge);
    assert Get(before, key, absent) == Get(a, key, absent);
    assert after.Keys == before.Keys + {key};
  }

  function Merge(pick: Chooser, a: Aggregate, b: Aggregate): Aggregate {
    Aggregate(
      Join(a.ipMinute, b.ipMinute, [], Extend<int>),
      Join(a.userHost, b.userHost, NO_BYTES, MergeBytes),
      a.reqByteLogs + b.reqByteLogs,
      Join(a.ipHostTimes, b.ipHostTimes, [], Extend<(real, int)>),
      Join(a.threats, b.threats, NO_THREAT, MergeThreat),
      Join(a.hosts, b.hosts, NO_HOST, HostMerger(pick)),
      Join(a.hourCounts, b.hourCounts, 0, Plus),
      Join(a.hourActors, b.hourActors, NO_HOUR, HourMerger(pick)),
      a.entriesSeen + b.entriesSeen)
  }

  /** The result of merging `ps`, first to last, into an empty aggregate. */
  function MergeAllOf(pick: Chooser, ps: seq<Aggregate>): Aggregate {
    if |ps| == 0 then EMPTY else Merge(pick, MergeAllOf(pick, ps[..|ps| - 1]), ps[|ps| - 1])
  }

  // --- Meaning ---

  /** A capped evidence set: drawn from the true values, and all of them unless there are more than eight. */
  ghost predicate CapOf(kept: set<string>, whole: set<string>) {
    && kept <= whole
    && (|whole| <= MAX_EVIDENCE_VALUES ==> kept == whole)
  }

  ghost predicate BytesFit(m: Maths, g: ByteStats, es: seq<LogEntry>, k: (string, string)) {
    && g.ids == Pick(es, UploadKey, k, IdOf)
    && g.totalBytes == Sum(Pick(es, UploadKey, k, BytesOf))
    && g.logValues == Pick(es, UploadKey, k, LogBytesOf(m))
  }

  ghost function BytesFitOf(m: Maths): (ByteStats, seq<LogEntry>, (string, string)) -> bool {
    (g, es, k) => BytesFit(m, g, es, k)
  }

  ghost predicate ThreatFit(g: ThreatStats, es: seq<LogEntry>, k: (string, string)) {
    && g.ids == Pick(es, ThreatKey, k, IdOf)
    && g.users == Elems(Pick(es, ThreatKey, k, UserOf))
    && g.actions == Elems(Pick(es, ThreatKey, k, ActionOf))
  }

  ghost predicate HostFit(g: HostStats, es: seq<LogEntry>, k: string) {
    && g.ids == Pick(es, HostKey, k, IdOf)
    && g.users == Elems(Pick(es, HostKey, k, UserOf))
    && CapOf(g.urls, Elems(Pick(es, HostKey, k, UrlOf)))
  }

  ghost predicate HourFit(g: HourStats, es: seq<LogEntry>, k: (int, string)) {
    && g.ids == Pick(es, HourActorKey, k, IdOf)
    && CapOf(g.hosts, Elems(Pick(es, HourActorKey, k, HostOf)))
  }

  ghost predicate HitsFit(g: seq<(real, int)>, es: seq<LogEntry>, k: (string, string)) {
    g == Pick(es, FlowKey, k, HitOf)
  }

  ghost predicate MinutesFit(g: seq<int>, es: seq<LogEntry>, k: (string, int)) {
    g == Pick(es, MinuteKey, k, IdOf)
  }

  ghost predicate CountFit(n: int, es: seq<LogEntry>, k: int) {
    n == |Pick(es, HourKey, k, IdOf)|
  }

  /** The keys of `m` are exactly the groups some entry belongs to, and each group is as `fit` says. */
  ghost predicate Grouped<K(!new), V>(m: map<K, V>, es: seq<LogEntry>, key: LogEntry -> Option<K>, fit: (V, seq<LogEntry>, K) -> bool) {
    && (forall k :: k in m <==> Pick(es, key, k, IdOf) != [])
    && (forall k :: k in m ==> fit(m[k], es, k))
  }

  /** What an aggregate of `es` is, stated without reference to any order of computation. */
  ghost predicate Describes(m: Maths, p: Aggregate, es: seq<LogEntry>) {
    && Grouped(p.ipMinute, es, MinuteKey, MinutesFit)
    && Grouped(p.userHost, es, UploadKey, BytesFitOf(m))
    && p.reqByteLogs == Pick(es, AnyUpload, (), LogBytesOf(m))
    && Grouped(p.ipHostTimes, es, FlowKey, HitsFit)
    && Grouped(p.threats, es, ThreatKey, ThreatFit)
    && Grouped(p.hosts, es, HostKey, HostFit)
    && Grouped(p.hourCounts, es, HourKey, CountFit)
    && Grouped(p.hourActors, es, HourActorKey, HourFit)
    && p.entriesSeen == |es|
  }
}
