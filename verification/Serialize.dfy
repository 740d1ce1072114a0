/** Partial aggregates on the wire: dictionaries with string keys, sets as sorted lists. The text form of such a
    tree, and reading it back, is JSON's. */
module Serialize {
  import opened Common
  import opened LogEntries
  import opened Aggregates
  import opened Wire
  import opened Describing
  import opened Exactness

  datatype WireThreat = WireThreat(ids: seq<int>, users: seq<string>, actions: seq<string>)
  datatype WireHost = WireHost(ids: seq<int>, users: seq<string>, urls: seq<string>)
  datatype WireHour = WireHour(ids: seq<int>, hosts: seq<string>)

  datatype Tree = Tree(
    ipMinute: map<string, seq<int>>,
    userHost: map<string, ByteStats>,
    reqByteLogs: seq<real>,
    ipHostTimes: map<string, seq<(real, int)>>,
    threats: map<string, WireThreat>,
    hosts: map<string, WireHost>,
    hourCounts: map<string, int>,
    hourActors: map<string, WireHour>,
    entriesSeen: int)

  // --- Values ---

  function Itself<V>(v: V): V {
    v
  }

  function DumpThreat(g: ThreatStats): WireThreat {
    WireThreat(g.ids, SortedStrings(g.users), SortedStrings(g.actions))
  }

  function LoadThreat(g: WireThreat): ThreatStats {
    ThreatStats(g.ids, Elems(g.users), Elems(g.actions))
  }

  function DumpHost(g: HostStats): WireHost {
    WireHost(g.ids, SortedStrings(g.users), SortedStrings(g.urls))
  }

  function LoadHost(g: WireHost): HostStats {
    HostStats(g.ids, Elems(g.users), Elems(g.urls))
  }

  function DumpHour(g: HourStats): WireHour {
    WireHour(g.ids, SortedStrings(g.hosts))
  }

  function LoadHour(g: WireHour): HourStats {
    HourStats(g.ids, Elems(g.hosts))
  }

  lemma SortedElems(s: set<string>)
    ensures Elems(SortedStrings(s)) == s
  {
    var xs := SortedStrings(s);
    forall x ensures x in Elems(xs) <==> x in s {
      assert x in xs <==> x in s;
    }
  }

  lemma ValuesRoundTrip()
    ensures forall g :: LoadThreat(DumpThreat(g)) == g
    ensures forall g :: LoadHost(DumpHost(g)) == g
    ensures forall g :: LoadHour(DumpHour(g)) == g
  {
    forall s: set<string> ensures Elems(SortedStrings(s)) == s {
      SortedElems(s);
    }
  }

  // --- One dictionary ---

  /** `w` holds one entry for each joined key of `d`. Where two keys join to the same string, either entry may have won. */
  ghost predicate IsDump<K(!new), V, W>(d: map<K, V>, name: K -> string, dump: V -> W, w: map<string, W>) {
    && (forall k :: k in d ==> name(k) in w)
    && (forall s :: s in w ==> exists k :: k in d && name(k) == s && w[s] == dump(d[k]))
  }

  /** `r` is what splitting every key of `w` gives: nothing if some key does not split. */
  ghost predicate IsLoad<K(!new), V, W>(w: map<string, W>, parse: string -> Option<K>, load: W -> V, r: Option<map<K, V>>) {
    if r.None? then exists s :: s in w && parse(s).None?
    else
      && (forall s :: s in w ==> parse(s).Some? && parse(s).value in r.value)
      && (forall k :: k in r.value ==> exists s :: s in w && parse(s) == Some(k) && r.value[k] == load(w[s]))
  }

  method DumpMap<K(!new, ==), V, W>(d: map<K, V>, name: K -> string, dump: V -> W) returns (w: map<string, W>)
    ensures IsDump(d, name, dump, w)
  {
    w := map[];
    var todo := d.Keys;
    while todo != {}
      invariant todo <= d.Keys
      invariant forall k :: k in d.Keys - todo ==> name(k) in w
      invariant forall s :: s in w ==> exists k :: k in d && name(k) == s && w[s] == dump(d[k])
      decreases todo
    {
      var k :| k in todo;
      w := w[name(k) := dump(d[k])];
      todo := todo - {k};
    }
  }

  method LoadMap<K(!new, ==), V, W>(w: map<string, W>, parse: string -> Option<K>, load: W -> V) returns (r: Option<map<K, V>>)
    ensures IsLoad(w, parse, load, r)
  {
    var d: map<K, V> := map[];
    var todo := w.Keys;
    while todo != {}
      invariant todo <= w.Keys
      invariant forall s :: s in w.Keys - todo ==> parse(s).Some? && parse(s).value in d
      invariant forall k :: k in d ==> exists s :: s in w && parse(s) == Some(k) && d[k] == load(w[s])
      decreases todo
    {
      var s :| s in todo;
      var k := parse(s);
      if k.None? {
        return None;
      }
      d := d[k.value := load(w[s])];
      todo := todo - {s};
    }
    r := Some(d);
  }

  ghost predicate Parses<K(!new)>(name: K -> string, parse: string -> Option<K>, k: K) {
    parse(name(k)) == Some(k)
  }

  /** In a dump whose keys all parse back, every entry is the dump of the entry its key names. */
  lemma EntriesParse<K(!new), V(!new), W>(
      d: map<K, V>, name: K -> string, parse: string -> Option<K>, dump: V -> W, w: map<string, W>, s: string)
    requires IsDump(d, name, dump, w) && s in w && forall k :: k in d ==> Parses(name, parse, k)
    ensures parse(s).Some? && parse(s).value in d && w[s] == dump(d[parse(s).value])
  {
    var k :| k in d && name(k) == s && w[s] == dump(d[k]);
    assert Parses(name, parse, k);
  }

  lemma KeyParses<K(!new), V, W>(
      d: map<K, V>, name: K -> string, parse: string -> Option<K>, dump: V -> W, w: map<string, W>, k: K)
    requires IsDump(d, name, dump, w) && k in d && Parses(name, parse, k)
    ensures name(k) in w && parse(name(k)) == Some(k)
  {}

  /** Loading a dump whose keys all parse back succeeds, with the same keys. */
  lemma LoadedKeys<K(!new), V(!new), W>(
      d: map<K, V>, name: K -> string, parse: string -> Option<K>, dump: V -> W, load: W -> V,
      w: map<string, W>, r: Option<map<K, V>>)
    requires IsDump(d, name, dump, w) && IsLoad(w, parse, load, r)
    requires forall k :: k in d ==> Parses(name, parse, k)
    ensures r.Some? && r.value.Keys == d.Keys
  {
    hide IsDump, Parses;
    forall s | s in w ensures parse(s).Some? && parse(s).value in d {
      EntriesParse(d, name, parse, dump, w, s);
    }
    assert r.Some?;
    forall k | k in d ensures k in r.value {
      KeyParses(d, name, parse, dump, w, k);
    }
    forall k | k in r.value ensures k in d {
      var s :| s in w && parse(s) == Some(k) && r.value[k] == load(w[s]);
    }
  }

  lemma LoadedEntry<K(!new), V(!new), W>(
      d: map<K, V>, name: K -> string, parse: string -> Option<K>, dump: V -> W, load: W -> V,
      w: map<string, W>, r: Option<map<K, V>>, k: K)
    requires IsDump(d, name, dump, w) && IsLoad(w, parse, load, r)
    requires forall k :: k in d ==> Parses(name, parse, k)
    requires r.Some? && k in r.value && forall v :: load(dump(v)) == v
    ensures k in d && r.value[k] == d[k]
  {
    var s :| s in w && parse(s) == Some(k) && r.value[k] == load(w[s]);
    EntriesParse(d, name, parse, dump, w, s);
  }

  /** Loading a dump gives the dictionary back when every key parses back. */
  lemma DictionaryBack<K(!new), V(!new), W>(
      d: map<K, V>, name: K -> string, parse: string -> Option<K>, dump: V -> W, load: W -> V,
      w: map<string, W>, r: Option<map<K, V>>)
    requires IsDump(d, name, dump, w) && IsLoad(w, parse, load, r)
    requires forall k :: k in d ==> Parses(name, parse, k)
    requires forall v :: load(dump(v)) == v
    ensures r == Some(d)
  {
    LoadedKeys(d, name, parse, dump, load, w, r);
    hide IsDump, IsLoad, Parses;
    forall k | k in d ensures r.value[k] == d[k] {
      LoadedEntry(d, name, parse, dump, load, w, r, k);
    }
    assert r.value == d;
  }

  /** Loading fails when some key does not parse. */
  lemma DictionaryFails<K(!new), V, W>(
      d: map<K, V>, name: K -> string, parse: string -> Option<K>, dump: V -> W, load: W -> V,
      w: map<string, W>, r: Option<map<K, V>>, k: K)
    requires IsDump(d, name, dump, w) && IsLoad(w, parse, load, r)
    requires k in d && parse(name(k)).None?
    ensures r == None
  {
    assert name(k) in w;
  }

  // --- Whole partials ---

  ghost predicate IsTree(p: Aggregate, t: Tree) {
    && IsDump(p.ipMinute, MinuteName, Itself<seq<int>>, t.ipMinute)
    && IsDump(p.userHost, PairKey, Itself<ByteStats>, t.userHost)
    && t.reqByteLogs == p.reqByteLogs
    && IsDump(p.ipHostTimes, PairKey, Itself<seq<(real, int)>>, t.ipHostTimes)
    && IsDump(p.threats, PairKey, DumpThreat, t.threats)
    && IsDump(p.hosts, HostName, DumpHost, t.hosts)
    && IsDump(p.hourCounts, Numeral, Itself<int>, t.hourCounts)
    && IsDump(p.hourActors, SlotName, DumpHour, t.hourActors)
    && t.entriesSeen == p.entriesSeen
  }

  method Dumps(p: Aggregate) returns (t: Tree)
    ensures IsTree(p, t)
  {
    var ipMinute := DumpMap(p.ipMinute, MinuteName, Itself<seq<int>>);
    var userHost := DumpMap(p.userHost, PairKey, Itself<ByteStats>);
    var ipHostTimes := DumpMap(p.ipHostTimes, PairKey, Itself<seq<(real, int)>>);
    var threats := DumpMap(p.threats, PairKey, DumpThreat);
    var hosts := DumpMap(p.hosts, HostName, DumpHost);
    var hourCounts := DumpMap(p.hourCounts, Numeral, Itself<int>);
    var hourActors := DumpMap(p.hourActors, SlotName, DumpHour);
    t := Tree(ipMinute, userHost, p.reqByteLogs, ipHostTimes, threats, hosts, hourCounts, hourActors, p.entriesSeen);
  }

  /** What loading each part of `t` gives. */
  datatype Parts = Parts(
    ipMinute: Option<map<(string, int), seq<int>>>,
    userHost: Option<map<(string, string), ByteStats>>,
    ipHostTimes: Option<map<(string, string), seq<(real, int)>>>,
    threats: Option<map<(string, string), ThreatStats>>,
    hosts: Option<map<string, HostStats>>,
    hourCounts: Option<map<int, int>>,
    hourActors: Option<map<(int, string), HourStats>>)

  ghost predicate IsParts(t: Tree, parts: Parts) {
    && IsLoad(t.ipMinute, ParseMinute, Itself<seq<int>>, parts.ipMinute)
    && IsLoad(t.userHost, ParsePair, Itself<ByteStats>, parts.userHost)
    && IsLoad(t.ipHostTimes, ParsePair, Itself<seq<(real, int)>>, parts.ipHostTimes)
    && IsLoad(t.threats, ParsePair, LoadThreat, parts.threats)
    && IsLoad(t.hosts, ParseHost, LoadHost, parts.hosts)
    && IsLoad(t.hourCounts, ParseInt, Itself<int>, parts.hourCounts)
    && IsLoad(t.hourActors, ParseSlot, LoadHour, parts.hourActors)
  }

  function Assemble(t: Tree, parts: Parts): Option<Aggregate> {
    if parts.ipMinute.None? || parts.userHost.None? || parts.ipHostTimes.None? || parts.threats.None? || parts.hosts.None?
      || parts.hourCounts.None? || parts.hourActors.None? then None
    else Some(Aggregate(
      parts.ipMinute.value, parts.userHost.value, t.reqByteLogs, parts.ipHostTimes.value, parts.threats.value,
      parts.hosts.value, parts.hourCounts.value, parts.hourActors.value, t.entriesSeen))
  }

  /** `r` is the result of loading `t`: `None` when some key raises. */
  ghost predicate IsLoaded(t: Tree, r: Option<Aggregate>) {
    exists parts :: IsParts(t, parts) && r == Assemble(t, parts)
  }

  method Loads(t: Tree) returns (r: Option<Aggregate>)
    ensures IsLoaded(t, r)
  {
    var ipMinute := LoadMap(t.ipMinute, ParseMinute, Itself<seq<int>>);
    var userHost := LoadMap(t.userHost, ParsePair, Itself<ByteStats>);
    var ipHostTimes := LoadMap(t.ipHostTimes, ParsePair, Itself<seq<(real, int)>>);
    var threats := LoadMap(t.threats, ParsePair, LoadThreat);
    var hosts := LoadMap(t.hosts, ParseHost, LoadHost);
    var hourCounts := LoadMap(t.hourCounts, ParseInt, Itself<int>);
    var hourActors := LoadMap(t.hourActors, ParseSlot, LoadHour);
    var parts := Parts(ipMinute, userHost, ipHostTimes, threats, hosts, hourCounts, hourActors);
    assert IsParts(t, parts);
    r := Assemble(t, parts);
  }

  ghost predicate PlainPairs<V>(d: map<(string, string), V>) {
    forall k :: k in d ==> SEP !in k.0 && SEP !in k.1
  }

  /** No address, user, host of a pair, threat or actor holds the separator. Host and hour keys are never split. */
  ghost predicate NoSeparator(p: Aggregate) {
    && (forall k :: k in p.ipMinute ==> SEP !in k.0)
    && PlainPairs(p.userHost) && PlainPairs(p.ipHostTimes) && PlainPairs(p.threats)
    && (forall k :: k in p.hourActors ==> SEP !in k.1)
  }

  lemma PairsBack<V(!new), W>(d: map<(string, string), V>, dump: V -> W, load: W -> V, w: map<string, W>, r: Option<map<(string, string), V>>)
    requires IsDump(d, PairKey, dump, w) && IsLoad(w, ParsePair, load, r) && forall v :: load(dump(v)) == v
    ensures if PlainPairs(d) then r == Some(d) else r == None
  {
    if PlainPairs(d) {
      forall k | k in d ensures Parses(PairKey, ParsePair, k) { PairParses(k); }
      DictionaryBack(d, PairKey, ParsePair, dump, load, w, r);
    } else {
      var k :| k in d && (SEP in k.0 || SEP in k.1);
      PairParses(k);
      DictionaryFails(d, PairKey, ParsePair, dump, load, w, r, k);
    }
  }

  lemma MinutesBack(d: map<(string, int), seq<int>>, w: map<string, seq<int>>, r: Option<map<(string, int), seq<int>>>)
    requires IsDump(d, MinuteName, Itself<seq<int>>, w) && IsLoad(w, ParseMinute, Itself<seq<int>>, r)
    ensures if forall k :: k in d ==> SEP !in k.0 then r == Some(d) else r == None
  {
    if forall k :: k in d ==> SEP !in k.0 {
      forall k | k in d ensures Parses(MinuteName, ParseMinute, k) { MinuteParses(k); }
      DictionaryBack(d, MinuteName, ParseMinute, Itself<seq<int>>, Itself<seq<int>>, w, r);
    } else {
      var k :| k in d && SEP in k.0;
      MinuteParses(k);
      DictionaryFails(d, MinuteName, ParseMinute, Itself<seq<int>>, Itself<seq<int>>, w, r, k);
    }
  }

  lemma SlotsBack(d: map<(int, string), HourStats>, w: map<string, WireHour>, r: Option<map<(int, string), HourStats>>)
    requires IsDump(d, SlotName, DumpHour, w) && IsLoad(w, ParseSlot, LoadHour, r)
    ensures if forall k :: k in d ==> SEP !in k.1 then r == Some(d) else r == None
  {
    ValuesRoundTrip();
    if forall k :: k in d ==> SEP !in k.1 {
      forall k | k in d ensures Parses(SlotName, ParseSlot, k) { SlotParses(k); }
      DictionaryBack(d, SlotName, ParseSlot, DumpHour, LoadHour, w, r);
    } else {
      var k :| k in d && SEP in k.1;
      SlotParses(k);
      DictionaryFails(d, SlotName, ParseSlot, DumpHour, LoadHour, w, r, k);
    }
  }

  lemma HostsBack(d: map<string, HostStats>, w: map<string, WireHost>, r: Option<map<string, HostStats>>)
    requires IsDump(d, HostName, DumpHost, w) && IsLoad(w, ParseHost, LoadHost, r)
    ensures r == Some(d)
  {
    ValuesRoundTrip();
    forall k ensures Parses(HostName, ParseHost, k) {}
    DictionaryBack(d, HostName, ParseHost, DumpHost, LoadHost, w, r);
  }

  lemma HoursBack(d: map<int, int>, w: map<string, int>, r: Option<map<int, int>>)
    requires IsDump(d, Numeral, Itself<int>, w) && IsLoad(w, ParseInt, Itself<int>, r)
    ensures r == Some(d)
  {
    forall k ensures Parses(Numeral, ParseInt, k) {
      NumeralParses(k);
    }
    DictionaryBack(d, Numeral, ParseInt, Itself<int>, Itself<int>, w, r);
  }

  ghost predicate Back<V(!new)>(ok: bool, r: Option<V>, v: V) {
    r == if ok then Some(v) else None
  }

  lemma PairPartsBack(p: Aggregate, t: Tree, parts: Parts)
    requires IsTree(p, t) && IsParts(t, parts)
    ensures Back(PlainPairs(p.userHost), parts.userHost, p.userHost)
    ensures Back(PlainPairs(p.ipHostTimes), parts.ipHostTimes, p.ipHostTimes)
    ensures Back(PlainPairs(p.threats), parts.threats, p.threats)
  {
    PairsBack(p.userHost, Itself<ByteStats>, Itself<ByteStats>, t.userHost, parts.userHost);
    PairsBack(p.ipHostTimes, Itself<seq<(real, int)>>, Itself<seq<(real, int)>>, t.ipHostTimes, parts.ipHostTimes);
    ValuesRoundTrip();
    PairsBack(p.threats, DumpThreat, LoadThreat, t.threats, parts.threats);
  }

  lemma OtherPartsBack(p: Aggregate, t: Tree, parts: Parts)
    requires IsTree(p, t) && IsParts(t, parts)
    ensures Back(forall k :: k in p.ipMinute ==> SEP !in k.0, parts.ipMinute, p.ipMinute)
    ensures Back(true, parts.hosts, p.hosts)
    ensures Back(true, parts.hourCounts, p.hourCounts)
    ensures Back(forall k :: k in p.hourActors ==> SEP !in k.1, parts.hourActors, p.hourActors)
  {
    MinutesBack(p.ipMinute, t.ipMinute, parts.ipMinute);
    HostsBack(p.hosts, t.hosts, parts.hosts);
    HoursBack(p.hourCounts, t.hourCounts, parts.hourCounts);
    SlotsBack(p.hourActors, t.hourActors, parts.hourActors);
  }

  lemma AssembleBack(p: Aggregate, t: Tree, parts: Parts)
    requires Back(forall k :: k in p.ipMinute ==> SEP !in k.0, parts.ipMinute, p.ipMinute)
    requires Back(PlainPairs(p.userHost), parts.userHost, p.userHost)
    requires Back(PlainPairs(p.ipHostTimes), parts.ipHostTimes, p.ipHostTimes)
    requires Back(PlainPairs(p.threats), parts.threats, p.threats)
    requires Back(true, parts.hosts, p.hosts) && Back(true, parts.hourCounts, p.hourCounts)
    requires Back(forall k :: k in p.hourActors ==> SEP !in k.1, parts.hourActors, p.hourActors)
    requires t.reqByteLogs == p.reqByteLogs && t.entriesSeen == p.entriesSeen
    ensures Assemble(t, parts) == if NoSeparator(p) then Some(p) else None
  {}

  lemma PartsBack(p: Aggregate, t: Tree, parts: Parts)
    requires IsTree(p, t) && IsParts(t, parts)
    ensures Assemble(t, parts) == if NoSeparator(p) then Some(p) else None
  {
    PairPartsBack(p, t, parts);
    OtherPartsBack(p, t, parts);
    AssembleBack(p, t, parts);
  }

  /** A partial comes back from the wire unchanged exactly when no part of a joined key holds the separator; otherwise
      loading raises. It never comes back altered. */
  lemma WireRoundTrip(p: Aggregate, t: Tree, r: Option<Aggregate>)
    requires IsTree(p, t) && IsLoaded(t, r)
    ensures r == if NoSeparator(p) then Some(p) else None
  {
    var parts :| IsParts(t, parts) && r == Assemble(t, parts);
    PartsBack(p, t, parts);
  }

  // --- Dumping is stable ---

  lemma DumpUnique<K(!new), V(!new), W>(d: map<K, V>, name: K -> string, parse: string -> Option<K>, dump: V -> W, w1: map<string, W>, w2: map<string, W>)
    requires IsDump(d, name, dump, w1) && IsDump(d, name, dump, w2) && forall k :: k in d ==> Parses(name, parse, k)
    ensures w1 == w2
  {
    forall s | s in w1 ensures s in w2 && w1[s] == w2[s] {
      EntriesParse(d, name, parse, dump, w1, s);
      var k :| k in d && name(k) == s && w1[s] == dump(d[k]);
      EntriesParse(d, name, parse, dump, w2, s);
    }
    forall s | s in w2 ensures s in w1 {
      var k :| k in d && name(k) == s && w2[s] == dump(d[k]);
    }
  }

  /** Dumping what was loaded gives the same tree as dumping the original. */
  lemma DumpsStable(p: Aggregate, t1: Tree, t2: Tree)
    requires IsTree(p, t1) && IsTree(p, t2) && NoSeparator(p)
    ensures t1 == t2
  {
    hide IsDump;
    forall k | k in p.ipMinute ensures Parses(MinuteName, ParseMinute, k) { MinuteParses(k); }
    DumpUnique(p.ipMinute, MinuteName, ParseMinute, Itself<seq<int>>, t1.ipMinute, t2.ipMinute);
    forall k: (string, string) | SEP !in k.0 && SEP !in k.1 ensures Parses(PairKey, ParsePair, k) { PairParses(k); }
    DumpUnique(p.userHost, PairKey, ParsePair, Itself<ByteStats>, t1.userHost, t2.userHost);
    DumpUnique(p.ipHostTimes, PairKey, ParsePair, Itself<seq<(real, int)>>, t1.ipHostTimes, t2.ipHostTimes);
    DumpUnique(p.threats, PairKey, ParsePair, DumpThreat, t1.threats, t2.threats);
    forall k ensures Parses(HostName, ParseHost, k) {}
    DumpUnique(p.hosts, HostName, ParseHost, DumpHost, t1.hosts, t2.hosts);
    forall k ensures Parses(Numeral, ParseInt, k) { NumeralParses(k); }
    DumpUnique(p.hourCounts, Numeral, ParseInt, Itself<int>, t1.hourCounts, t2.hourCounts);
    forall k | k in p.hourActors ensures Parses(SlotName, ParseSlot, k) { SlotParses(k); }
    DumpUnique(p.hourActors, SlotName, ParseSlot, DumpHour, t1.hourActors, t2.hourActors);
  }

  // --- Rows without the separator ---

  predicate Plain(s: Option<string>) {
    s.Some? ==> SEP !in s.value
  }

  ghost predicate PlainRows(es: seq<LogEntry>) {
    forall i :: 0 <= i < |es| ==>
      Plain(es[i].clientIp) && Plain(es[i].username) && Plain(es[i].host) && Plain(es[i].threatName)
  }

  predicate PlainPair(k: Option<(string, string)>) {
    k.Some? ==> SEP !in k.value.0 && SEP !in k.value.1
  }

  /** No name that a row puts into a joined key holds the separator. */
  predicate PlainKeys(e: LogEntry) {
    && (MinuteKey(e).Some? ==> SEP !in MinuteKey(e).value.0)
    && PlainPair(UploadKey(e)) && PlainPair(FlowKey(e)) && PlainPair(ThreatKey(e))
    && (HourActorKey(e).Some? ==> SEP !in HourActorKey(e).value.1)
  }

  ghost predicate AllPlainKeys(es: seq<LogEntry>) {
    forall i :: 0 <= i < |es| ==> PlainKeys(es[i])
  }

  /** A row's key is a group of the aggregate. */
  lemma KeyIsGroup<K(!new), V>(groups: map<K, V>, es: seq<LogEntry>, key: LogEntry -> Option<K>, fit: (V, seq<LogEntry>, K) -> bool, i: nat)
    requires Grouped(groups, es, key, fit) && i < |es| && key(es[i]).Some?
    ensures key(es[i]).value in groups
  {
    var k := key(es[i]).value;
    assert At(key, k, IdOf)(es[i]) == Some(es[i].id);
    CollectMember(es, At(key, k, IdOf), es[i].id);
  }

  /** Rows with plain keys map to partials that survive the wire. */
  lemma PlainKeysSurvive(m: Maths, p: Aggregate, es: seq<LogEntry>)
    requires Describes(m, p, es) && AllPlainKeys(es)
    ensures NoSeparator(p)
  {
    forall k | k in p.ipMinute ensures SEP !in k.0 {
      var i := PickWitness(es, MinuteKey, k);
      assert PlainKeys(es[i]);
    }
    forall k | k in p.userHost ensures SEP !in k.0 && SEP !in k.1 {
      var i := PickWitness(es, UploadKey, k);
      assert PlainKeys(es[i]);
    }
    forall k | k in p.ipHostTimes ensures SEP !in k.0 && SEP !in k.1 {
      var i := PickWitness(es, FlowKey, k);
      assert PlainKeys(es[i]);
    }
    forall k | k in p.threats ensures SEP !in k.0 && SEP !in k.1 {
      var i := PickWitness(es, ThreatKey, k);
      assert PlainKeys(es[i]);
    }
    forall k | k in p.hourActors ensures SEP !in k.1 {
      var i := PickWitness(es, HourActorKey, k);
      assert PlainKeys(es[i]);
    }
  }

  lemma SurvivingKeys(m: Maths, p: Aggregate, es: seq<LogEntry>, i: nat)
    requires Describes(m, p, es) && NoSeparator(p) && i < |es|
    ensures PlainKeys(es[i])
  {
    if MinuteKey(es[i]).Some? {
      KeyIsGroup(p.ipMinute, es, MinuteKey, MinutesFit, i);
    }
    if UploadKey(es[i]).Some? {
      KeyIsGroup(p.userHost, es, UploadKey, BytesFitOf(m), i);
    }
    if FlowKey(es[i]).Some? {
      KeyIsGroup(p.ipHostTimes, es, FlowKey, HitsFit, i);
    }
    if ThreatKey(es[i]).Some? {
      KeyIsGroup(p.threats, es, ThreatKey, ThreatFit, i);
    }
    if HourActorKey(es[i]).Some? {
      KeyIsGroup(p.hourActors, es, HourActorKey, HourFit, i);
    }
  }

  /** What a caller can check on the rows: their partial survives the wire if and only if no name that enters a joined key
      holds the separator. */
  lemma RowsSurviveIff(m: Maths, p: Aggregate, es: seq<LogEntry>)
    requires Describes(m, p, es)
    ensures NoSeparator(p) <==> AllPlainKeys(es)
  {
    if AllPlainKeys(es) {
      PlainKeysSurvive(m, p, es);
    }
    if NoSeparator(p) {
      forall i | 0 <= i < |es| ensures PlainKeys(es[i]) {
        SurvivingKeys(m, p, es, i);
      }
    }
  }

  lemma PlainRowKeys(e: LogEntry)
    requires Plain(e.clientIp) && Plain(e.username) && Plain(e.host) && Plain(e.threatName)
    ensures PlainKeys(e)
  {
    assert SEP !in "unknown";
  }

  /** Rows whose names hold no separator at all are such rows. */
  lemma PlainRowsSurvive(m: Maths, p: Aggregate, es: seq<LogEntry>)
    requires Describes(m, p, es) && PlainRows(es)
    ensures NoSeparator(p)
  {
    forall i | 0 <= i < |es| ensures PlainKeys(es[i]) {
      PlainRowKeys(es[i]);
    }
    RowsSurviveIff(m, p, es);
  }

  /** A row whose user name holds the separator. */
  const ODD_NAME := LogEntry(1, 2, Some(0), None, Some("a" + [SEP] + "b"), None, None, None, None, None)

  lemma OddKeys()
    ensures !PlainKeys(ODD_NAME)
  {
    var name := ODD_NAME.username.value;
    assert name[1] == SEP;
    assert HourActorKey(ODD_NAME) == Some((0, name));
  }

  /** Its partial is dumped like any other and does not load. */
  lemma OddNameRaises(m: Maths, t: Tree, r: Option<Aggregate>)
    requires IsTree(MapOf(m, [ODD_NAME]), t) && IsLoaded(t, r)
    ensures r == None
  {
    var rows, p := [ODD_NAME], MapOf(m, [ODD_NAME]);
    MapDescribes(m, rows);
    OddKeys();
    assert !PlainKeys(rows[0]);
    RowsSurviveIff(m, p, rows);
    WireRoundTrip(p, t, r);
  }
}
