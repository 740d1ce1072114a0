/** Which evidence values survive the cap of eight. A shard keeps the first eight it sees; merging shards keeps the union,
    in whatever order they are merged; and the union is what one process would have kept exactly while it has no more
    than eight members. */
module KeptEvidence {
  import opened Common
  import opened Dictionaries
  import opened LogEntries
  import opened Aggregates
  import opened OffHours
  import opened Sharding
  import opened Exactness
  import opened Candidates
  import opened Detection
  import Readings
  import GroupFindings

  // --- One set, filled from a sequence ---

  /** `s` after the values of `xs` were offered to it one by one. */
  function Fill(s: set<string>, xs: seq<string>): set<string> {
    if |xs| == 0 then s else AddCapped(Fill(s, xs[..|xs| - 1]), Some(xs[|xs| - 1]))
  }

  function FirstKept(xs: seq<string>): set<string> {
    Fill({}, xs)
  }

  lemma {:induction false} FillBounds(s: set<string>, xs: seq<string>)
    requires |s| <= MAX_EVIDENCE_VALUES
    ensures s <= Fill(s, xs) <= s + Elems(xs) && |Fill(s, xs)| <= MAX_EVIDENCE_VALUES
    ensures |Fill(s, xs)| < MAX_EVIDENCE_VALUES ==> Fill(s, xs) == s + Elems(xs)
  {
    if |xs| > 0 {
      var front, x := xs[..|xs| - 1], xs[|xs| - 1];
      FillBounds(s, front);
      assert xs == front + [x];
      ElemsAppend(front, [x]);
      assert Elems([x]) == {x} by {
        assert [x][0] == x;
      }
      SubsetSize(Fill(s, front), Fill(s, xs));
    }
  }

  /** Something new, met while fewer than eight different values were. */
  ghost predicate AmongFirst(xs: seq<string>, x: string) {
    exists i :: 0 <= i < |xs| && xs[i] == x && |Elems(xs[..i])| < 8
  }

  lemma AmongFirstSnoc(xs: seq<string>, last: string, x: string)
    ensures AmongFirst(xs + [last], x) <==> AmongFirst(xs, x) || (x == last && |Elems(xs)| < 8)
  {
    var longer := xs + [last];
    if i :| 0 <= i < |longer| && longer[i] == x && |Elems(longer[..i])| < 8 {
      assert longer[..i] == if i < |xs| then xs[..i] else xs;
    }
    if i :| 0 <= i < |xs| && xs[i] == x && |Elems(xs[..i])| < 8 {
      assert longer[i] == x && longer[..i] == xs[..i];
    }
    if x == last && |Elems(xs)| < 8 {
      assert longer[|xs|] == x && longer[..|xs|] == xs;
    }
  }

  /** The first eight different values are kept, and no other. */
  lemma {:induction false} KeepsFirst(xs: seq<string>, x: string)
    ensures x in FirstKept(xs) <==> AmongFirst(xs, x)
    ensures |FirstKept(xs)| <= 8 && (|Elems(xs)| < 8 <==> |FirstKept(xs)| < 8)
  {
    FillBounds({}, xs);
    SubsetSize(FirstKept(xs), Elems(xs));
    if |xs| > 0 {
      hide AmongFirst;
      var front, last := xs[..|xs| - 1], xs[|xs| - 1];
      KeepsFirst(front, x);
      FillBounds({}, front);
      assert xs == front + [last];
      AmongFirstSnoc(front, last, x);
    }
  }

  lemma {:induction false} FillAppend(s: set<string>, xs: seq<string>, ys: seq<string>)
    ensures Fill(s, xs + ys) == Fill(Fill(s, xs), ys)
  {
    if |ys| == 0 {
      assert xs + ys == xs;
    } else {
      var n := |ys| - 1;
      FillAppend(s, xs, ys[..n]);
      assert (xs + ys)[..|xs| + n] == xs + ys[..n];
    }
  }

  /** Filling on from `s` keeps nothing that filling afresh would not have kept. */
  lemma {:induction false} FillFresh(s: set<string>, xs: seq<string>)
    requires |s| <= MAX_EVIDENCE_VALUES
    ensures Fill(s, xs) <= s + FirstKept(xs)
  {
    if |xs| > 0 {
      var front := xs[..|xs| - 1];
      FillFresh(s, front);
      FillBounds(s, front);
      FillBounds({}, front);
      if |Fill(s, front)| < MAX_EVIDENCE_VALUES {
        SubsetSize(FirstKept(front), Fill(s, front));
      }
    }
  }

  /** Filling on and joining agree exactly while the join has no more than eight members. */
  lemma FillIsJoin(s: set<string>, xs: seq<string>)
    requires |s| <= MAX_EVIDENCE_VALUES
    ensures Fill(s, xs) == s + FirstKept(xs) <==> |s + FirstKept(xs)| <= MAX_EVIDENCE_VALUES
  {
    FillBounds(s, xs);
    FillBounds({}, xs);
    FillFresh(s, xs);
    if |s + FirstKept(xs)| <= MAX_EVIDENCE_VALUES && |Fill(s, xs)| == MAX_EVIDENCE_VALUES {
      SubsetSize(Fill(s, xs), s + FirstKept(xs));
      SubsetFull(Fill(s, xs), s + FirstKept(xs));
    }
  }

  // --- What mapping keeps ---

  /** The evidence one process keeps for group `k`. */
  function Kept<K(==)>(es: seq<LogEntry>, key: LogEntry -> Option<K>, k: K, val: LogEntry -> Option<string>): set<string> {
    FirstKept(Pick(es, key, k, val))
  }

  lemma KeptSnoc<K(!new)>(es: seq<LogEntry>, e: LogEntry, key: LogEntry -> Option<K>, k: K, val: LogEntry -> Option<string>)
    ensures Kept(es + [e], key, k, val) == if key(e) == Some(k) then AddCapped(Kept(es, key, k, val), val(e)) else Kept(es, key, k, val)
  {
    PickSnoc(es, e, key, k, val);
    if key(e) == Some(k) && val(e).Some? {
      var xs := Pick(es, key, k, val);
      assert (xs + [val(e).value])[..|xs|] == xs;
    } else {
      assert Pick(es, key, k, val) + [] == Pick(es, key, k, val);
    }
  }

  function HostsOf(p: Aggregate, k: Slot): set<string> {
    Get(p.hourActors, k, NO_HOUR).hosts
  }

  function UrlsOf(p: Aggregate, host: string): set<string> {
    Get(p.hosts, host, NO_HOST).urls
  }

  lemma StepHosts(m: Maths, a: Aggregate, e: LogEntry, k: Slot)
    ensures HostsOf(Step(m, a, e), k)
         == if HourActorKey(e) == Some(k) then AddCapped(HostsOf(a, k), HostOf(e)) else HostsOf(a, k)
  {}

  lemma StepUrls(m: Maths, a: Aggregate, e: LogEntry, host: string)
    ensures UrlsOf(Step(m, a, e), host)
         == if HostKey(e) == Some(host) then AddCapped(UrlsOf(a, host), UrlOf(e)) else UrlsOf(a, host)
  {}

  lemma NothingKept(k: Slot, host: string)
    ensures HostsOf(EMPTY, k) == Kept([], HourActorKey, k, HostOf) == {} && UrlsOf(EMPTY, host) == Kept([], HostKey, host, UrlOf)
  {}

  lemma {:induction false} MapKeeps(m: Maths, es: seq<LogEntry>, k: Slot, host: string)
    ensures HostsOf(MapOf(m, es), k) == Kept(es, HourActorKey, k, HostOf)
    ensures UrlsOf(MapOf(m, es), host) == Kept(es, HostKey, host, UrlOf)
  {
    hide Step, HostsOf, UrlsOf, Kept, AddCapped;
    if |es| == 0 {
      NothingKept(k, host);
    } else {
      var front, e := es[..|es| - 1], es[|es| - 1];
      MapKeeps(m, front, k, host);
      assert es == front + [e];
      KeptSnoc(front, e, HourActorKey, k, HostOf);
      KeptSnoc(front, e, HostKey, host, UrlOf);
      StepHosts(m, MapOf(m, front), e, k);
      StepUrls(m, MapOf(m, front), e, host);
    }
  }

  /** The name is in a row that belongs, before which fewer than eight different names were. */
  ghost predicate NamedEarly(es: seq<LogEntry>, belongs: LogEntry -> bool, field: LogEntry -> Option<string>, name: string) {
    exists i, before :: 0 <= i < |es| && belongs(es[i]) && Readings.Names(field(es[i]), name)
                        && Readings.NamesIn(before, es[..i], belongs, field) && |before| < 8
  }

  lemma NamedEarlySnoc(es: seq<LogEntry>, e: LogEntry, belongs: LogEntry -> bool, field: LogEntry -> Option<string>, all: set<string>, name: string)
    requires Readings.NamesIn(all, es, belongs, field)
    ensures NamedEarly(es + [e], belongs, field, name)
       <==> NamedEarly(es, belongs, field, name) || (belongs(e) && Readings.Names(field(e), name) && |all| < 8)
  {
    var longer := es + [e];
    if i, before :| 0 <= i < |longer| && belongs(longer[i]) && Readings.Names(field(longer[i]), name)
                    && Readings.NamesIn(before, longer[..i], belongs, field) && |before| < 8 {
      assert longer[..i] == if i < |es| then es[..i] else es;
      if i == |es| {
        GroupFindings.SameNames(before, all, es, belongs, field);
      }
    }
    if i, before :| 0 <= i < |es| && belongs(es[i]) && Readings.Names(field(es[i]), name)
                    && Readings.NamesIn(before, es[..i], belongs, field) && |before| < 8 {
      assert longer[i] == es[i] && longer[..i] == es[..i];
    }
    if belongs(e) && Readings.Names(field(e), name) && |all| < 8 {
      assert longer[|es|] == e && longer[..|es|] == es;
    }
  }

  lemma {:induction false} KeptEarly<K(!new)>(
      es: seq<LogEntry>, key: LogEntry -> Option<K>, k: K, val: LogEntry -> Option<string>,
      belongs: LogEntry -> bool, field: LogEntry -> Option<string>, name: string)
    requires forall e :: key(e) == Some(k) <==> belongs(e)
    requires forall e, n :: val(e) == Some(n) <==> Readings.Names(field(e), n)
    ensures name in Kept(es, key, k, val) <==> NamedEarly(es, belongs, field, name)
  {
    if |es| > 0 {
      hide NamedEarly, Readings.Names, Readings.NamesIn, FirstKept;
      var front, e := es[..|es| - 1], es[|es| - 1];
      KeptEarly(front, key, k, val, belongs, field, name);
      assert es == front + [e];
      KeptSnoc(front, e, key, k, val);
      KeepsFirst(Pick(front, key, k, val), name);
      Readings.PickNames(front, key, k, val, belongs, field);
      NamedEarlySnoc(front, e, belongs, field, Elems(Pick(front, key, k, val)), name);
    }
  }

  /** A map keeps of each actor's hosts in an hour of day, and of each host's urls, the first eight different ones. */
  lemma MapKeepsFirst(m: Maths, es: seq<LogEntry>, hour: int, actor: string, host: string, name: string)
    ensures name in HostsOf(MapOf(m, es), (hour, actor)) <==> NamedEarly(es, Readings.ActorRows(hour, actor), Readings.TheHost, name)
    ensures name in UrlsOf(MapOf(m, es), host) <==> NamedEarly(es, Readings.HostRows(host), Readings.TheUrl, name)
  {
    hide NamedEarly, Kept;
    MapKeeps(m, es, (hour, actor), host);
    forall e ensures HourActorKey(e) == Some((hour, actor)) <==> Readings.ActorRows(hour, actor)(e) {
      Readings.HourActorKeyIff(e, hour, actor);
    }
    KeptEarly(es, HourActorKey, (hour, actor), HostOf, Readings.ActorRows(hour, actor), Readings.TheHost, name);
    KeptEarly(es, HostKey, host, UrlOf, Readings.HostRows(host), Readings.TheUrl, name);
  }

  // --- What merging keeps ---

  function KeptUnion<K(==)>(shards: seq<seq<LogEntry>>, key: LogEntry -> Option<K>, k: K, val: LogEntry -> Option<string>): set<string> {
    if |shards| == 0 then {} else KeptUnion(shards[..|shards| - 1], key, k, val) + Kept(shards[|shards| - 1], key, k, val)
  }

  lemma JoinGet<K, V>(a: map<K, V>, b: map<K, V>, absent: V, merge: (V, V) -> V, k: K)
    ensures Get(Join(a, b, absent, merge), k, absent) == if k in b then merge(Get(a, k, absent), b[k]) else Get(a, k, absent)
  {}

  lemma JoinHosts(pick: Chooser, a: Aggregate, b: Aggregate, k: Slot)
    requires ChoosesEight(pick) && |HostsOf(b, k)| <= MAX_EVIDENCE_VALUES
    ensures HostsOf(Merge(pick, a, b), k) == HostsOf(a, k) + HostsOf(b, k)
  {
    ChoosesAll(pick, HostsOf(b, k));
    JoinGet(a.hourActors, b.hourActors, NO_HOUR, HourMerger(pick), k);
  }

  lemma JoinUrls(pick: Chooser, a: Aggregate, b: Aggregate, host: string)
    requires ChoosesEight(pick) && |UrlsOf(b, host)| <= MAX_EVIDENCE_VALUES
    ensures UrlsOf(Merge(pick, a, b), host) == UrlsOf(a, host) + UrlsOf(b, host)
  {
    ChoosesAll(pick, UrlsOf(b, host));
    JoinGet(a.hosts, b.hosts, NO_HOST, HostMerger(pick), host);
  }

  lemma KeptIsFew<K(!new)>(es: seq<LogEntry>, key: LogEntry -> Option<K>, k: K, val: LogEntry -> Option<string>)
    ensures |Kept(es, key, k, val)| <= MAX_EVIDENCE_VALUES
  {
    FillBounds({}, Pick(es, key, k, val));
  }

  lemma MergeOneMore(m: Maths, pick: Chooser, shards: seq<seq<LogEntry>>)
    requires |shards| > 0
    ensures MergeAllOf(pick, MapSeq(shards, MapOfShard(m)))
         == Merge(pick, MergeAllOf(pick, MapSeq(shards[..|shards| - 1], MapOfShard(m))), MapOf(m, shards[|shards| - 1]))
  {
    hide Merge;
    var ps := MapSeq(shards, MapOfShard(m));
    assert ps[..|shards| - 1] == MapSeq(shards[..|shards| - 1], MapOfShard(m));
  }

  /** Merging the maps of shards keeps the union of what each of them kept, for every choice of eight: no shard holds more. */
  lemma {:induction false} MergedKeep(m: Maths, pick: Chooser, shards: seq<seq<LogEntry>>, k: Slot, host: string)
    requires ChoosesEight(pick)
    ensures HostsOf(MergeAllOf(pick, MapSeq(shards, MapOfShard(m))), k) == KeptUnion(shards, HourActorKey, k, HostOf)
    ensures UrlsOf(MergeAllOf(pick, MapSeq(shards, MapOfShard(m))), host) == KeptUnion(shards, HostKey, host, UrlOf)
  {
    if |shards| > 0 {
      hide ChoosesEight, Merge, Kept, HostsOf, UrlsOf, MapOf;
      var n := |shards| - 1;
      var before := MergeAllOf(pick, MapSeq(shards[..n], MapOfShard(m)));
      MergeOneMore(m, pick, shards);
      MergedKeep(m, pick, shards[..n], k, host);
      MapKeeps(m, shards[n], k, host);
      KeptIsFew(shards[n], HourActorKey, k, HostOf);
      KeptIsFew(shards[n], HostKey, host, UrlOf);
      JoinHosts(pick, before, MapOf(m, shards[n]), k);
      JoinUrls(pick, before, MapOf(m, shards[n]), host);
    }
  }

  ghost predicate InSome<K(!new)>(shards: seq<seq<LogEntry>>, key: LogEntry -> Option<K>, k: K, val: LogEntry -> Option<string>, v: string) {
    exists i :: 0 <= i < |shards| && v in Kept(shards[i], key, k, val)
  }

  lemma InSomeSnoc<K(!new)>(shards: seq<seq<LogEntry>>, key: LogEntry -> Option<K>, k: K, val: LogEntry -> Option<string>, v: string)
    requires |shards| > 0
    ensures InSome(shards, key, k, val, v)
       <==> InSome(shards[..|shards| - 1], key, k, val, v) || v in Kept(shards[|shards| - 1], key, k, val)
  {
    hide Kept;
    var n := |shards| - 1;
    var front := shards[..n];
    if InSome(front, key, k, val, v) {
      var i :| 0 <= i < n && v in Kept(front[i], key, k, val);
      assert shards[i] == front[i];
    }
    if InSome(shards, key, k, val, v) {
      var i :| 0 <= i < |shards| && v in Kept(shards[i], key, k, val);
      assert i == n || shards[i] == front[i];
    }
  }

  lemma {:induction false} UnionMember<K(!new)>(shards: seq<seq<LogEntry>>, key: LogEntry -> Option<K>, k: K, val: LogEntry -> Option<string>, v: string)
    ensures v in KeptUnion(shards, key, k, val) <==> InSome(shards, key, k, val, v)
  {
    if |shards| > 0 {
      UnionMember(shards[..|shards| - 1], key, k, val, v);
      InSomeSnoc(shards, key, k, val, v);
    }
  }

  lemma UnionPermutes<K(!new)>(a: seq<seq<LogEntry>>, b: seq<seq<LogEntry>>, key: LogEntry -> Option<K>, k: K, val: LogEntry -> Option<string>)
    requires multiset(a) == multiset(b)
    ensures KeptUnion(a, key, k, val) <= KeptUnion(b, key, k, val)
  {
    forall v | v in KeptUnion(a, key, k, val) ensures v in KeptUnion(b, key, k, val) {
      UnionMember(a, key, k, val, v);
      UnionMember(b, key, k, val, v);
      var i :| 0 <= i < |a| && v in Kept(a[i], key, k, val);
      assert a[i] in multiset(b);
      var j :| 0 <= j < |b| && b[j] == a[i];
    }
  }

  /** The order in which shards are merged, and Python's choice of eight, do not show in the merged evidence. */
  lemma MergeOrderKeeps(m: Maths, pick1: Chooser, pick2: Chooser, a: seq<seq<LogEntry>>, b: seq<seq<LogEntry>>, k: Slot, host: string)
    requires ChoosesEight(pick1) && ChoosesEight(pick2) && multiset(a) == multiset(b)
    ensures var p, q := MergeAllOf(pick1, MapSeq(a, MapOfShard(m))), MergeAllOf(pick2, MapSeq(b, MapOfShard(m)));
      HostsOf(p, k) == HostsOf(q, k) && UrlsOf(p, host) == UrlsOf(q, host)
  {
    MergedKeep(m, pick1, a, k, host);
    MergedKeep(m, pick2, b, k, host);
    UnionPermutes(a, b, HourActorKey, k, HostOf);
    UnionPermutes(b, a, HourActorKey, k, HostOf);
    UnionPermutes(a, b, HostKey, host, UrlOf);
    UnionPermutes(b, a, HostKey, host, UrlOf);
  }

  // --- Where the split shows ---

  lemma {:induction false} UnionGrows<K(!new)>(shards: seq<seq<LogEntry>>, key: LogEntry -> Option<K>, k: K, val: LogEntry -> Option<string>)
    ensures Kept(Flatten(shards), key, k, val) <= KeptUnion(shards, key, k, val)
    ensures |KeptUnion(shards, key, k, val)| <= MAX_EVIDENCE_VALUES ==> Kept(Flatten(shards), key, k, val) == KeptUnion(shards, key, k, val)
  {
    if |shards| > 0 {
      var n := |shards| - 1;
      var before, last := Flatten(shards[..n]), shards[n];
      UnionGrows(shards[..n], key, k, val);
      PickAppend(before, last, key, k, val);
      FillAppend({}, Pick(before, key, k, val), Pick(last, key, k, val));
      FillBounds({}, Pick(before, key, k, val));
      FillFresh(Kept(before, key, k, val), Pick(last, key, k, val));
      FillIsJoin(Kept(before, key, k, val), Pick(last, key, k, val));
      SubsetSize(KeptUnion(shards[..n], key, k, val), KeptUnion(shards, key, k, val));
    }
  }

  /** The shards keep what one process keeps exactly while they keep no more than eight values between them. */
  lemma SplitShowsIff<K(!new)>(shards: seq<seq<LogEntry>>, key: LogEntry -> Option<K>, k: K, val: LogEntry -> Option<string>)
    ensures Kept(Flatten(shards), key, k, val) == KeptUnion(shards, key, k, val) <==> |KeptUnion(shards, key, k, val)| <= MAX_EVIDENCE_VALUES
  {
    UnionGrows(shards, key, k, val);
    FillBounds({}, Pick(Flatten(shards), key, k, val));
  }

  /** What one process scores. */
  function Whole(m: Maths, pick: Chooser, rows: seq<LogEntry>): Aggregate {
    MergeAllOf(pick, [MapOf(m, rows)])
  }

  /** What a reduce scores. */
  function Merged(m: Maths, pick: Chooser, shards: seq<seq<LogEntry>>): Aggregate {
    MergeAllOf(pick, MapSeq(shards, MapOfShard(m)))
  }

  lemma WholeKeeps(m: Maths, pick: Chooser, rows: seq<LogEntry>, k: Slot)
    requires ChoosesEight(pick)
    ensures HostsOf(Whole(m, pick, rows), k) == Kept(rows, HourActorKey, k, HostOf)
    ensures |HostsOf(Whole(m, pick, rows), k)| <= MAX_EVIDENCE_VALUES
  {
    hide ChoosesEight, Pick;
    OneShard(m, rows);
    MergedKeep(m, pick, [rows], k, "");
    assert [rows][..0] == [];
    FillBounds({}, Pick(rows, HourActorKey, k, HostOf));
  }

  lemma SlotIff(m: Maths, pick1: Chooser, pick2: Chooser, shards: seq<seq<LogEntry>>, k: Slot)
    requires ChoosesEight(pick1) && ChoosesEight(pick2)
    ensures var p, q := Whole(m, pick1, Flatten(shards)), Merged(m, pick2, shards);
      && |HostsOf(p, k)| <= MAX_EVIDENCE_VALUES
      && (HostsOf(p, k) == HostsOf(q, k) <==> |HostsOf(q, k)| <= MAX_EVIDENCE_VALUES)
      && (k in p.hourActors ==> HostsOf(p, k) == p.hourActors[k].hosts)
      && (k in q.hourActors ==> HostsOf(q, k) == q.hourActors[k].hosts)
  {
    WholeKeeps(m, pick1, Flatten(shards), k);
    MergedKeep(m, pick2, shards, k, "");
    SplitShowsIff(shards, HourActorKey, k, HostOf);
  }

  lemma SameSlotKeys(m: Maths, pick1: Chooser, pick2: Chooser, shards: seq<seq<LogEntry>>)
    requires ChoosesEight(pick1) && ChoosesEight(pick2)
    ensures Whole(m, pick1, Flatten(shards)).hourActors.Keys == Merged(m, pick2, shards).hourActors.Keys
  {
    var rows := Flatten(shards);
    OneShard(m, rows);
    ReducedDescribes(m, pick1, [rows]);
    ReducedDescribes(m, pick2, shards);
    SameHours(m, Whole(m, pick1, rows), Merged(m, pick2, shards), rows, rows);
  }

  lemma SlotsAgreeIff(s: Slots, t: Slots)
    requires s.Keys == t.Keys
    requires forall k :: k in t ==> (s[k].hosts == t[k].hosts <==> |t[k].hosts| <= MAX_EVIDENCE_VALUES)
    ensures SameHosts(s, t) <==> Uncapped(t)
  {}

  /** On aggregates: one process and the merged shards hold the same hosts in every slot if and only if no merged slot
      outgrew the cap. */
  lemma SameHostsIff(m: Maths, pick1: Chooser, pick2: Chooser, shards: seq<seq<LogEntry>>)
    requires ChoosesEight(pick1) && ChoosesEight(pick2)
    ensures Uncapped(Whole(m, pick1, Flatten(shards)).hourActors)
    ensures SameHosts(Whole(m, pick1, Flatten(shards)).hourActors, Merged(m, pick2, shards).hourActors)
       <==> Uncapped(Merged(m, pick2, shards).hourActors)
  {
    var s, t := Whole(m, pick1, Flatten(shards)).hourActors, Merged(m, pick2, shards).hourActors;
    SameSlotKeys(m, pick1, pick2, shards);
    forall k | k in t
      ensures s[k].hosts == t[k].hosts <==> |t[k].hosts| <= MAX_EVIDENCE_VALUES
      ensures |s[k].hosts| <= MAX_EVIDENCE_VALUES
    {
      SlotIff(m, pick1, pick2, shards, k);
    }
    SlotsAgreeIff(s, t);
  }

  /** The sharding theorem in full: rows split in order give the same report, host samples included, whenever no merged
      slot outgrew the cap. */
  lemma ShardingIsExactInFull(m: Maths, pick1: Chooser, pick2: Chooser, shards: seq<seq<LogEntry>>,
                              sharded: seq<Candidate>, whole: seq<Candidate>)
    requires SeparateTitles(Flatten(shards)) && ChoosesEight(pick1) && ChoosesEight(pick2)
    requires IsResult(m, pick1, Merged(m, pick1, shards), sharded) && IsResult(m, pick2, Whole(m, pick2, Flatten(shards)), whole)
    ensures MapSeq(sharded, LooseFingerprint) == MapSeq(whole, LooseFingerprint)
    ensures Uncapped(Merged(m, pick1, shards).hourActors) ==> MapSeq(sharded, Fingerprint) == MapSeq(whole, Fingerprint)
  {
    SameHostsIff(m, pick2, pick1, shards);
    ShardingIsExact(m, pick1, pick2, shards, Flatten(shards), sharded, whole);
  }

  // --- An upload whose split shows ---

  const ANN := "ann"

  function HostName(n: nat): string {
    seq(n, _ => 'h')
  }

  /** Row `n`: one actor, one hour, a host of its own. */
  function Visit(n: nat): LogEntry {
    LogEntry(n, n + 2, Some(0), None, Some(ANN), Some(HostName(n + 1)), None, None, None, None)
  }

  function Visits(n: nat): seq<LogEntry> {
    seq(n, i requires 0 <= i => Visit(i))
  }

  function Names(n: nat): seq<string> {
    seq(n, i requires 0 <= i => HostName(i + 1))
  }

  lemma NamesDiffer(n: nat)
    ensures NoDup(Names(n)) && |Elems(Names(n))| == n
  {
    forall i, j | 0 <= i < j < n ensures Names(n)[i] != Names(n)[j] {
      assert |Names(n)[i]| == i + 1 && |Names(n)[j]| == j + 1;
    }
    DistinctElems(Names(n));
  }

  lemma VisitsSnoc(n: nat)
    ensures Visits(n + 1) == Visits(n) + [Visit(n)]
  {}

  lemma NamesSnoc(n: nat)
    ensures Names(n + 1) == Names(n) + [HostName(n + 1)] && HostName(n + 1) != ""
  {
    assert |HostName(n + 1)| > 0;
  }

  lemma {:induction false} VisitsPick(n: nat)
    ensures Pick(Visits(n), HourActorKey, (0, ANN), HostOf) == Names(n)
  {
    if n > 0 {
      hide Visits, Names, Pick, HostName;
      VisitsPick(n - 1);
      VisitsSnoc(n - 1);
      NamesSnoc(n - 1);
      PickSnoc(Visits(n - 1), Visit(n - 1), HourActorKey, (0, ANN), HostOf);
    }
  }

  /** Up to eight distinct values are all kept. */
  lemma {:induction false} DistinctKept(xs: seq<string>)
    requires NoDup(xs) && |xs| <= MAX_EVIDENCE_VALUES
    ensures FirstKept(xs) == Elems(xs)
  {
    if |xs| == 0 {
      assert Elems(xs) == {};
    } else {
      var front, x := xs[..|xs| - 1], xs[|xs| - 1];
      DistinctKept(front);
      DistinctElems(front);
      hide Elems, NoDup;
      assert xs == front + [x];
      ElemsOneMore(front, x);
    }
  }

  const NINE: seq<seq<LogEntry>> := [Visits(8), [Visit(8)]]

  lemma NineVisits()
    ensures Flatten(NINE) == Visits(9)
  {
    assert NINE[..1] == [Visits(8)] && NINE[..1][..0] == [];
    assert Visits(9) == Visits(8) + [Visit(8)];
  }

  lemma EightKept()
    ensures Kept(Visits(8), HourActorKey, (0, ANN), HostOf) == Elems(Names(8)) && |Elems(Names(8))| == 8
  {
    VisitsPick(8);
    NamesDiffer(8);
    DistinctKept(Names(8));
  }

  lemma LastVisit()
    ensures HourActorKey(Visit(8)) == Some((0, ANN)) && HostOf(Visit(8)) == Some(HostName(9)) && HostName(9) !in Elems(Names(8))
  {
    assert |HostName(9)| == 9;
    forall i | 0 <= i < 8 ensures Names(8)[i] != HostName(9) {
      assert |Names(8)[i]| == i + 1;
    }
  }

  lemma NinthKept()
    ensures Kept([Visit(8)], HourActorKey, (0, ANN), HostOf) == {HostName(9)}
    ensures Kept(Visits(9), HourActorKey, (0, ANN), HostOf) == Elems(Names(8))
  {
    hide Kept, Elems, Names, Visit;
    NothingKept((0, ANN), "");
    EightKept();
    LastVisit();
    VisitsSnoc(8);
    var none: seq<LogEntry> := [];
    KeptSnoc(none, Visit(8), HourActorKey, (0, ANN), HostOf);
    assert none + [Visit(8)] == [Visit(8)];
    KeptSnoc(Visits(8), Visit(8), HourActorKey, (0, ANN), HostOf);
  }

  lemma NineKept()
    ensures KeptUnion(NINE, HourActorKey, (0, ANN), HostOf) == Elems(Names(8)) + {HostName(9)}
  {
    hide Visits;
    EightKept();
    NinthKept();
    assert NINE[..1] == [Visits(8)] && NINE[..1][..0] == [];
  }

  /** Nine visits to nine hosts: one process keeps eight of them, a shard of eight and a shard of one keep all nine. */
  lemma NineHosts(m: Maths, pick: Chooser)
    requires ChoosesEight(pick)
    ensures Flatten(NINE) == Visits(9)
    ensures |HostsOf(Whole(m, pick, Visits(9)), (0, ANN))| == 8 && |HostsOf(Merged(m, pick, NINE), (0, ANN))| == 9
  {
    hide ChoosesEight, MergeAllOf, Flatten;
    NineVisits();
    WholeKeeps(m, pick, Visits(9), (0, ANN));
    MergedKeep(m, pick, NINE, (0, ANN), "");
    EightKept();
    NinthKept();
    NineKept();
    LastVisit();
  }

  // --- Merging sets that have outgrown the cap ---

  /** A lawful choice that leaves `x` out of any set it must cut. */
  function Avoiding(x: string): Chooser {
    (s: set<string>) => if |s| > MAX_EVIDENCE_VALUES then FirstEight(s - {x}) else s
  }

  lemma AvoidingChooses(x: string)
    ensures ChoosesEight(Avoiding(x))
    ensures forall s :: |s| > MAX_EVIDENCE_VALUES ==> x !in Avoiding(x)(s)
  {
    FirstEightChooses();
    forall s: set<string> ensures Avoiding(x)(s) <= s && |Avoiding(x)(s)| == Min(|s|, MAX_EVIDENCE_VALUES) {
      if |s| > MAX_EVIDENCE_VALUES {
        assert s - {x} <= s && (x in s ==> s == (s - {x}) + {x});
        assert FirstEight(s - {x}) <= s - {x};
      }
    }
    forall s: set<string> | |s| > MAX_EVIDENCE_VALUES ensures x !in Avoiding(x)(s) {
      assert FirstEight(s - {x}) <= s - {x};
    }
  }

  ghost predicate EitherOrder(pick: Chooser, x: set<string>, y: set<string>) {
    x + pick(y) == y + pick(x)
  }

  lemma OneWay(x: set<string>, y: set<string>)
    requires |y| > MAX_EVIDENCE_VALUES && y - x != {}
    ensures exists v :: v in y - x && ChoosesEight(Avoiding(v)) && !EitherOrder(Avoiding(v), x, y)
  {
    var v :| v in y - x;
    AvoidingChooses(v);
    assert v in y + Avoiding(v)(x) && v !in x + Avoiding(v)(y);
  }

  lemma NoDifference(x: set<string>, y: set<string>)
    requires x - y == {}
    ensures x <= y && |x| <= |y|
  {
    forall v | v in x ensures v in y {
      assert v !in x - y;
    }
    SubsetSize(x, y);
  }

  lemma BothContained(x: set<string>, y: set<string>)
    requires x != y && (|x| > MAX_EVIDENCE_VALUES ==> x - y == {}) && (|y| > MAX_EVIDENCE_VALUES ==> y - x == {})
    ensures |x| <= MAX_EVIDENCE_VALUES && |y| <= MAX_EVIDENCE_VALUES
  {
    if |x| > MAX_EVIDENCE_VALUES || |y| > MAX_EVIDENCE_VALUES {
      if x - y == {} {
        NoDifference(x, y);
      }
      if y - x == {} {
        NoDifference(y, x);
      }
      assert false;
    }
  }

  lemma EitherOrderWhen(x: set<string>, y: set<string>)
    ensures (forall pick :: ChoosesEight(pick) ==> EitherOrder(pick, x, y)) <==> (|x| <= 8 && |y| <= 8) || x == y
  {
    if x == y {
    } else if |x| <= MAX_EVIDENCE_VALUES && |y| <= MAX_EVIDENCE_VALUES {
      forall pick | ChoosesEight(pick) ensures EitherOrder(pick, x, y) {
        ChoosesAll(pick, x);
        ChoosesAll(pick, y);
      }
    } else if |y| > MAX_EVIDENCE_VALUES && y - x != {} {
      OneWay(x, y);
    } else if |x| > MAX_EVIDENCE_VALUES && x - y != {} {
      OneWay(y, x);
      var v :| v in x - y && !EitherOrder(Avoiding(v), y, x);
      AvoidingChooses(v);
      assert !EitherOrder(Avoiding(v), x, y);
    } else {
      BothContained(x, y);
    }
  }

  /** An actor's hosts in an hour, merged in either order. */
  ghost predicate HostsEitherWay(pick: Chooser, x: set<string>, y: set<string>) {
    MergeHour(pick, HourStats([], x), HourStats([], y)).hosts == MergeHour(pick, HourStats([], y), HourStats([], x)).hosts
  }

  /** A host's urls, merged in either order. */
  ghost predicate UrlsEitherWay(pick: Chooser, x: set<string>, y: set<string>) {
    MergeHost(pick, HostStats([], {}, x), HostStats([], {}, y)).urls == MergeHost(pick, HostStats([], {}, y), HostStats([], {}, x)).urls
  }

  /** Two sets of evidence merge the same either way round, whatever eight are chosen, if and only if neither has outgrown the
      cap or they are equal. Sets of one shard never have; the sets that the off-hours detector merges once more can. */
  lemma EitherOrderIff(x: set<string>, y: set<string>)
    ensures (forall pick :: ChoosesEight(pick) ==> HostsEitherWay(pick, x, y)) <==> (|x| <= 8 && |y| <= 8) || x == y
    ensures (forall pick :: ChoosesEight(pick) ==> UrlsEitherWay(pick, x, y)) <==> (|x| <= 8 && |y| <= 8) || x == y
  {
    hide ChoosesEight;
    EitherOrderWhen(x, y);
    assert forall pick :: HostsEitherWay(pick, x, y) <==> EitherOrder(pick, x, y);
    assert forall pick :: UrlsEitherWay(pick, x, y) <==> EitherOrder(pick, x, y);
  }
}
