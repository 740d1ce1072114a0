/** Sharding never changes the answer: two aggregates that describe the same rows, in any order and
    through any split, lead every detector to the same report. */
module Sharding {
  import opened Common
  import opened LogEntries
  import opened Aggregates
  import opened GroupDetectors
  import opened OffHours
  import opened Readings

  // --- Aggregates of the same rows ---

  ghost predicate SameGroups<K(!new), V>(a: map<K, V>, b: map<K, V>, same: (V, V) -> bool) {
    && a.Keys == b.Keys
    && forall k :: k in a ==> same(a[k], b[k])
  }

  ghost predicate SameBag<T>(x: seq<T>, y: seq<T>) {
    multiset(x) == multiset(y)
  }

  ghost predicate SameBytes(x: ByteStats, y: ByteStats) {
    SameBag(x.ids, y.ids) && x.totalBytes == y.totalBytes && SameBag(x.logValues, y.logValues)
  }

  ghost predicate SameThreat(x: ThreatStats, y: ThreatStats) {
    SameBag(x.ids, y.ids) && x.users == y.users && x.actions == y.actions
  }

  /** Capped urls agree unless the host has more than eight rows. */
  ghost predicate SameHost(x: HostStats, y: HostStats) {
    && SameBag(x.ids, y.ids)
    && x.users == y.users
    && (|x.ids| <= MAX_EVIDENCE_VALUES ==> x.urls == y.urls)
  }

  ghost predicate Same(p: Aggregate, q: Aggregate) {
    && SameGroups(p.ipMinute, q.ipMinute, SameBag<int>)
    && SameGroups(p.userHost, q.userHost, SameBytes)
    && SameBag(p.reqByteLogs, q.reqByteLogs)
    && SameGroups(p.ipHostTimes, q.ipHostTimes, SameBag<Hit>)
    && SameGroups(p.threats, q.threats, SameThreat)
    && SameGroups(p.hosts, q.hosts, SameHost)
    && p.hourCounts == q.hourCounts
    && SameSlots(p.hourActors, q.hourActors)
  }

  lemma GroupedSame<K(!new), V(!new)>(
      a: map<K, V>, b: map<K, V>, xs: seq<LogEntry>, ys: seq<LogEntry>,
      key: LogEntry -> Option<K>, fit: (V, seq<LogEntry>, K) -> bool, same: (V, V) -> bool)
    requires multiset(xs) == multiset(ys)
    requires Grouped(a, xs, key, fit) && Grouped(b, ys, key, fit)
    requires forall k, x, y :: fit(x, xs, k) && fit(y, ys, k) ==> same(x, y)
    ensures SameGroups(a, b, same)
  {
    forall k ensures k in a <==> k in b {
      PickPermutes(xs, ys, key, k, IdOf);
      SameLength(Pick(xs, key, k, IdOf), Pick(ys, key, k, IdOf));
    }
  }

  lemma SameUploads(m: Maths, p: Aggregate, q: Aggregate, xs: seq<LogEntry>, ys: seq<LogEntry>)
    requires multiset(xs) == multiset(ys) && Describes(m, p, xs) && Describes(m, q, ys)
    ensures SameGroups(p.userHost, q.userHost, SameBytes)
  {
    forall k, x, y | BytesFitOf(m)(x, xs, k) && BytesFitOf(m)(y, ys, k) ensures SameBytes(x, y) {
      PickPermutes(xs, ys, UploadKey, k, IdOf);
      PickPermutes(xs, ys, UploadKey, k, BytesOf);
      PickPermutes(xs, ys, UploadKey, k, LogBytesOf(m));
      SumPermutes(Pick(xs, UploadKey, k, BytesOf), Pick(ys, UploadKey, k, BytesOf));
    }
    GroupedSame(p.userHost, q.userHost, xs, ys, UploadKey, BytesFitOf(m), SameBytes);
  }

  lemma SameThreats(m: Maths, p: Aggregate, q: Aggregate, xs: seq<LogEntry>, ys: seq<LogEntry>)
    requires multiset(xs) == multiset(ys) && Describes(m, p, xs) && Describes(m, q, ys)
    ensures SameGroups(p.threats, q.threats, SameThreat)
  {
    forall k, x, y | ThreatFit(x, xs, k) && ThreatFit(y, ys, k) ensures SameThreat(x, y) {
      PickPermutes(xs, ys, ThreatKey, k, IdOf);
      PickPermutes(xs, ys, ThreatKey, k, UserOf);
      PickPermutes(xs, ys, ThreatKey, k, ActionOf);
      ElemsPermutes(Pick(xs, ThreatKey, k, UserOf), Pick(ys, ThreatKey, k, UserOf));
      ElemsPermutes(Pick(xs, ThreatKey, k, ActionOf), Pick(ys, ThreatKey, k, ActionOf));
    }
    GroupedSame(p.threats, q.threats, xs, ys, ThreatKey, ThreatFit, SameThreat);
  }

  lemma SameHostGroups(m: Maths, p: Aggregate, q: Aggregate, xs: seq<LogEntry>, ys: seq<LogEntry>)
    requires multiset(xs) == multiset(ys) && Describes(m, p, xs) && Describes(m, q, ys)
    ensures SameGroups(p.hosts, q.hosts, SameHost)
  {
    forall k, x, y | HostFit(x, xs, k) && HostFit(y, ys, k) ensures SameHost(x, y) {
      PickPermutes(xs, ys, HostKey, k, IdOf);
      PickPermutes(xs, ys, HostKey, k, UserOf);
      PickPermutes(xs, ys, HostKey, k, UrlOf);
      ElemsPermutes(Pick(xs, HostKey, k, UserOf), Pick(ys, HostKey, k, UserOf));
      ElemsPermutes(Pick(xs, HostKey, k, UrlOf), Pick(ys, HostKey, k, UrlOf));
      PickBound(xs, HostKey, k, UrlOf);
      ElemsBound(Pick(xs, HostKey, k, UrlOf));
    }
    GroupedSame(p.hosts, q.hosts, xs, ys, HostKey, HostFit, SameHost);
  }

  lemma SameTimes(m: Maths, p: Aggregate, q: Aggregate, xs: seq<LogEntry>, ys: seq<LogEntry>)
    requires multiset(xs) == multiset(ys) && Describes(m, p, xs) && Describes(m, q, ys)
    ensures SameGroups(p.ipMinute, q.ipMinute, SameBag<int>)
    ensures SameGroups(p.ipHostTimes, q.ipHostTimes, SameBag<Hit>)
  {
    forall k, x, y | MinutesFit(x, xs, k) && MinutesFit(y, ys, k) ensures SameBag<int>(x, y) {
      PickPermutes(xs, ys, MinuteKey, k, IdOf);
    }
    GroupedSame(p.ipMinute, q.ipMinute, xs, ys, MinuteKey, MinutesFit, SameBag<int>);
    forall k, x, y | HitsFit(x, xs, k) && HitsFit(y, ys, k) ensures SameBag<Hit>(x, y) {
      PickPermutes(xs, ys, FlowKey, k, HitOf);
    }
    GroupedSame(p.ipHostTimes, q.ipHostTimes, xs, ys, FlowKey, HitsFit, SameBag<Hit>);
  }

  lemma SameHours(m: Maths, p: Aggregate, q: Aggregate, xs: seq<LogEntry>, ys: seq<LogEntry>)
    requires multiset(xs) == multiset(ys) && Describes(m, p, xs) && Describes(m, q, ys)
    ensures p.hourCounts == q.hourCounts
    ensures SameSlots(p.hourActors, q.hourActors)
  {
    var equal := (x: int, y: int) => x == y;
    forall k, x, y | CountFit(x, xs, k) && CountFit(y, ys, k) ensures x == y {
      PickPermutes(xs, ys, HourKey, k, IdOf);
      SameLength(Pick(xs, HourKey, k, IdOf), Pick(ys, HourKey, k, IdOf));
    }
    GroupedSame(p.hourCounts, q.hourCounts, xs, ys, HourKey, CountFit, equal);
    var sameIds := (x: HourStats, y: HourStats) => multiset(x.ids) == multiset(y.ids);
    forall k, x, y | HourFit(x, xs, k) && HourFit(y, ys, k) ensures sameIds(x, y) {
      PickPermutes(xs, ys, HourActorKey, k, IdOf);
    }
    GroupedSame(p.hourActors, q.hourActors, xs, ys, HourActorKey, HourFit, sameIds);
  }

  /** Aggregates of the same rows hold the same groups. */
  lemma DescribeSame(m: Maths, p: Aggregate, q: Aggregate, xs: seq<LogEntry>, ys: seq<LogEntry>)
    requires multiset(xs) == multiset(ys) && Describes(m, p, xs) && Describes(m, q, ys)
    ensures Same(p, q)
  {
    SameTimes(m, p, q, xs, ys);
    SameUploads(m, p, q, xs, ys);
    PickPermutes(xs, ys, AnyUpload, (), LogBytesOf(m));
    SameThreats(m, p, q, xs, ys);
    SameHostGroups(m, p, q, xs, ys);
    SameHours(m, p, q, xs, ys);
  }

  lemma FewPicked(es: seq<LogEntry>, k: (int, string))
    requires FewHosts(es)
    ensures |Elems(Pick(es, HourActorKey, k, HostOf))| <= MAX_EVIDENCE_VALUES
  {
    forall e ensures HourActorKey(e) == Some(k) <==> ActorRows(k.0, k.1)(e) {
      HourActorKeyIff(e, k.0, k.1);
    }
    PickNames(es, HourActorKey, k, HostOf, ActorRows(k.0, k.1), TheHost);
  }

  lemma FewHostsSame(m: Maths, p: Aggregate, q: Aggregate, xs: seq<LogEntry>, ys: seq<LogEntry>)
    requires multiset(xs) == multiset(ys) && Describes(m, p, xs) && Describes(m, q, ys) && FewHosts(xs)
    ensures Uncapped(p.hourActors) && Uncapped(q.hourActors) && SameHosts(p.hourActors, q.hourActors)
  {
    SameHours(m, p, q, xs, ys);
    forall k | k in p.hourActors
      ensures p.hourActors[k].hosts == q.hourActors[k].hosts && |p.hourActors[k].hosts| <= MAX_EVIDENCE_VALUES
    {
      FewPicked(xs, k);
      PickPermutes(xs, ys, HourActorKey, k, HostOf);
      ElemsPermutes(Pick(xs, HourActorKey, k, HostOf), Pick(ys, HourActorKey, k, HostOf));
      assert HourFit(p.hourActors[k], xs, k) && HourFit(q.hourActors[k], ys, k);
    }
  }
}
