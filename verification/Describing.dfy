/** Mapping and merging keep an aggregate's meaning: the map of a shard describes the shard,
    and merging descriptions describes the concatenation. */
module Describing {
  import opened Common
  import opened LogEntries
  import opened Aggregates
  import opened Dictionaries

  // --- Generic: one dictionary of groups ---

  /** The empty group is right for a key with no entries. */
  ghost predicate EmptyFits<K(!new), V>(es: seq<LogEntry>, key: LogEntry -> Option<K>, fit: (V, seq<LogEntry>, K) -> bool, absent: V) {
    forall k :: Pick(es, key, k, IdOf) == [] ==> fit(absent, es, k)
  }

  /** An entry outside a group leaves the group's description alone. */
  ghost predicate Local<K(!new), V(!new)>(es: seq<LogEntry>, e: LogEntry, key: LogEntry -> Option<K>, fit: (V, seq<LogEntry>, K) -> bool) {
    forall k, g :: key(e) != Some(k) && fit(g, es, k) ==> fit(g, es + [e], k)
  }

  lemma StepGrouped<K(!new), V(!new)>(
      groups: map<K, V>, after: map<K, V>, es: seq<LogEntry>, e: LogEntry,
      key: LogEntry -> Option<K>, fit: (V, seq<LogEntry>, K) -> bool, absent: V)
    requires Grouped(groups, es, key, fit) && EmptyFits(es, key, fit, absent) && Local(es, e, key, fit)
    requires key(e).None? ==> after == groups
    requires key(e).Some? ==> key(e).value in after && after == groups[key(e).value := after[key(e).value]]
    requires key(e).Some? && fit(Get(groups, key(e).value, absent), es, key(e).value)
             ==> fit(after[key(e).value], es + [e], key(e).value)
    ensures Grouped(after, es + [e], key, fit)
  {
    forall k ensures k in after <==> Pick(es + [e], key, k, IdOf) != [] {
      PickSnoc(es, e, key, k, IdOf);
    }
    forall k | k in after ensures fit(after[k], es + [e], k) {
      if key(e) == Some(k) {
        assert fit(Get(groups, k, absent), es, k);
      }
    }
  }

  ghost predicate Combines<K(!new), V(!new)>(
      xs: seq<LogEntry>, ys: seq<LogEntry>, fit: (V, seq<LogEntry>, K) -> bool, merge: (V, V) -> V) {
    forall k, x, y :: fit(x, xs, k) && fit(y, ys, k) ==> fit(merge(x, y), xs + ys, k)
  }

  lemma JoinGrouped<K(!new), V(!new)>(
      a: map<K, V>, b: map<K, V>, xs: seq<LogEntry>, ys: seq<LogEntry>,
      key: LogEntry -> Option<K>, fit: (V, seq<LogEntry>, K) -> bool, absent: V, merge: (V, V) -> V)
    requires Grouped(a, xs, key, fit) && Grouped(b, ys, key, fit)
    requires EmptyFits(xs, key, fit, absent) && Combines(xs, ys, fit, merge)
    requires forall k, g :: Pick(ys, key, k, IdOf) == [] && fit(g, xs, k) ==> fit(g, xs + ys, k)
    ensures Grouped(Join(a, b, absent, merge), xs + ys, key, fit)
  {
    var c := Join(a, b, absent, merge);
    forall k ensures k in c <==> Pick(xs + ys, key, k, IdOf) != [] {
      PickAppend(xs, ys, key, k, IdOf);
      assert k in c <==> k in c.Keys;
    }
    forall k | k in c ensures fit(c[k], xs + ys, k) {
      assert k in c.Keys;
      if k in b {
        assert fit(Get(a, k, absent), xs, k) && fit(b[k], ys, k);
      } else {
        assert k in a && c[k] == a[k];
        assert fit(a[k], xs, k);
      }
    }
  }

  /** Appending entries none of which belong to group `k` changes no pick from it. */
  lemma PickIdle<K(!new), T>(xs: seq<LogEntry>, ys: seq<LogEntry>, key: LogEntry -> Option<K>, k: K, val: LogEntry -> Option<T>)
    requires Pick(ys, key, k, IdOf) == []
    ensures Pick(xs + ys, key, k, val) == Pick(xs, key, k, val)
    ensures Pick(ys, key, k, val) == []
  {
    PickBound(ys, key, k, val);
    PickAppend(xs, ys, key, k, val);
  }

  // --- Capped evidence sets ---

  lemma CapStep(kept: set<string>, whole: set<string>, o: Option<string>)
    requires CapOf(kept, whole)
    ensures CapOf(AddCapped(kept, o), AddAll(whole, o))
  {
    var whole' := AddAll(whole, o);
    if |whole'| <= MAX_EVIDENCE_VALUES {
      SubsetSize(whole, whole');
      if o.Some? && o.value !in whole {
        assert whole' - {o.value} == whole;
      }
    }
  }

  lemma CapMerge(pick: Chooser, x: set<string>, y: set<string>, xAll: set<string>, yAll: set<string>)
    requires CapOf(x, xAll) && CapOf(y, yAll) && ChoosesEight(pick)
    ensures CapOf(x + pick(y), xAll + yAll)
  {
    if |xAll + yAll| <= MAX_EVIDENCE_VALUES {
      SubsetSize(xAll, xAll + yAll);
      SubsetSize(yAll, xAll + yAll);
      SubsetFull(pick(y), y);
    }
  }

  lemma ElemsSnoc(xs: seq<string>, o: Option<string>)
    ensures Elems(xs + OptionSeq(o)) == AddAll(Elems(xs), o)
  {
    ElemsAppend(xs, OptionSeq(o));
    if o.Some? {
      assert [o.value][0] == o.value;
      assert Elems([o.value]) == {o.value};
    } else {
      assert Elems<string>([]) == {};
    }
  }

  // --- One entry ---

  lemma StepMinutes(p: Aggregate, es: seq<LogEntry>, e: LogEntry)
    requires Grouped(p.ipMinute, es, MinuteKey, MinutesFit)
    ensures Grouped(AppendAt(p.ipMinute, MinuteKey(e), IdOf(e)), es + [e], MinuteKey, MinutesFit)
  {
    forall k ensures Pick(es + [e], MinuteKey, k, IdOf) == Pick(es, MinuteKey, k, IdOf) + (if MinuteKey(e) == Some(k) then [e.id] else []) {
      PickSnoc(es, e, MinuteKey, k, IdOf);
    }
    StepGrouped(p.ipMinute, AppendAt(p.ipMinute, MinuteKey(e), IdOf(e)), es, e, MinuteKey, MinutesFit, []);
  }

  lemma StepFlows(p: Aggregate, es: seq<LogEntry>, e: LogEntry)
    requires Grouped(p.ipHostTimes, es, FlowKey, HitsFit)
    ensures Grouped(AppendAt(p.ipHostTimes, FlowKey(e), HitOf(e)), es + [e], FlowKey, HitsFit)
  {
    forall k ensures Pick(es + [e], FlowKey, k, HitOf) == Pick(es, FlowKey, k, HitOf) + (if FlowKey(e) == Some(k) then OptionSeq(HitOf(e)) else []) {
      PickSnoc(es, e, FlowKey, k, HitOf);
    }
    forall k | Pick(es, FlowKey, k, IdOf) == [] ensures HitsFit([], es, k) {
      PickBound(es, FlowKey, k, HitOf);
    }
    StepGrouped(p.ipHostTimes, AppendAt(p.ipHostTimes, FlowKey(e), HitOf(e)), es, e, FlowKey, HitsFit, []);
  }

  lemma UploadStep(m: Maths, es: seq<LogEntry>, e: LogEntry, k: (string, string), g: ByteStats)
    requires BytesFit(m, g, es, k)
    ensures UploadKey(e) != Some(k) ==> BytesFit(m, g, es + [e], k)
    ensures UploadKey(e) == Some(k) ==> BytesFit(m, ByteStep(m, g, e), es + [e], k)
  {
    PickSnoc(es, e, UploadKey, k, IdOf);
    PickSnoc(es, e, UploadKey, k, BytesOf);
    PickSnoc(es, e, UploadKey, k, LogBytesOf(m));
    SumAppend(Pick(es, UploadKey, k, BytesOf), OptionSeq(BytesOf(e)));
  }

  lemma StepUploads(m: Maths, groups: map<(string, string), ByteStats>, es: seq<LogEntry>, e: LogEntry)
    requires Grouped(groups, es, UploadKey, BytesFitOf(m))
    ensures Grouped(WithUpload(m, groups, e), es + [e], UploadKey, BytesFitOf(m))
  {
    forall k, g | BytesFitOf(m)(g, es, k)
      ensures UploadKey(e) != Some(k) ==> BytesFitOf(m)(g, es + [e], k)
      ensures UploadKey(e) == Some(k) ==> BytesFitOf(m)(ByteStep(m, g, e), es + [e], k)
    {
      UploadStep(m, es, e, k, g);
    }
    forall k | Pick(es, UploadKey, k, IdOf) == [] ensures BytesFitOf(m)(NO_BYTES, es, k) {
      PickBound(es, UploadKey, k, BytesOf);
      PickBound(es, UploadKey, k, LogBytesOf(m));
    }
    StepGrouped(groups, WithUpload(m, groups, e), es, e, UploadKey, BytesFitOf(m), NO_BYTES);
  }

  lemma StepThreats(groups: map<(string, string), ThreatStats>, es: seq<LogEntry>, e: LogEntry)
    requires Grouped(groups, es, ThreatKey, ThreatFit)
    ensures Grouped(WithThreat(groups, e), es + [e], ThreatKey, ThreatFit)
  {
    forall k, g | ThreatFit(g, es, k)
      ensures ThreatKey(e) != Some(k) ==> ThreatFit(g, es + [e], k)
      ensures ThreatKey(e) == Some(k) ==> ThreatFit(ThreatStep(g, e), es + [e], k)
    {
      PickSnoc(es, e, ThreatKey, k, IdOf);
      PickSnoc(es, e, ThreatKey, k, UserOf);
      PickSnoc(es, e, ThreatKey, k, ActionOf);
      ElemsSnoc(Pick(es, ThreatKey, k, UserOf), UserOf(e));
      ElemsSnoc(Pick(es, ThreatKey, k, ActionOf), ActionOf(e));
    }
    forall k | Pick(es, ThreatKey, k, IdOf) == [] ensures ThreatFit(NO_THREAT, es, k) {
      PickBound(es, ThreatKey, k, UserOf);
      PickBound(es, ThreatKey, k, ActionOf);
    }
    StepGrouped(groups, WithThreat(groups, e), es, e, ThreatKey, ThreatFit, NO_THREAT);
  }

  lemma StepHosts(groups: map<string, HostStats>, es: seq<LogEntry>, e: LogEntry)
    requires Grouped(groups, es, HostKey, HostFit)
    ensures Grouped(WithHost(groups, e), es + [e], HostKey, HostFit)
  {
    forall k, g | HostFit(g, es, k)
      ensures HostKey(e) != Some(k) ==> HostFit(g, es + [e], k)
      ensures HostKey(e) == Some(k) ==> HostFit(HostStep(g, e), es + [e], k)
    {
      PickSnoc(es, e, HostKey, k, IdOf);
      PickSnoc(es, e, HostKey, k, UserOf);
      PickSnoc(es, e, HostKey, k, UrlOf);
      ElemsSnoc(Pick(es, HostKey, k, UserOf), UserOf(e));
      ElemsSnoc(Pick(es, HostKey, k, UrlOf), UrlOf(e));
      CapStep(g.urls, Elems(Pick(es, HostKey, k, UrlOf)), UrlOf(e));
    }
    forall k | Pick(es, HostKey, k, IdOf) == [] ensures HostFit(NO_HOST, es, k) {
      PickBound(es, HostKey, k, UserOf);
      PickBound(es, HostKey, k, UrlOf);
    }
    StepGrouped(groups, WithHost(groups, e), es, e, HostKey, HostFit, NO_HOST);
  }

  lemma StepHourCounts(counts: map<int, int>, es: seq<LogEntry>, e: LogEntry)
    requires Grouped(counts, es, HourKey, CountFit)
    ensures Grouped(WithHourCount(counts, e), es + [e], HourKey, CountFit)
  {
    forall k ensures Pick(es + [e], HourKey, k, IdOf) == Pick(es, HourKey, k, IdOf) + (if HourKey(e) == Some(k) then [e.id] else []) {
      PickSnoc(es, e, HourKey, k, IdOf);
    }
    StepGrouped(counts, WithHourCount(counts, e), es, e, HourKey, CountFit, 0);
  }

  lemma StepHourActors(groups: map<(int, string), HourStats>, es: seq<LogEntry>, e: LogEntry)
    requires Grouped(groups, es, HourActorKey, HourFit)
    ensures Grouped(WithHourActor(groups, e), es + [e], HourActorKey, HourFit)
  {
    forall k, g | HourFit(g, es, k)
      ensures HourActorKey(e) != Some(k) ==> HourFit(g, es + [e], k)
      ensures HourActorKey(e) == Some(k) ==> HourFit(HourStep(g, e), es + [e], k)
    {
      PickSnoc(es, e, HourActorKey, k, IdOf);
      PickSnoc(es, e, HourActorKey, k, HostOf);
      ElemsSnoc(Pick(es, HourActorKey, k, HostOf), HostOf(e));
      CapStep(g.hosts, Elems(Pick(es, HourActorKey, k, HostOf)), HostOf(e));
    }
    forall k | Pick(es, HourActorKey, k, IdOf) == [] ensures HourFit(NO_HOUR, es, k) {
      PickBound(es, HourActorKey, k, HostOf);
    }
    StepGrouped(groups, WithHourActor(groups, e), es, e, HourActorKey, HourFit, NO_HOUR);
  }

  lemma StepDescribes(m: Maths, p: Aggregate, es: seq<LogEntry>, e: LogEntry)
    requires Describes(m, p, es)
    ensures Describes(m, Step(m, p, e), es + [e])
  {
    StepMinutes(p, es, e);
    StepUploads(m, p.userHost, es, e);
    PickSnoc(es, e, AnyUpload, (), LogBytesOf(m));
    StepFlows(p, es, e);
    StepThreats(p.threats, es, e);
    StepHosts(p.hosts, es, e);
    StepHourCounts(p.hourCounts, es, e);
    StepHourActors(p.hourActors, es, e);
  }

  /** The map of a shard describes the shard. */
  lemma {:induction false} MapDescribes(m: Maths, es: seq<LogEntry>)
    ensures Describes(m, MapOf(m, es), es)
  {
    if |es| > 0 {
      var front, e := es[..|es| - 1], es[|es| - 1];
      MapDescribes(m, front);
      StepDescribes(m, MapOf(m, front), front, e);
      assert es == front + [e];
    }
  }

  // --- Merging ---

  lemma MergeMinutes(a: Aggregate, b: Aggregate, xs: seq<LogEntry>, ys: seq<LogEntry>)
    requires Grouped(a.ipMinute, xs, MinuteKey, MinutesFit) && Grouped(b.ipMinute, ys, MinuteKey, MinutesFit)
    ensures Grouped(Join(a.ipMinute, b.ipMinute, [], Extend<int>), xs + ys, MinuteKey, MinutesFit)
  {
    forall k ensures Pick(xs + ys, MinuteKey, k, IdOf) == Pick(xs, MinuteKey, k, IdOf) + Pick(ys, MinuteKey, k, IdOf) {
      PickAppend(xs, ys, MinuteKey, k, IdOf);
    }
    JoinGrouped(a.ipMinute, b.ipMinute, xs, ys, MinuteKey, MinutesFit, [], Extend<int>);
  }

  lemma MergeFlows(a: Aggregate, b: Aggregate, xs: seq<LogEntry>, ys: seq<LogEntry>)
    requires Grouped(a.ipHostTimes, xs, FlowKey, HitsFit) && Grouped(b.ipHostTimes, ys, FlowKey, HitsFit)
    ensures Grouped(Join(a.ipHostTimes, b.ipHostTimes, [], Extend<(real, int)>), xs + ys, FlowKey, HitsFit)
  {
    forall k ensures Pick(xs + ys, FlowKey, k, HitOf) == Pick(xs, FlowKey, k, HitOf) + Pick(ys, FlowKey, k, HitOf) {
      PickAppend(xs, ys, FlowKey, k, HitOf);
    }
    forall k | Pick(xs, FlowKey, k, IdOf) == [] ensures HitsFit([], xs, k) {
      PickBound(xs, FlowKey, k, HitOf);
    }
    forall k, g | Pick(ys, FlowKey, k, IdOf) == [] && HitsFit(g, xs, k) ensures HitsFit(g, xs + ys, k) {
      PickIdle(xs, ys, FlowKey, k, HitOf);
    }
    JoinGrouped(a.ipHostTimes, b.ipHostTimes, xs, ys, FlowKey, HitsFit, [], Extend<(real, int)>);
  }

  lemma MergeUploads(m: Maths, a: Aggregate, b: Aggregate, xs: seq<LogEntry>, ys: seq<LogEntry>)
    requires Grouped(a.userHost, xs, UploadKey, BytesFitOf(m)) && Grouped(b.userHost, ys, UploadKey, BytesFitOf(m))
    ensures Grouped(Join(a.userHost, b.userHost, NO_BYTES, MergeBytes), xs + ys, UploadKey, BytesFitOf(m))
  {
    hide LogBytesOf;
    forall k, x, y | BytesFitOf(m)(x, xs, k) && BytesFitOf(m)(y, ys, k)
      ensures BytesFitOf(m)(MergeBytes(x, y), xs + ys, k)
    {
      PickAppend(xs, ys, UploadKey, k, IdOf);
      PickAppend(xs, ys, UploadKey, k, BytesOf);
      PickAppend(xs, ys, UploadKey, k, LogBytesOf(m));
      SumAppend(Pick(xs, UploadKey, k, BytesOf), Pick(ys, UploadKey, k, BytesOf));
    }
    forall k | Pick(xs, UploadKey, k, IdOf) == [] ensures BytesFitOf(m)(NO_BYTES, xs, k) {
      PickBound(xs, UploadKey, k, BytesOf);
      PickBound(xs, UploadKey, k, LogBytesOf(m));
    }
    forall k, g | Pick(ys, UploadKey, k, IdOf) == [] && BytesFitOf(m)(g, xs, k) ensures BytesFitOf(m)(g, xs + ys, k) {
      PickIdle(xs, ys, UploadKey, k, IdOf);
      PickIdle(xs, ys, UploadKey, k, BytesOf);
      PickIdle(xs, ys, UploadKey, k, LogBytesOf(m));
    }
    JoinGrouped(a.userHost, b.userHost, xs, ys, UploadKey, BytesFitOf(m), NO_BYTES, MergeBytes);
  }

  lemma MergeThreats(a: Aggregate, b: Aggregate, xs: seq<LogEntry>, ys: seq<LogEntry>)
    requires Grouped(a.threats, xs, ThreatKey, ThreatFit) && Grouped(b.threats, ys, ThreatKey, ThreatFit)
    ensures Grouped(Join(a.threats, b.threats, NO_THREAT, MergeThreat), xs + ys, ThreatKey, ThreatFit)
  {
    forall k, x, y | ThreatFit(x, xs, k) && ThreatFit(y, ys, k)
      ensures ThreatFit(MergeThreat(x, y), xs + ys, k)
    {
      PickAppend(xs, ys, ThreatKey, k, IdOf);
      PickAppend(xs, ys, ThreatKey, k, UserOf);
      PickAppend(xs, ys, ThreatKey, k, ActionOf);
      ElemsAppend(Pick(xs, ThreatKey, k, UserOf), Pick(ys, ThreatKey, k, UserOf));
      ElemsAppend(Pick(xs, ThreatKey, k, ActionOf), Pick(ys, ThreatKey, k, ActionOf));
    }
    forall k | Pick(xs, ThreatKey, k, IdOf) == [] ensures ThreatFit(NO_THREAT, xs, k) {
      PickBound(xs, ThreatKey, k, UserOf);
      PickBound(xs, ThreatKey, k, ActionOf);
    }
    forall k, g | Pick(ys, ThreatKey, k, IdOf) == [] && ThreatFit(g, xs, k) ensures ThreatFit(g, xs + ys, k) {
      PickIdle(xs, ys, ThreatKey, k, IdOf);
      PickIdle(xs, ys, ThreatKey, k, UserOf);
      PickIdle(xs, ys, ThreatKey, k, ActionOf);
    }
    JoinGrouped(a.threats, b.threats, xs, ys, ThreatKey, ThreatFit, NO_THREAT, MergeThreat);
  }

  lemma MergeHosts(pick: Chooser, a: Aggregate, b: Aggregate, xs: seq<LogEntry>, ys: seq<LogEntry>)
    requires ChoosesEight(pick)
    requires Grouped(a.hosts, xs, HostKey, HostFit) && Grouped(b.hosts, ys, HostKey, HostFit)
    ensures Grouped(Join(a.hosts, b.hosts, NO_HOST, HostMerger(pick)), xs + ys, HostKey, HostFit)
  {
    forall k, x, y | HostFit(x, xs, k) && HostFit(y, ys, k)
      ensures HostFit(HostMerger(pick)(x, y), xs + ys, k)
    {
      PickAppend(xs, ys, HostKey, k, IdOf);
      PickAppend(xs, ys, HostKey, k, UserOf);
      PickAppend(xs, ys, HostKey, k, UrlOf);
      ElemsAppend(Pick(xs, HostKey, k, UserOf), Pick(ys, HostKey, k, UserOf));
      ElemsAppend(Pick(xs, HostKey, k, UrlOf), Pick(ys, HostKey, k, UrlOf));
      CapMerge(pick, x.urls, y.urls, Elems(Pick(xs, HostKey, k, UrlOf)), Elems(Pick(ys, HostKey, k, UrlOf)));
    }
    forall k | Pick(xs, HostKey, k, IdOf) == [] ensures HostFit(NO_HOST, xs, k) {
      PickBound(xs, HostKey, k, UserOf);
      PickBound(xs, HostKey, k, UrlOf);
    }
    forall k, g | Pick(ys, HostKey, k, IdOf) == [] && HostFit(g, xs, k) ensures HostFit(g, xs + ys, k) {
      PickIdle(xs, ys, HostKey, k, IdOf);
      PickIdle(xs, ys, HostKey, k, UserOf);
      PickIdle(xs, ys, HostKey, k, UrlOf);
    }
    JoinGrouped(a.hosts, b.hosts, xs, ys, HostKey, HostFit, NO_HOST, HostMerger(pick));
  }

  lemma MergeHourCounts(a: Aggregate, b: Aggregate, xs: seq<LogEntry>, ys: seq<LogEntry>)
    requires Grouped(a.hourCounts, xs, HourKey, CountFit) && Grouped(b.hourCounts, ys, HourKey, CountFit)
    ensures Grouped(Join(a.hourCounts, b.hourCounts, 0, Plus), xs + ys, HourKey, CountFit)
  {
    forall k ensures Pick(xs + ys, HourKey, k, IdOf) == Pick(xs, HourKey, k, IdOf) + Pick(ys, HourKey, k, IdOf) {
      PickAppend(xs, ys, HourKey, k, IdOf);
    }
    JoinGrouped(a.hourCounts, b.hourCounts, xs, ys, HourKey, CountFit, 0, Plus);
  }

  lemma MergeHourActors(pick: Chooser, a: Aggregate, b: Aggregate, xs: seq<LogEntry>, ys: seq<LogEntry>)
    requires ChoosesEight(pick)
    requires Grouped(a.hourActors, xs, HourActorKey, HourFit) && Grouped(b.hourActors, ys, HourActorKey, HourFit)
    ensures Grouped(Join(a.hourActors, b.hourActors, NO_HOUR, HourMerger(pick)), xs + ys, HourActorKey, HourFit)
  {
    forall k, x, y | HourFit(x, xs, k) && HourFit(y, ys, k)
      ensures HourFit(HourMerger(pick)(x, y), xs + ys, k)
    {
      PickAppend(xs, ys, HourActorKey, k, IdOf);
      PickAppend(xs, ys, HourActorKey, k, HostOf);
      ElemsAppend(Pick(xs, HourActorKey, k, HostOf), Pick(ys, HourActorKey, k, HostOf));
      CapMerge(pick, x.hosts, y.hosts, Elems(Pick(xs, HourActorKey, k, HostOf)), Elems(Pick(ys, HourActorKey, k, HostOf)));
    }
    forall k | Pick(xs, HourActorKey, k, IdOf) == [] ensures HourFit(NO_HOUR, xs, k) {
      PickBound(xs, HourActorKey, k, HostOf);
    }
    forall k, g | Pick(ys, HourActorKey, k, IdOf) == [] && HourFit(g, xs, k) ensures HourFit(g, xs + ys, k) {
      PickIdle(xs, ys, HourActorKey, k, IdOf);
      PickIdle(xs, ys, HourActorKey, k, HostOf);
    }
    JoinGrouped(a.hourActors, b.hourActors, xs, ys, HourActorKey, HourFit, NO_HOUR, HourMerger(pick));
  }

  /** Merging the aggregates of two row sequences describes their concatenation, whatever the caps discard. */
  lemma MergeDescribes(m: Maths, pick: Chooser, a: Aggregate, b: Aggregate, xs: seq<LogEntry>, ys: seq<LogEntry>)
    requires Describes(m, a, xs) && Describes(m, b, ys) && ChoosesEight(pick)
    ensures Describes(m, Merge(pick, a, b), xs + ys)
  {
    MergeMinutes(a, b, xs, ys);
    MergeUploads(m, a, b, xs, ys);
    PickAppend(xs, ys, AnyUpload, (), LogBytesOf(m));
    MergeFlows(a, b, xs, ys);
    MergeThreats(a, b, xs, ys);
    MergeHosts(pick, a, b, xs, ys);
    MergeHourCounts(a, b, xs, ys);
    MergeHourActors(pick, a, b, xs, ys);
  }

  /** Each aggregate describes the shard at its position. */
  ghost predicate AllDescribe(m: Maths, ps: seq<Aggregate>, shards: seq<seq<LogEntry>>) {
    if |ps| == 0 || |shards| == 0 then |ps| == |shards|
    else
      var n, k := |ps| - 1, |shards| - 1;
      AllDescribe(m, ps[..n], shards[..k]) && Describes(m, ps[n], shards[k])
  }

  /** Applying a function that describes each shard describes them all. */
  lemma {:induction false} AllDescribeBy(m: Maths, shards: seq<seq<LogEntry>>, map': seq<LogEntry> -> Aggregate)
    requires forall shard :: Describes(m, map'(shard), shard)
    ensures AllDescribe(m, MapSeq(shards, map'), shards)
  {
    if |shards| > 0 {
      var n := |shards| - 1;
      AllDescribeBy(m, shards[..n], map');
      assert MapSeq(shards, map')[..n] == MapSeq(shards[..n], map');
    }
  }

  lemma EmptyDescribes(m: Maths)
    ensures Describes(m, EMPTY, [])
  {}

  /** Folding shard aggregates together describes the shards laid end to end. */
  lemma {:induction false} MergeAllDescribes(m: Maths, pick: Chooser, ps: seq<Aggregate>, shards: seq<seq<LogEntry>>)
    requires AllDescribe(m, ps, shards) && ChoosesEight(pick)
    ensures Describes(m, MergeAllOf(pick, ps), Flatten(shards))
  {
    if |ps| == 0 {
      EmptyDescribes(m);
    } else {
      var n := |ps| - 1;
      var front, rows := MergeAllOf(pick, ps[..n]), Flatten(shards[..|shards| - 1]);
      MergeAllDescribes(m, pick, ps[..n], shards[..|shards| - 1]);
      MergeDescribes(m, pick, front, ps[n], rows, shards[|shards| - 1]);
    }
  }
}
