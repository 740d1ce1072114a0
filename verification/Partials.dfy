/** The mutable partial a worker builds. `Table` is the dictionary of group objects that mapping and
    merging update in place, proved against a map of plain values; a `Partial` owns six of them. */
module Partials {
  import opened Common
  import opened LogEntries
  import opened Aggregates
  import opened Dictionaries
  import Readings

  /** One group object: a list, a counter, or one of the group records. */
  class Group<V> {
    var value: V

    constructor (value: V)
      ensures this.value == value
    {
      this.value := value;
    }
  }

  /** A dictionary of group objects. It owns its groups: none is shared with another key or another table. */
  class Table<K(==, !new), V> {
    var groups: map<K, Group<V>>
    ghost var contents: map<K, V>
    ghost var repr: set<object>

    ghost predicate Valid()
      reads this, repr
      ensures Valid() ==> this in repr
    {
      && this in repr
      && contents.Keys == groups.Keys
      && (forall k :: k in groups ==> groups[k] in repr && groups[k] as object != this && contents[k] == groups[k].value)
      && (forall k, l :: k in groups && l in groups && groups[k] == groups[l] ==> k == l)
    }

    ghost predicate IsNew()
      reads this, repr
    {
      Valid() && repr == {this} && contents == map[]
    }

    constructor ()
      ensures IsNew()
    {
      groups, contents := map[], map[];
      new;
      repr := {this};
    }

    /** The values of the groups as they are now. */
    function Items(): (items: map<K, V>)
      requires Valid()
      reads this, repr
      ensures items == contents
    {
      map k | k in groups :: groups[k].value
    }

    /** `setdefault(key, factory())`, then an in-place update of that group. */
    method Update(key: K, absent: V, step: V -> V)
      requires Valid()
      modifies repr
      ensures Valid() && fresh(repr - old(repr))
      ensures contents == old(contents)[key := step(Get(old(contents), key, absent))]
    {
      if key !in groups {
        var g := new Group(absent);
        groups := groups[key := g];
        repr := repr + {g};
      }
      var g := groups[key];
      g.value := step(g.value);
      contents := contents[key := g.value];
    }

    /** Fold every group of `other` into the group of the same key. `other` lies outside the frame. */
    method MergeFrom(other: Table<K, V>, absent: V, merge: (V, V) -> V)
      requires Valid() && other.Valid() && repr !! other.repr
      modifies repr
      ensures Valid() && fresh(repr - old(repr))
      ensures contents == Join(old(contents), other.contents, absent, merge)
    {
      var todo := other.groups.Keys;
      while todo != {}
        invariant todo <= other.groups.Keys
        invariant Valid() && fresh(repr - old(repr))
        invariant other.Valid() && repr !! other.repr
        invariant contents == Join(old(contents), other.contents - todo, absent, merge)
        decreases todo
      {
        var key :| key in todo;
        var value := other.groups[key].value;
        JoinOneMore(old(contents), other.contents, absent, merge, todo, key);
        Update(key, absent, mine => merge(mine, value));
        todo := todo - {key};
      }
      assert other.contents - todo == other.contents;
    }
  }

  /** Hours' counts are plain numbers, added key by key. */
  method AddCounts<K(==)>(into: map<K, int>, counts: map<K, int>) returns (sum: map<K, int>)
    ensures sum == Join(into, counts, 0, Plus)
  {
    sum := into;
    var todo := counts.Keys;
    while todo != {}
      invariant todo <= counts.Keys && sum == Join(into, counts - todo, 0, Plus)
      decreases todo
    {
      var hour :| hour in todo;
      JoinOneMore(into, counts, 0, Plus, todo, hour);
      sum := sum[hour := Get(sum, hour, 0) + counts[hour]];
      todo := todo - {hour};
    }
    assert counts - todo == counts;
  }

  /** Aggregates of one shard. No group object is shared between two of its dictionaries, or with another partial. */
  class Partial {
    const ipMinute: Table<(string, int), seq<int>>
    const userHost: Table<(string, string), ByteStats>
    const ipHostTimes: Table<(string, string), seq<(real, int)>>
    const threats: Table<(string, string), ThreatStats>
    const hosts: Table<string, HostStats>
    const hourActors: Table<(int, string), HourStats>
    var reqByteLogs: seq<real>
    var hourCounts: map<int, int>
    var entriesSeen: int
    ghost var repr: set<object>

    ghost predicate Valid()
      reads this, repr
      ensures Valid() ==> this in repr
    {
      && this in repr && ipMinute in repr && userHost in repr && ipHostTimes in repr && threats in repr && hosts in repr && hourActors in repr
      && ipMinute.repr <= repr && this !in ipMinute.repr && ipMinute.Valid()
      && userHost.repr <= repr && this !in userHost.repr && userHost.Valid()
      && ipHostTimes.repr <= repr && this !in ipHostTimes.repr && ipHostTimes.Valid()
      && threats.repr <= repr && this !in threats.repr && threats.Valid()
      && hosts.repr <= repr && this !in hosts.repr && hosts.Valid()
      && hourActors.repr <= repr && this !in hourActors.repr && hourActors.Valid()
      && ipMinute.repr !! userHost.repr && ipMinute.repr !! ipHostTimes.repr && ipMinute.repr !! threats.repr && ipMinute.repr !! hosts.repr && ipMinute.repr !! hourActors.repr
      && userHost.repr !! ipHostTimes.repr && userHost.repr !! threats.repr && userHost.repr !! hosts.repr && userHost.repr !! hourActors.repr
      && ipHostTimes.repr !! threats.repr && ipHostTimes.repr !! hosts.repr && ipHostTimes.repr !! hourActors.repr
      && threats.repr !! hosts.repr && threats.repr !! hourActors.repr
      && hosts.repr !! hourActors.repr
    }

    /** The view takes each table's contents. */
    lemma OwnsTables()
      requires Valid()
      ensures ipMinute.Valid() && ipMinute.repr <= repr && View().ipMinute == ipMinute.contents
      ensures userHost.Valid() && userHost.repr <= repr && View().userHost == userHost.contents
      ensures ipHostTimes.Valid() && ipHostTimes.repr <= repr && View().ipHostTimes == ipHostTimes.contents
      ensures threats.Valid() && threats.repr <= repr && View().threats == threats.contents
      ensures hosts.Valid() && hosts.repr <= repr && View().hosts == hosts.contents
      ensures hourActors.Valid() && hourActors.repr <= repr && View().hourActors == hourActors.contents
    {}

    /** A partial of six fresh dictionaries. */
    constructor (ipMinute: Table<(string, int), seq<int>>, userHost: Table<(string, string), ByteStats>,
                 ipHostTimes: Table<(string, string), seq<(real, int)>>, threats: Table<(string, string), ThreatStats>,
                 hosts: Table<string, HostStats>, hourActors: Table<(int, string), HourStats>)
      requires ipMinute.IsNew() && userHost.IsNew() && ipHostTimes.IsNew() && threats.IsNew() && hosts.IsNew() && hourActors.IsNew()
      requires NoDup<object>([ipMinute, userHost, ipHostTimes, threats, hosts, hourActors])
      ensures Valid() && View() == EMPTY
      ensures forall o :: o in repr ==> o == this || o == ipMinute || o == userHost || o == ipHostTimes || o == threats || o == hosts || o == hourActors
    {
      this.ipMinute, this.userHost, this.ipHostTimes := ipMinute, userHost, ipHostTimes;
      this.threats, this.hosts, this.hourActors := threats, hosts, hourActors;
      reqByteLogs, hourCounts, entriesSeen := [], map[], 0;
      repr := {this, ipMinute, userHost, ipHostTimes, threats, hosts, hourActors};
      new;
      ghost var tables: seq<object> := [ipMinute, userHost, ipHostTimes, threats, hosts, hourActors];
      assert forall i, j :: 0 <= i < j < 6 ==> tables[i] != tables[j];
    }

    function View(): (view: Aggregate)
      requires Valid()
      reads this, repr
      ensures view.reqByteLogs == reqByteLogs && view.hourCounts == hourCounts && view.entriesSeen == entriesSeen
    {
      Aggregate(ipMinute.Items(), userHost.Items(), reqByteLogs, ipHostTimes.Items(), threats.Items(),
                hosts.Items(), hourCounts, hourActors.Items(), entriesSeen)
    }

    /** One pass of the mapping loop. */
    method Add(m: Maths, e: LogEntry)
      requires Valid()
      modifies repr
      ensures Valid() && fresh(repr - old(repr))
      ensures View() == Step(m, old(View()), e)
    {
      hide Table.Valid, Valid, View;
      AddSeen(1);
      AddTraffic(m, e);
      AddNames(e);
    }

    /** Requests a minute, upload sizes and times of contact. */
    method AddTraffic(m: Maths, e: LogEntry)
      requires Valid()
      modifies repr
      ensures Valid() && fresh(repr - old(repr))
      ensures var was, all := old(View()), Step(m, old(View()), e);
        View() == was.(ipMinute := all.ipMinute, userHost := all.userHost, reqByteLogs := all.reqByteLogs, ipHostTimes := all.ipHostTimes)
    {
      hide Table.Valid, Valid, View;
      AddMinute(e);
      AddLogs(if IsUpload(e) then OptionSeq(LogBytes(m, e)) else []);
      AddTransfer(m, e);
      AddFlow(e);
    }

    /** Threats, hosts and hours. */
    method AddNames(e: LogEntry)
      requires Valid()
      modifies repr
      ensures Valid() && fresh(repr - old(repr))
      ensures var was := old(View());
        View() == was.(threats := WithThreat(was.threats, e), hosts := WithHost(was.hosts, e),
                       hourCounts := WithHourCount(was.hourCounts, e), hourActors := WithHourActor(was.hourActors, e))
    {
      hide Table.Valid, Valid, View;
      AddThreat(e);
      AddHost(e);
      AddHour(e);
      AddActivity(e);
    }

    method AddMinute(e: LogEntry)
      requires Valid()
      modifies repr
      ensures Valid() && fresh(repr - old(repr))
      ensures View() == old(View()).(ipMinute := AppendAt(old(View().ipMinute), MinuteKey(e), IdOf(e)))
    {
      hide Table.Valid;
      if Truthy(e.clientIp) && e.ts.Some? {
        ipMinute.Update((e.clientIp.value, MinuteEpoch(e.ts.value)), [], ids => ids + [e.id]);
        repr := repr + ipMinute.repr;
      }
    }

    method AddFlow(e: LogEntry)
      requires Valid()
      modifies repr
      ensures Valid() && fresh(repr - old(repr))
      ensures View() == old(View()).(ipHostTimes := AppendAt(old(View().ipHostTimes), FlowKey(e), HitOf(e)))
    {
      hide Table.Valid;
      if Truthy(e.clientIp) && e.ts.Some? && Truthy(e.host) {
        ipHostTimes.Update((e.clientIp.value, e.host.value), [], hits => hits + [(Seconds(e.ts.value), e.id)]);
        repr := repr + ipHostTimes.repr;
      }
    }

    method AddTransfer(m: Maths, e: LogEntry)
      requires Valid()
      modifies repr
      ensures Valid() && fresh(repr - old(repr))
      ensures View() == old(View()).(userHost := WithUpload(m, old(View().userHost), e))
    {
      hide Table.Valid;
      if IsUpload(e) {
        userHost.Update((OrUnknown(e.username), OrUnknown(e.host)), NO_BYTES, g => ByteStep(m, g, e));
        repr := repr + userHost.repr;
      }
    }

    method AddThreat(e: LogEntry)
      requires Valid()
      modifies repr
      ensures Valid() && fresh(repr - old(repr))
      ensures View() == old(View()).(threats := WithThreat(old(View().threats), e))
    {
      hide Table.Valid;
      if Truthy(e.threatName) {
        threats.Update((e.threatName.value, OrUnknown(e.host)), NO_THREAT, g => ThreatStep(g, e));
        repr := repr + threats.repr;
      }
    }

    method AddHost(e: LogEntry)
      requires Valid()
      modifies repr
      ensures Valid() && fresh(repr - old(repr))
      ensures View() == old(View()).(hosts := WithHost(old(View().hosts), e))
    {
      hide Table.Valid;
      if Truthy(e.host) {
        hosts.Update(e.host.value, NO_HOST, g => HostStep(g, e));
        repr := repr + hosts.repr;
      }
    }

    method AddActivity(e: LogEntry)
      requires Valid()
      modifies repr
      ensures Valid() && fresh(repr - old(repr))
      ensures View() == old(View()).(hourActors := WithHourActor(old(View().hourActors), e))
    {
      hide Table.Valid;
      if e.ts.Some? {
        hourActors.Update((HourOfDay(e.ts.value), Actor(e)), NO_HOUR, g => HourStep(g, e));
        repr := repr + hourActors.repr;
      }
    }

    method AddHour(e: LogEntry)
      requires Valid()
      modifies this`hourCounts
      ensures Valid() && View() == old(View()).(hourCounts := WithHourCount(old(hourCounts), e))
    {
      hide Table.Valid;
      if e.ts.Some? {
        var hour := HourOfDay(e.ts.value);
        hourCounts := hourCounts[hour := Get(hourCounts, hour, 0) + 1];
      }
    }

    method AddSeen(n: int)
      requires Valid()
      modifies this`entriesSeen
      ensures Valid() && View() == old(View()).(entriesSeen := old(entriesSeen) + n)
    {
      hide Table.Valid;
      entriesSeen := entriesSeen + n;
    }

    method AddLogs(logs: seq<real>)
      requires Valid()
      modifies this`reqByteLogs
      ensures Valid() && View() == old(View()).(reqByteLogs := old(reqByteLogs) + logs)
    {
      hide Table.Valid;
      reqByteLogs := reqByteLogs + logs;
    }

    /** Fold another shard's aggregates in, group by group. The other partial keeps its value, and no object of it
        ends up in this one. */
    method Merge(pick: Chooser, other: Partial)
      requires Valid() && other.Valid() && repr !! other.repr
      modifies repr
      ensures Valid() && fresh(repr - old(repr))
      ensures other.Valid() && other.repr == old(other.repr) && repr !! other.repr
      ensures other.View() == old(other.View())
      ensures View() == Aggregates.Merge(pick, old(View()), other.View())
    {
      hide Table.Valid, Valid, View, Join;
      MergeTraffic(other);
      MergeNames(pick, other);
      AddSeen(other.entriesSeen);
    }

    method MergeUploads(other: Partial)
      requires Valid() && other.Valid() && repr !! other.repr
      modifies repr
      ensures Valid() && fresh(repr - old(repr))
      ensures other.Valid() && other.repr == old(other.repr) && repr !! other.repr && other.View() == old(other.View())
      ensures var was, more := old(View()), other.View();
        View() == was.(userHost := Join(was.userHost, more.userHost, NO_BYTES, MergeBytes),
                       reqByteLogs := was.reqByteLogs + more.reqByteLogs)
    {
      hide Table.Valid, Valid, View, Join;
      other.OwnsTables();
      MergeTransfers(other.userHost);
      AddLogs(other.reqByteLogs);
    }

    method MergeTraffic(other: Partial)
      requires Valid() && other.Valid() && repr !! other.repr
      modifies repr
      ensures Valid() && fresh(repr - old(repr))
      ensures other.Valid() && other.repr == old(other.repr) && repr !! other.repr && other.View() == old(other.View())
      ensures var was, more := old(View()), other.View();
        View() == was.(ipMinute := Join(was.ipMinute, more.ipMinute, [], Extend<int>),
                       userHost := Join(was.userHost, more.userHost, NO_BYTES, MergeBytes),
                       reqByteLogs := was.reqByteLogs + more.reqByteLogs,
                       ipHostTimes := Join(was.ipHostTimes, more.ipHostTimes, [], Extend<(real, int)>))
    {
      hide Table.Valid, Valid, View, Join;
      other.OwnsTables();
      MergeMinutes(other.ipMinute);
      MergeUploads(other);
      other.OwnsTables();
      MergeFlows(other.ipHostTimes);
    }

    method MergeNamed(pick: Chooser, other: Partial)
      requires Valid() && other.Valid() && repr !! other.repr
      modifies repr
      ensures Valid() && fresh(repr - old(repr))
      ensures other.Valid() && other.repr == old(other.repr) && repr !! other.repr && other.View() == old(other.View())
      ensures var was, more := old(View()), other.View();
        View() == was.(threats := Join(was.threats, more.threats, NO_THREAT, MergeThreat),
                       hosts := Join(was.hosts, more.hosts, NO_HOST, HostMerger(pick)))
    {
      hide Table.Valid, Valid, View, Join;
      other.OwnsTables();
      MergeThreats(other.threats);
      other.OwnsTables();
      MergeHosts(pick, other.hosts);
    }

    method MergeHours(pick: Chooser, other: Partial)
      requires Valid() && other.Valid() && repr !! other.repr
      modifies repr
      ensures Valid() && fresh(repr - old(repr))
      ensures other.Valid() && other.repr == old(other.repr) && repr !! other.repr && other.View() == old(other.View())
      ensures var was, more := old(View()), other.View();
        View() == was.(hourCounts := Join(was.hourCounts, more.hourCounts, 0, Plus),
                       hourActors := Join(was.hourActors, more.hourActors, NO_HOUR, HourMerger(pick)))
    {
      hide Table.Valid, Valid, View, Join;
      other.OwnsTables();
      MergeCounts(other.hourCounts);
      other.OwnsTables();
      MergeActors(pick, other.hourActors);
    }

    method MergeNames(pick: Chooser, other: Partial)
      requires Valid() && other.Valid() && repr !! other.repr
      modifies repr
      ensures Valid() && fresh(repr - old(repr))
      ensures other.Valid() && other.repr == old(other.repr) && repr !! other.repr && other.View() == old(other.View())
      ensures var was, more := old(View()), other.View();
        View() == was.(threats := Join(was.threats, more.threats, NO_THREAT, MergeThreat),
                       hosts := Join(was.hosts, more.hosts, NO_HOST, HostMerger(pick)),
                       hourCounts := Join(was.hourCounts, more.hourCounts, 0, Plus),
                       hourActors := Join(was.hourActors, more.hourActors, NO_HOUR, HourMerger(pick)))
    {
      hide Table.Valid, Valid, View, Join;
      MergeNamed(pick, other);
      MergeHours(pick, other);
    }

    method MergeMinutes(from: Table<(string, int), seq<int>>)
      requires Valid() && from.Valid() && repr !! from.repr
      modifies repr
      ensures Valid() && fresh(repr - old(repr))
      ensures View() == old(View()).(ipMinute := Join(old(View().ipMinute), from.contents, [], Extend<int>))
    {
      hide Table.Valid;
      ipMinute.MergeFrom(from, [], Extend<int>);
      repr := repr + ipMinute.repr;
    }

    method MergeTransfers(from: Table<(string, string), ByteStats>)
      requires Valid() && from.Valid() && repr !! from.repr
      modifies repr
      ensures Valid() && fresh(repr - old(repr))
      ensures View() == old(View()).(userHost := Join(old(View().userHost), from.contents, NO_BYTES, MergeBytes))
    {
      hide Table.Valid;
      userHost.MergeFrom(from, NO_BYTES, MergeBytes);
      repr := repr + userHost.repr;
    }

    method MergeFlows(from: Table<(string, string), seq<(real, int)>>)
      requires Valid() && from.Valid() && repr !! from.repr
      modifies repr
      ensures Valid() && fresh(repr - old(repr))
      ensures View() == old(View()).(ipHostTimes := Join(old(View().ipHostTimes), from.contents, [], Extend<(real, int)>))
    {
      hide Table.Valid;
      ipHostTimes.MergeFrom(from, [], Extend<(real, int)>);
      repr := repr + ipHostTimes.repr;
    }

    method MergeThreats(from: Table<(string, string), ThreatStats>)
      requires Valid() && from.Valid() && repr !! from.repr
      modifies repr
      ensures Valid() && fresh(repr - old(repr))
      ensures View() == old(View()).(threats := Join(old(View().threats), from.contents, NO_THREAT, MergeThreat))
    {
      hide Table.Valid;
      threats.MergeFrom(from, NO_THREAT, MergeThreat);
      repr := repr + threats.repr;
    }

    method MergeHosts(pick: Chooser, from: Table<string, HostStats>)
      requires Valid() && from.Valid() && repr !! from.repr
      modifies repr
      ensures Valid() && fresh(repr - old(repr))
      ensures View() == old(View()).(hosts := Join(old(View().hosts), from.contents, NO_HOST, HostMerger(pick)))
    {
      hide Table.Valid;
      hosts.MergeFrom(from, NO_HOST, HostMerger(pick));
      repr := repr + hosts.repr;
    }

    method MergeActors(pick: Chooser, from: Table<(int, string), HourStats>)
      requires Valid() && from.Valid() && repr !! from.repr
      modifies repr
      ensures Valid() && fresh(repr - old(repr))
      ensures View() == old(View()).(hourActors := Join(old(View().hourActors), from.contents, NO_HOUR, HourMerger(pick)))
    {
      hide Table.Valid;
      hourActors.MergeFrom(from, NO_HOUR, HourMerger(pick));
      repr := repr + hourActors.repr;
    }

    method MergeCounts(counts: map<int, int>)
      requires Valid()
      modifies this`hourCounts
      ensures Valid() && View() == old(View()).(hourCounts := Join(old(hourCounts), counts, 0, Plus))
    {
      hide Table.Valid;
      hourCounts := AddCounts(hourCounts, counts);
    }
  }

  lemma SixDistinct<T>(xs: seq<T>)
    requires |xs| == 6 && xs[5] !in xs[..5] && xs[4] !in xs[..4] && xs[3] !in xs[..3] && xs[2] !in xs[..2] && xs[1] != xs[0]
    ensures NoDup(xs)
  {
    forall i, j | 0 <= i < j < 6 ensures xs[i] != xs[j] {
      assert xs[i] in xs[..j];
    }
  }

  method EmptyTables() returns (
      ipMinute: Table<(string, int), seq<int>>, userHost: Table<(string, string), ByteStats>,
      ipHostTimes: Table<(string, string), seq<(real, int)>>, threats: Table<(string, string), ThreatStats>,
      hosts: Table<string, HostStats>, hourActors: Table<(int, string), HourStats>)
    ensures ipMinute.IsNew() && userHost.IsNew() && ipHostTimes.IsNew() && threats.IsNew() && hosts.IsNew() && hourActors.IsNew()
    ensures fresh(ipMinute) && fresh(userHost) && fresh(ipHostTimes) && fresh(threats) && fresh(hosts) && fresh(hourActors)
    ensures NoDup<object>([ipMinute, userHost, ipHostTimes, threats, hosts, hourActors])
  {
    hide Table.IsNew, NoDup;
    ipMinute := new Table();
    userHost := new Table();
    ipHostTimes := new Table();
    threats := new Table();
    hosts := new Table();
    hourActors := new Table();
    SixDistinct<object>([ipMinute, userHost, ipHostTimes, threats, hosts, hourActors]);
  }

  method EmptyPartial() returns (p: Partial)
    ensures p.Valid() && fresh(p.repr) && p.View() == EMPTY
  {
    hide Table.IsNew, NoDup, Partial.Valid, Partial.View;
    var ipMinute, userHost, ipHostTimes, threats, hosts, hourActors := EmptyTables();
    p := new Partial(ipMinute, userHost, ipHostTimes, threats, hosts, hourActors);
  }

  /** The partial of a shard: the mapping loop over its entries. */
  method MapShard(m: Maths, entries: seq<LogEntry>) returns (p: Partial)
    ensures p.Valid() && fresh(p.repr) && p.View() == MapOf(m, entries)
    ensures Readings.Reads(m, p.View(), entries)
  {
    hide Step, Readings.Reads;
    Readings.MapReads(m, entries);
    p := EmptyPartial();
    for i := 0 to |entries|
      invariant p.Valid() && fresh(p.repr) && p.View() == MapOf(m, entries[..i])
    {
      assert entries[..i + 1][..i] == entries[..i];
      p.Add(m, entries[i]);
    }
    assert entries[..|entries|] == entries;
  }

  ghost function Reprs(partials: seq<Partial>): set<object>
    reads partials
  {
    set i, o | 0 <= i < |partials| && o in partials[i].repr :: o
  }

  ghost predicate AllValid(partials: seq<Partial>)
    reads partials, Reprs(partials)
  {
    forall i :: 0 <= i < |partials| ==> partials[i].Valid()
  }

  function Views(partials: seq<Partial>): (r: seq<Aggregate>)
    requires AllValid(partials)
    reads partials, Reprs(partials)
    ensures |r| == |partials|
  {
    seq(|partials|, i requires 0 <= i < |partials| && AllValid(partials) reads partials, Reprs(partials) => partials[i].View())
  }

  lemma MergeNone(pick: Chooser)
    ensures MergeAllOf(pick, []) == EMPTY
  {}

  lemma MergeNext(pick: Chooser, views: seq<Aggregate>, i: nat)
    requires i < |views|
    ensures MergeAllOf(pick, views[..i + 1]) == Merge(pick, MergeAllOf(pick, views[..i]), views[i])
  {
    hide Merge;
    assert views[..i + 1][..i] == views[..i];
  }

  /** Combine shard aggregates into one, leaving each of them as it was and sharing no object with any. */
  method MergeAll(pick: Chooser, partials: seq<Partial>) returns (combined: Partial)
    requires AllValid(partials)
    ensures combined.Valid() && fresh(combined.repr)
    ensures AllValid(partials) && Views(partials) == old(Views(partials))
    ensures combined.View() == MergeAllOf(pick, Views(partials))
  {
    hide Merge, MergeAllOf, Partial.Valid, Partial.View;
    combined := EmptyPartial();
    ghost var views := Views(partials);
    MergeNone(pick);
    for i := 0 to |partials|
      invariant combined.Valid() && fresh(combined.repr)
      invariant AllValid(partials) && Views(partials) == views
      invariant combined.View() == MergeAllOf(pick, views[..i])
    {
      MergeNext(pick, views, i);
      assert partials[i].View() == views[i];
      combined.Merge(pick, partials[i]);
    }
    assert views[..|partials|] == views;
  }
}
