/** What the groups of an aggregate are, read off the fields of the rows: which rows belong to a group, and what is kept of
    them. Nothing here goes through the keys the mapping loop computes. */
module Readings {
  import opened Common
  import opened LogEntries
  import opened Aggregates
  import opened Describing

  // --- Rows and their fields ---

  /** The values of the rows that belong, in row order. */
  ghost function Through<T>(es: seq<LogEntry>, belongs: LogEntry -> bool, value: LogEntry -> T): (r: seq<T>)
    ensures |r| <= |es|
  {
    if |es| == 0 then []
    else
      var front, e := Through(es[..|es| - 1], belongs, value), es[|es| - 1];
      if belongs(e) then front + [value(e)] else front
  }

  ghost predicate AnyRow(es: seq<LogEntry>, belongs: LogEntry -> bool) {
    exists i :: 0 <= i < |es| && belongs(es[i])
  }

  /** A field that holds a name, the empty string not being one. */
  predicate Names(field: Option<string>, name: string) {
    field == Some(name) && name != ""
  }

  /** A field that holds a name, or "unknown" in place of a missing or empty one. */
  predicate NamesOrUnknown(field: Option<string>, name: string) {
    if field == None || field == Some("") then name == "unknown" else field == Some(name)
  }

  /** Someone is known by user name, else by address, else not at all. */
  predicate ActedAs(e: LogEntry, actor: string) {
    if e.username == None || e.username == Some("") then NamesOrUnknown(e.clientIp, actor) else e.username == Some(actor)
  }

  /** The minute from second `start` on, which is a whole minute. */
  predicate InMinute(e: LogEntry, ip: string, start: int) {
    Names(e.clientIp, ip) && e.ts.Some? && start % 60 == 0 && start * 1_000_000 <= e.ts.value < (start + 60) * 1_000_000
  }

  predicate InDayHour(ts: int, day: int, hour: int) {
    (day * 24 + hour) * 3600 * 1_000_000 <= ts < (day * 24 + hour + 1) * 3600 * 1_000_000
  }

  /** Some day's hour from 0 to 23. */
  ghost predicate AtHour(e: LogEntry, hour: int) {
    e.ts.Some? && 0 <= hour < 24 && exists day :: InDayHour(e.ts.value, day, hour)
  }

  predicate Sends(e: LogEntry) {
    e.reqBytes.Some? && e.reqBytes.value > 0
  }

  ghost function MinuteRows(ip: string, start: int): LogEntry -> bool {
    (e: LogEntry) => InMinute(e, ip, start)
  }

  ghost function UploadRows(user: string, host: string): LogEntry -> bool {
    (e: LogEntry) => Sends(e) && NamesOrUnknown(e.username, user) && NamesOrUnknown(e.host, host)
  }

  ghost function FlowRows(ip: string, host: string): LogEntry -> bool {
    (e: LogEntry) => Names(e.clientIp, ip) && Names(e.host, host) && e.ts.Some?
  }

  ghost function ThreatRows(threat: string, host: string): LogEntry -> bool {
    (e: LogEntry) => Names(e.threatName, threat) && NamesOrUnknown(e.host, host)
  }

  ghost function HostRows(host: string): LogEntry -> bool {
    (e: LogEntry) => Names(e.host, host)
  }

  ghost function HourRows(hour: int): LogEntry -> bool {
    (e: LogEntry) => AtHour(e, hour)
  }

  ghost function ActorRows(hour: int, actor: string): LogEntry -> bool {
    (e: LogEntry) => AtHour(e, hour) && ActedAs(e, actor)
  }

  function RowId(e: LogEntry): int {
    e.id
  }

  function Sent(e: LogEntry): int {
    if e.reqBytes.Some? then e.reqBytes.value else 0
  }

  function LogSent(m: Maths): LogEntry -> real {
    (e: LogEntry) => m.log10(Sent(e) as real)
  }

  function TheUser(e: LogEntry): Option<string> {
    e.username
  }

  function TheAction(e: LogEntry): Option<string> {
    e.action
  }

  function TheUrl(e: LogEntry): Option<string> {
    e.url
  }

  function TheHost(e: LogEntry): Option<string> {
    e.host
  }

  /** When, in seconds, and which row. */
  function When(e: LogEntry): (real, int) {
    (if e.ts.Some? then e.ts.value as real / 1_000_000.0 else 0.0, e.id)
  }

  /** The names a field holds in the rows that belong. */
  ghost predicate NamesIn(names: set<string>, es: seq<LogEntry>, belongs: LogEntry -> bool, field: LogEntry -> Option<string>) {
    forall name :: name in names <==> exists i :: 0 <= i < |es| && belongs(es[i]) && Names(field(es[i]), name)
  }

  /** Some of those names, and all of them unless there are more than eight. */
  ghost predicate UpToEight(names: set<string>, es: seq<LogEntry>, belongs: LogEntry -> bool, field: LogEntry -> Option<string>) {
    exists all :: NamesIn(all, es, belongs, field) && names <= all && (|all| <= 8 ==> names == all)
  }

  /** A row in which the actor met the host in one of the hours. */
  ghost predicate MetBy(es: seq<LogEntry>, actor: string, hours: seq<int>, host: string) {
    exists i, hour :: 0 <= i < |es| && hour in hours && AtHour(es[i], hour) && ActedAs(es[i], actor) && Names(es[i].host, host)
  }

  /** No actor met more than eight hosts in an hour of day. */
  ghost predicate FewHosts(es: seq<LogEntry>) {
    forall hour, actor, names :: NamesIn(names, es, ActorRows(hour, actor), TheHost) ==> |names| <= 8
  }

  // --- What an aggregate is ---

  ghost predicate MinutesRead(g: map<(string, int), seq<int>>, es: seq<LogEntry>) {
    && (forall ip, start :: (ip, start) in g <==> AnyRow(es, MinuteRows(ip, start)))
    && (forall ip, start :: (ip, start) in g ==> g[(ip, start)] == Through(es, MinuteRows(ip, start), RowId))
  }

  ghost predicate UploadsRead(m: Maths, g: map<(string, string), ByteStats>, es: seq<LogEntry>) {
    && (forall user, host :: (user, host) in g <==> AnyRow(es, UploadRows(user, host)))
    && (forall user, host :: (user, host) in g ==>
          var rows, stats := UploadRows(user, host), g[(user, host)];
          && stats.ids == Through(es, rows, RowId) && stats.totalBytes == Sum(Through(es, rows, Sent))
          && stats.logValues == Through(es, rows, LogSent(m)))
  }

  ghost predicate FlowsRead(g: map<(string, string), seq<(real, int)>>, es: seq<LogEntry>) {
    && (forall ip, host :: (ip, host) in g <==> AnyRow(es, FlowRows(ip, host)))
    && (forall ip, host :: (ip, host) in g ==> g[(ip, host)] == Through(es, FlowRows(ip, host), When))
  }

  ghost predicate ThreatsRead(g: map<(string, string), ThreatStats>, es: seq<LogEntry>) {
    && (forall threat, host :: (threat, host) in g <==> AnyRow(es, ThreatRows(threat, host)))
    && (forall threat, host :: (threat, host) in g ==>
          var rows, stats := ThreatRows(threat, host), g[(threat, host)];
          && stats.ids == Through(es, rows, RowId)
          && NamesIn(stats.users, es, rows, TheUser)
          && NamesIn(stats.actions, es, rows, TheAction))
  }

  ghost predicate HostsRead(g: map<string, HostStats>, es: seq<LogEntry>) {
    && (forall host :: host in g <==> AnyRow(es, HostRows(host)))
    && (forall host :: host in g ==>
          && g[host].ids == Through(es, HostRows(host), RowId)
          && NamesIn(g[host].users, es, HostRows(host), TheUser)
          && UpToEight(g[host].urls, es, HostRows(host), TheUrl))
  }

  ghost predicate HoursRead(g: map<int, int>, es: seq<LogEntry>) {
    && (forall hour :: hour in g <==> AnyRow(es, HourRows(hour)))
    && (forall hour :: hour in g ==> g[hour] == |Through(es, HourRows(hour), RowId)|)
  }

  ghost predicate ActorsRead(g: map<(int, string), HourStats>, es: seq<LogEntry>) {
    && (forall hour, actor :: (hour, actor) in g <==> AnyRow(es, ActorRows(hour, actor)))
    && (forall hour, actor :: (hour, actor) in g ==>
          && g[(hour, actor)].ids == Through(es, ActorRows(hour, actor), RowId)
          && UpToEight(g[(hour, actor)].hosts, es, ActorRows(hour, actor), TheHost))
  }

  ghost predicate Reads(m: Maths, p: Aggregate, es: seq<LogEntry>) {
    && MinutesRead(p.ipMinute, es) && UploadsRead(m, p.userHost, es)
    && p.reqByteLogs == Through(es, Sends, LogSent(m))
    && FlowsRead(p.ipHostTimes, es) && ThreatsRead(p.threats, es) && HostsRead(p.hosts, es)
    && HoursRead(p.hourCounts, es) && ActorsRead(p.hourActors, es) && p.entriesSeen == |es|
  }

  // --- From keys to fields ---

  lemma {:induction false} PickThrough<K, T>(
      es: seq<LogEntry>, key: LogEntry -> Option<K>, k: K, val: LogEntry -> Option<T>, belongs: LogEntry -> bool, value: LogEntry -> T)
    requires forall e :: key(e) == Some(k) <==> belongs(e)
    requires forall e :: belongs(e) ==> val(e) == Some(value(e))
    ensures Pick(es, key, k, val) == Through(es, belongs, value)
  {
    if |es| > 0 {
      var front, e := es[..|es| - 1], es[|es| - 1];
      PickThrough(front, key, k, val, belongs, value);
      assert es == front + [e];
      PickSnoc(front, e, key, k, val);
    }
  }

  lemma {:induction false} ThroughSome<T>(es: seq<LogEntry>, belongs: LogEntry -> bool, value: LogEntry -> T)
    ensures Through(es, belongs, value) != [] <==> AnyRow(es, belongs)
  {
    if |es| > 0 {
      var front, e := es[..|es| - 1], es[|es| - 1];
      ThroughSome(front, belongs, value);
      if AnyRow(front, belongs) {
        var i :| 0 <= i < |front| && belongs(front[i]);
        assert belongs(es[i]);
      }
    }
  }

  lemma PickNames<K>(es: seq<LogEntry>, key: LogEntry -> Option<K>, k: K, val: LogEntry -> Option<string>,
                     belongs: LogEntry -> bool, field: LogEntry -> Option<string>)
    requires forall e :: key(e) == Some(k) <==> belongs(e)
    requires forall e, name :: val(e) == Some(name) <==> Names(field(e), name)
    ensures NamesIn(Elems(Pick(es, key, k, val)), es, belongs, field)
  {
    forall name ensures name in Elems(Pick(es, key, k, val)) <==> exists i :: 0 <= i < |es| && belongs(es[i]) && Names(field(es[i]), name) {
      CollectMember(es, At(key, k, val), name);
      if i :| 0 <= i < |es| && belongs(es[i]) && Names(field(es[i]), name) {
        assert At(key, k, val)(es[i]) == Some(name);
      }
      if name in Pick(es, key, k, val) {
        var i :| 0 <= i < |es| && At(key, k, val)(es[i]) == Some(name);
        assert belongs(es[i]) && Names(field(es[i]), name);
      }
    }
  }

  lemma MinuteIff(ts: int, start: int)
    ensures start == MinuteEpoch(ts) <==> start % 60 == 0 && start * 1_000_000 <= ts < (start + 60) * 1_000_000
  {
    var n := ts / 60_000_000;
    assert n * 60_000_000 <= ts < (n + 1) * 60_000_000;
    if start % 60 == 0 && start * 1_000_000 <= ts < (start + 60) * 1_000_000 {
      var q := start / 60;
      assert start == q * 60;
      assert q * 60_000_000 <= ts < (q + 1) * 60_000_000;
      assert q == n;
    }
  }

  lemma HourIff(ts: int, hour: int)
    ensures hour == HourOfDay(ts) <==> 0 <= hour < 24 && exists day :: InDayHour(ts, day, hour)
  {
    var n := ts / 3_600_000_000;
    assert n * 3_600_000_000 <= ts < (n + 1) * 3_600_000_000;
    assert n == n / 24 * 24 + n % 24;
    assert InDayHour(ts, n / 24, n % 24);
    if 0 <= hour < 24 {
      forall day | InDayHour(ts, day, hour) ensures hour == n % 24 {
        assert day * 24 + hour == n;
      }
    }
  }

  lemma MinuteKeyIff(e: LogEntry, ip: string, start: int)
    ensures MinuteKey(e) == Some((ip, start)) <==> InMinute(e, ip, start)
  {
    if e.ts.Some? {
      MinuteIff(e.ts.value, start);
    }
  }

  lemma HourActorKeyIff(e: LogEntry, hour: int, actor: string)
    ensures HourKey(e) == Some(hour) <==> AtHour(e, hour)
    ensures HourActorKey(e) == Some((hour, actor)) <==> AtHour(e, hour) && ActedAs(e, actor)
  {
    if e.ts.Some? {
      HourIff(e.ts.value, hour);
    }
  }

  // --- Group by group ---

  lemma MinutesAre(g: map<(string, int), seq<int>>, es: seq<LogEntry>)
    requires Grouped(g, es, MinuteKey, MinutesFit)
    ensures MinutesRead(g, es)
  {
    forall ip, start
      ensures Pick(es, MinuteKey, (ip, start), IdOf) == Through(es, MinuteRows(ip, start), RowId)
      ensures Through(es, MinuteRows(ip, start), RowId) != [] <==> AnyRow(es, MinuteRows(ip, start))
    {
      forall e ensures MinuteKey(e) == Some((ip, start)) <==> MinuteRows(ip, start)(e) {
        MinuteKeyIff(e, ip, start);
      }
      PickThrough(es, MinuteKey, (ip, start), IdOf, MinuteRows(ip, start), RowId);
      ThroughSome(es, MinuteRows(ip, start), RowId);
    }
    forall ip, start | (ip, start) in g ensures g[(ip, start)] == Through(es, MinuteRows(ip, start), RowId) {
      assert MinutesFit(g[(ip, start)], es, (ip, start));
    }
  }

  lemma UploadGroup(m: Maths, es: seq<LogEntry>, user: string, host: string)
    ensures var rows := UploadRows(user, host);
      && Pick(es, UploadKey, (user, host), IdOf) == Through(es, rows, RowId)
      && Pick(es, UploadKey, (user, host), BytesOf) == Through(es, rows, Sent)
      && Pick(es, UploadKey, (user, host), LogBytesOf(m)) == Through(es, rows, LogSent(m))
      && (Through(es, rows, RowId) != [] <==> AnyRow(es, rows))
  {
    var rows := UploadRows(user, host);
    PickThrough(es, UploadKey, (user, host), IdOf, rows, RowId);
    PickThrough(es, UploadKey, (user, host), BytesOf, rows, Sent);
    PickThrough(es, UploadKey, (user, host), LogBytesOf(m), rows, LogSent(m));
    ThroughSome(es, rows, RowId);
  }

  lemma UploadsAre(m: Maths, g: map<(string, string), ByteStats>, es: seq<LogEntry>)
    requires Grouped(g, es, UploadKey, BytesFitOf(m))
    ensures UploadsRead(m, g, es)
  {
    forall user, host
      ensures (user, host) in g <==> AnyRow(es, UploadRows(user, host))
      ensures (user, host) in g ==>
        var rows, stats := UploadRows(user, host), g[(user, host)];
        && stats.ids == Through(es, rows, RowId) && stats.totalBytes == Sum(Through(es, rows, Sent))
        && stats.logValues == Through(es, rows, LogSent(m))
    {
      UploadGroup(m, es, user, host);
      if (user, host) in g {
        assert BytesFitOf(m)(g[(user, host)], es, (user, host));
      }
    }
  }

  lemma FlowsAre(g: map<(string, string), seq<(real, int)>>, es: seq<LogEntry>)
    requires Grouped(g, es, FlowKey, HitsFit)
    ensures FlowsRead(g, es)
  {
    forall ip, host
      ensures Pick(es, FlowKey, (ip, host), IdOf) != [] <==> AnyRow(es, FlowRows(ip, host))
      ensures Pick(es, FlowKey, (ip, host), HitOf) == Through(es, FlowRows(ip, host), When)
    {
      var rows := FlowRows(ip, host);
      PickThrough(es, FlowKey, (ip, host), IdOf, rows, RowId);
      PickThrough(es, FlowKey, (ip, host), HitOf, rows, When);
      ThroughSome(es, rows, RowId);
    }
    forall ip, host | (ip, host) in g ensures g[(ip, host)] == Through(es, FlowRows(ip, host), When) {
      assert HitsFit(g[(ip, host)], es, (ip, host));
    }
  }

  lemma ThreatsAre(g: map<(string, string), ThreatStats>, es: seq<LogEntry>)
    requires Grouped(g, es, ThreatKey, ThreatFit)
    ensures ThreatsRead(g, es)
  {
    forall threat, host
      ensures (threat, host) in g <==> AnyRow(es, ThreatRows(threat, host))
      ensures (threat, host) in g ==>
        var rows, stats := ThreatRows(threat, host), g[(threat, host)];
        && stats.ids == Through(es, rows, RowId) && NamesIn(stats.users, es, rows, TheUser) && NamesIn(stats.actions, es, rows, TheAction)
    {
      var k, rows := (threat, host), ThreatRows(threat, host);
      PickThrough(es, ThreatKey, k, IdOf, rows, RowId);
      PickNames(es, ThreatKey, k, UserOf, rows, TheUser);
      PickNames(es, ThreatKey, k, ActionOf, rows, TheAction);
      ThroughSome(es, rows, RowId);
      if k in g {
        assert ThreatFit(g[k], es, k);
      }
    }
  }

  lemma CapReads<K>(names: set<string>, es: seq<LogEntry>, key: LogEntry -> Option<K>, k: K, val: LogEntry -> Option<string>,
                    belongs: LogEntry -> bool, field: LogEntry -> Option<string>)
    requires forall e :: key(e) == Some(k) <==> belongs(e)
    requires forall e, name :: val(e) == Some(name) <==> Names(field(e), name)
    requires CapOf(names, Elems(Pick(es, key, k, val)))
    ensures UpToEight(names, es, belongs, field)
  {
    PickNames(es, key, k, val, belongs, field);
  }

  lemma HostsAre(g: map<string, HostStats>, es: seq<LogEntry>)
    requires Grouped(g, es, HostKey, HostFit)
    ensures HostsRead(g, es)
  {
    forall host
      ensures host in g <==> AnyRow(es, HostRows(host))
      ensures host in g ==>
        && g[host].ids == Through(es, HostRows(host), RowId) && NamesIn(g[host].users, es, HostRows(host), TheUser)
        && UpToEight(g[host].urls, es, HostRows(host), TheUrl)
    {
      PickThrough(es, HostKey, host, IdOf, HostRows(host), RowId);
      PickNames(es, HostKey, host, UserOf, HostRows(host), TheUser);
      ThroughSome(es, HostRows(host), RowId);
      if host in g {
        assert HostFit(g[host], es, host);
        CapReads(g[host].urls, es, HostKey, host, UrlOf, HostRows(host), TheUrl);
      }
    }
  }

  lemma HoursAre(g: map<int, int>, es: seq<LogEntry>)
    requires Grouped(g, es, HourKey, CountFit)
    ensures HoursRead(g, es)
  {
    forall hour
      ensures hour in g <==> AnyRow(es, HourRows(hour))
      ensures hour in g ==> g[hour] == |Through(es, HourRows(hour), RowId)|
    {
      forall e ensures HourKey(e) == Some(hour) <==> HourRows(hour)(e) {
        HourActorKeyIff(e, hour, "");
      }
      PickThrough(es, HourKey, hour, IdOf, HourRows(hour), RowId);
      ThroughSome(es, HourRows(hour), RowId);
      if hour in g {
        assert CountFit(g[hour], es, hour);
      }
    }
  }

  lemma ActorsAre(g: map<(int, string), HourStats>, es: seq<LogEntry>)
    requires Grouped(g, es, HourActorKey, HourFit)
    ensures ActorsRead(g, es)
  {
    forall hour, actor
      ensures (hour, actor) in g <==> AnyRow(es, ActorRows(hour, actor))
      ensures (hour, actor) in g ==>
        && g[(hour, actor)].ids == Through(es, ActorRows(hour, actor), RowId)
        && UpToEight(g[(hour, actor)].hosts, es, ActorRows(hour, actor), TheHost)
    {
      var k, rows := (hour, actor), ActorRows(hour, actor);
      forall e ensures HourActorKey(e) == Some(k) <==> rows(e) {
        HourActorKeyIff(e, hour, actor);
      }
      PickThrough(es, HourActorKey, k, IdOf, rows, RowId);
      ThroughSome(es, rows, RowId);
      if k in g {
        assert HourFit(g[k], es, k);
        CapReads(g[k].hosts, es, HourActorKey, k, HostOf, rows, TheHost);
      }
    }
  }

  lemma UploadLogs(m: Maths, es: seq<LogEntry>)
    ensures Pick(es, AnyUpload, (), LogBytesOf(m)) == Through(es, Sends, LogSent(m))
  {
    forall e | Sends(e) ensures LogBytesOf(m)(e) == Some(LogSent(m)(e)) {
      assert Sent(e) == e.reqBytes.value;
    }
    forall e ensures AnyUpload(e) == Some(()) <==> Sends(e) {
      assert IsUpload(e) <==> Sends(e);
      if AnyUpload(e).Some? {
        assert AnyUpload(e).value == ();
      }
    }
    PickThrough(es, AnyUpload, (), LogBytesOf(m), Sends, LogSent(m));
  }

  /** An aggregate that describes some rows holds, group by group, what their fields say. */
  lemma DescribesReads(m: Maths, p: Aggregate, es: seq<LogEntry>)
    requires Describes(m, p, es)
    ensures Reads(m, p, es)
  {
    MinutesAre(p.ipMinute, es);
    UploadsAre(m, p.userHost, es);
    UploadLogs(m, es);
    FlowsAre(p.ipHostTimes, es);
    ThreatsAre(p.threats, es);
    HostsAre(p.hosts, es);
    HoursAre(p.hourCounts, es);
    ActorsAre(p.hourActors, es);
  }

  /** So does the map of a shard. */
  lemma MapReads(m: Maths, es: seq<LogEntry>)
    ensures Reads(m, MapOf(m, es), es)
  {
    MapDescribes(m, es);
    DescribesReads(m, MapOf(m, es), es);
  }
}
