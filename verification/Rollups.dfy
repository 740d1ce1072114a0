/** Rollup tables and the dashboard figures read from them, against the rows they were derived from. One
    organization, user and upload; times are whole seconds in UTC. */
module Rollups {
  import opened Common
  import opened Dictionaries

  datatype Row = Row(ts: Option<int>, host: Option<string>, respCode: Option<int>, reqBytes: Option<int>,
                     respBytes: Option<int>, cacheStatus: Option<string>)

  datatype Totals = Totals(requests: int, errors: int, bytesIn: int, bytesOut: int, cacheHits: int, cacheTotal: int)

  const ZERO := Totals(0, 0, 0, 0, 0, 0)

  const MINUTE := 60
  const HOUR := 3600

  // --- Figures, read off the rows ---

  ghost function CountOf(rows: seq<Row>, belongs: Row -> bool): nat {
    if |rows| == 0 then 0
    else
      var front, row := CountOf(rows[..|rows| - 1], belongs), rows[|rows| - 1];
      if belongs(row) then front + 1 else front
  }

  /** The sum of a column over the rows that belong; an empty cell adds nothing. */
  ghost function SumOf(rows: seq<Row>, belongs: Row -> bool, column: Row -> Option<int>): int {
    if |rows| == 0 then 0
    else
      var front, row := SumOf(rows[..|rows| - 1], belongs, column), rows[|rows| - 1];
      if belongs(row) && column(row).Some? then front + column(row).value else front
  }

  ghost function Failing(belongs: Row -> bool): Row -> bool {
    (row: Row) => belongs(row) && row.respCode.Some? && row.respCode.value >= 400
  }

  ghost function Cached(belongs: Row -> bool): Row -> bool {
    (row: Row) => belongs(row) && row.cacheStatus.Some?
  }

  ghost function CacheHits(belongs: Row -> bool, hit: string -> bool): Row -> bool {
    (row: Row) => belongs(row) && row.cacheStatus.Some? && hit(row.cacheStatus.value)
  }

  function Received(row: Row): Option<int> {
    row.respBytes
  }

  function SentOut(row: Row): Option<int> {
    row.reqBytes
  }

  /** Bytes in are what servers responded with, bytes out what was requested; errors are status codes from 400 up. */
  ghost predicate HasFigures(t: Totals, rows: seq<Row>, hit: string -> bool, belongs: Row -> bool) {
    && t.requests == CountOf(rows, belongs)
    && t.errors == CountOf(rows, Failing(belongs))
    && t.bytesIn == SumOf(rows, belongs, Received)
    && t.bytesOut == SumOf(rows, belongs, SentOut)
    && t.cacheHits == CountOf(rows, CacheHits(belongs, hit))
    && t.cacheTotal == CountOf(rows, Cached(belongs))
  }

  predicate HasTime(row: Row) {
    row.ts.Some?
  }

  /** The rows of a host in the `length` seconds from `start` on, which is a multiple of that; no host counts as the empty one. */
  ghost function InSpan(length: nat, start: int, host: string): Row -> bool
    requires length > 0
  {
    (row: Row) => row.ts.Some? && start % length == 0 && start <= row.ts.value < start + length
                  && (row.host == Some(host) || (row.host == None && host == ""))
  }

  ghost function Between(from: int, to: int): Row -> bool {
    (row: Row) => row.ts.Some? && from <= row.ts.value < to
  }

  ghost function WithCode(start: int, code: int): Row -> bool {
    (row: Row) => row.ts.Some? && start % 3600 == 0 && start <= row.ts.value < start + 3600 && row.respCode == Some(code)
  }

  ghost predicate SomeRow(rows: seq<Row>, belongs: Row -> bool) {
    exists i :: 0 <= i < |rows| && belongs(rows[i])
  }

  // --- Totals ---

  function Add(a: Totals, b: Totals): Totals {
    Totals(a.requests + b.requests, a.errors + b.errors, a.bytesIn + b.bytesIn, a.bytesOut + b.bytesOut,
           a.cacheHits + b.cacheHits, a.cacheTotal + b.cacheTotal)
  }

  function Grand(xs: seq<Totals>): Totals {
    if |xs| == 0 then ZERO else Add(Grand(xs[..|xs| - 1]), xs[|xs| - 1])
  }

  lemma {:induction false} GrandAppend(xs: seq<Totals>, ys: seq<Totals>)
    ensures Grand(xs + ys) == Add(Grand(xs), Grand(ys))
  {
    if |ys| == 0 {
      assert xs + ys == xs;
    } else {
      var n := |ys| - 1;
      assert (xs + ys)[..|xs| + n] == xs + ys[..n];
      GrandAppend(xs, ys[..n]);
    }
  }

  lemma GrandAround(before: seq<Totals>, x: Totals, after: seq<Totals>)
    ensures Grand(before + [x] + after) == Add(Grand(before + after), x)
  {
    GrandAppend(before, after);
    GrandAppend(before + [x], after);
    GrandAppend(before, [x]);
    assert [x][..0] == [];
  }

  lemma {:induction false} GrandPermutes(xs: seq<Totals>, ys: seq<Totals>)
    requires multiset(xs) == multiset(ys)
    ensures Grand(xs) == Grand(ys)
    decreases |xs|
  {
    SameLength(xs, ys);
    if |xs| > 0 {
      var front, x, before, after := TakeOut(xs, ys);
      GrandPermutes(front, before + after);
      GrandAround(before, x, after);
    }
  }

  lemma GrandMore(xs: seq<Totals>, o: Option<Totals>)
    ensures Grand(xs + OptionSeq(o)) == if o.Some? then Add(Grand(xs), o.value) else Grand(xs)
  {
    if o.Some? {
      assert (xs + [o.value])[..|xs|] == xs;
    } else {
      assert xs + OptionSeq(o) == xs;
    }
  }

  // --- Grouping ---

  /** The table a GROUP BY builds: each group holds the sum of its rows. */
  function Grouped<K(==)>(rows: seq<Row>, key: Row -> Option<K>, value: Row -> Totals): map<K, Totals> {
    if |rows| == 0 then map[]
    else
      var m, row := Grouped(rows[..|rows| - 1], key, value), rows[|rows| - 1];
      match key(row)
      case None => m
      case Some(k) => m[k := Add(Get(m, k, ZERO), value(row))]
  }

  function KeptGroup<K(==)>(m: map<K, Totals>, keep: K -> bool): K -> Option<Totals> {
    k => if k in m && keep(k) then Some(m[k]) else None
  }

  /** SUM over the groups that satisfy a WHERE clause. */
  ghost function SumOver<K(!new)>(m: map<K, Totals>, keep: K -> bool): Totals {
    Grand(Collect(Listing(m.Keys), KeptGroup(m, keep)))
  }

  function KeptRow<K>(key: Row -> Option<K>, value: Row -> Totals, keep: K -> bool): Row -> Option<Totals> {
    (row: Row) => if key(row).Some? && keep(key(row).value) then Some(value(row)) else None
  }

  /** The same sum taken over the rows themselves. */
  function SumRows<K>(rows: seq<Row>, key: Row -> Option<K>, value: Row -> Totals, keep: K -> bool): Totals {
    Grand(Collect(rows, KeptRow(key, value, keep)))
  }

  lemma SumOverIn<K(!new)>(m: map<K, Totals>, keep: K -> bool, keys: seq<K>)
    requires Enumerates(keys, m.Keys)
    ensures SumOver(m, keep) == Grand(Collect(keys, KeptGroup(m, keep)))
  {
    EnumerationsPermute(keys, Listing(m.Keys), m.Keys);
    CollectPermutes(keys, Listing(m.Keys), KeptGroup(m, keep));
    GrandPermutes(Collect(keys, KeptGroup(m, keep)), Collect(Listing(m.Keys), KeptGroup(m, keep)));
  }

  /** What group `k` adds to a sum. */
  function ShareOf<K(==)>(m: map<K, Totals>, keep: K -> bool, k: K): Totals {
    if k in m && keep(k) then m[k] else ZERO
  }

  lemma ListedLast<K(!new)>(keys: set<K>, k: K)
    requires k in keys
    ensures Enumerates(Listing(keys - {k}) + [k], keys)
  {
    var rest := Listing(keys - {k});
    forall x ensures x in rest + [k] <==> x in keys {
      assert x in rest <==> x in keys - {k};
    }
    assert k !in rest;
  }

  /** The sum over all groups but `k`. */
  ghost function OthersOf<K(!new)>(m: map<K, Totals>, keep: K -> bool, k: K): Totals {
    Grand(Collect(Listing(m.Keys - {k}), KeptGroup(m, keep)))
  }

  lemma AddZero(t: Totals)
    ensures Add(t, ZERO) == t
  {}

  lemma LastGroup<K(!new)>(m: map<K, Totals>, keep: K -> bool, rest: seq<K>, k: K)
    requires k in m
    ensures Grand(Collect(rest + [k], KeptGroup(m, keep))) == Add(Grand(Collect(rest, KeptGroup(m, keep))), ShareOf(m, keep, k))
  {
    hide Collect, Grand;
    CollectSnoc(rest, k, KeptGroup(m, keep));
    GrandMore(Collect(rest, KeptGroup(m, keep)), KeptGroup(m, keep)(k));
    AddZero(Grand(Collect(rest, KeptGroup(m, keep))));
  }

  lemma SplitPresent<K(!new)>(m: map<K, Totals>, keep: K -> bool, k: K)
    requires k in m.Keys
    ensures SumOver(m, keep) == Add(OthersOf(m, keep, k), ShareOf(m, keep, k))
  {
    var rest := Listing(m.Keys - {k});
    ListedLast(m.Keys, k);
    SumOverIn(m, keep, rest + [k]);
    LastGroup(m, keep, rest, k);
    assert OthersOf(m, keep, k) == Grand(Collect(rest, KeptGroup(m, keep)));
  }

  lemma SumOverSplit<K(!new)>(m: map<K, Totals>, keep: K -> bool, k: K)
    ensures SumOver(m, keep) == Add(OthersOf(m, keep, k), ShareOf(m, keep, k))
  {
    if k in m.Keys {
      SplitPresent(m, keep, k);
    } else {
      assert m.Keys - {k} == m.Keys;
      AddZero(OthersOf(m, keep, k));
    }
  }

  lemma OthersUnchanged<K(!new)>(m: map<K, Totals>, keep: K -> bool, k: K, v: Totals)
    ensures OthersOf(m[k := v], keep, k) == OthersOf(m, keep, k)
  {
    assert m[k := v].Keys - {k} == m.Keys - {k};
    var rest := Listing(m.Keys - {k});
    forall i | 0 <= i < |rest| ensures KeptGroup(m, keep)(rest[i]) == KeptGroup(m[k := v], keep)(rest[i]) {
      assert rest[i] in rest;
    }
    CollectAgrees(rest, KeptGroup(m, keep), KeptGroup(m[k := v], keep));
  }

  lemma ShareUpdated<K>(m: map<K, Totals>, keep: K -> bool, k: K, t: Totals)
    ensures ShareOf(m[k := Add(Get(m, k, ZERO), t)], keep, k) == if keep(k) then Add(ShareOf(m, keep, k), t) else ShareOf(m, keep, k)
  {}

  lemma AddShares(a: Totals, b: Totals, c: Totals)
    ensures Add(a, Add(b, c)) == Add(Add(a, b), c)
  {}

  lemma SumOverUpdate<K(!new)>(m: map<K, Totals>, keep: K -> bool, k: K, t: Totals)
    ensures SumOver(m[k := Add(Get(m, k, ZERO), t)], keep) == if keep(k) then Add(SumOver(m, keep), t) else SumOver(m, keep)
  {
    var v := Add(Get(m, k, ZERO), t);
    SumOverSplit(m, keep, k);
    SumOverSplit(m[k := v], keep, k);
    OthersUnchanged(m, keep, k, v);
    ShareUpdated(m, keep, k, t);
    AddShares(OthersOf(m, keep, k), ShareOf(m, keep, k), t);
  }

  /** Grouping loses and invents nothing: any sum over groups is the sum over the rows of those groups. */
  lemma {:induction false} GroupingConserves<K(!new)>(rows: seq<Row>, key: Row -> Option<K>, value: Row -> Totals, keep: K -> bool)
    ensures SumOver(Grouped(rows, key, value), keep) == SumRows(rows, key, value, keep)
  {
    if |rows| > 0 {
      var front, row := rows[..|rows| - 1], rows[|rows| - 1];
      GroupingConserves(front, key, value, keep);
      assert rows == front + [row];
      CollectSnoc(front, row, KeptRow(key, value, keep));
      GrandMore(Collect(front, KeptRow(key, value, keep)), KeptRow(key, value, keep)(row));
      if key(row).Some? {
        SumOverUpdate(Grouped(front, key, value), keep, key(row).value, value(row));
      }
    } else {
      assert Listing<K>({}) == [];
    }
  }

  function Only<K(==)>(k: K): K -> bool {
    x => x == k
  }

  lemma {:induction false} NoneKept<K(!new)>(m: map<K, Totals>, keep: K -> bool, keys: seq<K>, k: K)
    requires k !in keys && forall x :: keep(x) ==> x == k
    ensures Collect(keys, KeptGroup(m, keep)) == []
  {
    if |keys| > 0 {
      assert keys[|keys| - 1] in keys;
      NoneKept(m, keep, keys[..|keys| - 1], k);
    }
  }

  lemma SumOverOnly<K(!new)>(m: map<K, Totals>, k: K)
    requires k in m
    ensures SumOver(m, Only(k)) == m[k]
  {
    hide Listing, Collect, SumOver;
    SplitPresent(m, Only(k), k);
    NoneKept(m, Only(k), Listing(m.Keys - {k}), k);
    assert OthersOf(m, Only(k), k) == ZERO;
  }

  /** One group's value is the sum of its own rows. */
  lemma GroupValue<K(!new)>(rows: seq<Row>, key: Row -> Option<K>, value: Row -> Totals, k: K)
    requires k in Grouped(rows, key, value)
    ensures Grouped(rows, key, value)[k] == SumRows(rows, key, value, Only(k))
  {
    GroupingConserves(rows, key, value, Only(k));
    SumOverOnly(Grouped(rows, key, value), k);
  }

  lemma {:induction false} GroupedKeys<K(!new)>(rows: seq<Row>, key: Row -> Option<K>, value: Row -> Totals, k: K)
    ensures k in Grouped(rows, key, value) <==> exists row :: row in multiset(rows) && key(row) == Some(k)
  {
    if |rows| > 0 {
      var front, last := rows[..|rows| - 1], rows[|rows| - 1];
      GroupedKeys(front, key, value, k);
      assert rows == front + [last];
      assert multiset(rows) == multiset(front) + multiset{last};
    }
  }

  // --- Entry rollups ---

  /** Bucket start and host. */
  type Key = (int, string)

  function Bucket(grain: int, ts: int): int
    requires grain > 0
  {
    ts / grain * grain
  }

  function KeyOf(grain: int): Row -> Option<Key>
    requires grain > 0
  {
    (row: Row) => if row.ts.None? then None else Some((Bucket(grain, row.ts.value), if row.host.Some? then row.host.value else ""))
  }

  function Known(x: Option<int>): int {
    if x.Some? then x.value else 0
  }

  /** What a row adds; `hit` is the LIKE test on a cache status. */
  function Contribution(hit: string -> bool): Row -> Totals {
    (row: Row) => Totals(
      1,
      if row.respCode.Some? && row.respCode.value >= 400 then 1 else 0,
      Known(row.respBytes),
      Known(row.reqBytes),
      if row.cacheStatus.Some? && hit(row.cacheStatus.value) then 1 else 0,
      if row.cacheStatus.Some? then 1 else 0)
  }

  lemma SumOfSnoc(rows: seq<Row>, row: Row, belongs: Row -> bool, column: Row -> Option<int>)
    ensures SumOf(rows + [row], belongs, column) == SumOf(rows, belongs, column) + if belongs(row) then Known(column(row)) else 0
  {
    assert (rows + [row])[..|rows|] == rows;
  }

  lemma FiguresSnoc(t: Totals, rows: seq<Row>, row: Row, hit: string -> bool, belongs: Row -> bool)
    requires HasFigures(t, rows, hit, belongs)
    ensures HasFigures(if belongs(row) then Add(t, Contribution(hit)(row)) else t, rows + [row], hit, belongs)
  {
    assert (rows + [row])[..|rows|] == rows;
    SumOfSnoc(rows, row, belongs, Received);
    SumOfSnoc(rows, row, belongs, SentOut);
  }

  lemma NoFigures(hit: string -> bool, belongs: Row -> bool)
    ensures HasFigures(ZERO, [], hit, belongs)
  {}

  /** Collected contributions add up to the figures of the rows collected. */
  lemma {:induction false} ContributionsAdd(rows: seq<Row>, hit: string -> bool, belongs: Row -> bool, f: Row -> Option<Totals>)
    requires forall row :: f(row) == if belongs(row) then Some(Contribution(hit)(row)) else None
    ensures HasFigures(Grand(Collect(rows, f)), rows, hit, belongs)
  {
    hide HasFigures, Contribution;
    if |rows| == 0 {
      NoFigures(hit, belongs);
    } else {
      var front, row := rows[..|rows| - 1], rows[|rows| - 1];
      ContributionsAdd(front, hit, belongs, f);
      assert rows == front + [row];
      CollectSnoc(front, row, f);
      GrandMore(Collect(front, f), f(row));
      FiguresSnoc(Grand(Collect(front, f)), front, row, hit, belongs);
    }
  }

  lemma SumHasFigures<K(!new)>(rows: seq<Row>, key: Row -> Option<K>, hit: string -> bool, keep: K -> bool, belongs: Row -> bool)
    requires forall row :: belongs(row) <==> key(row).Some? && keep(key(row).value)
    ensures HasFigures(SumOver(Grouped(rows, key, Contribution(hit)), keep), rows, hit, belongs)
  {
    hide HasFigures, SumOver, Grouped, Contribution;
    GroupingConserves(rows, key, Contribution(hit), keep);
    ContributionsAdd(rows, hit, belongs, KeptRow(key, Contribution(hit), keep));
  }

  lemma GroupHasFigures<K(!new)>(rows: seq<Row>, key: Row -> Option<K>, hit: string -> bool, k: K, belongs: Row -> bool)
    requires forall row :: belongs(row) <==> key(row) == Some(k)
    ensures k in Grouped(rows, key, Contribution(hit)) <==> SomeRow(rows, belongs)
    ensures k in Grouped(rows, key, Contribution(hit)) ==> HasFigures(Grouped(rows, key, Contribution(hit))[k], rows, hit, belongs)
  {
    hide HasFigures, SumOver, Grouped, Contribution;
    GroupedKeys(rows, key, Contribution(hit), k);
    if row :| row in multiset(rows) && key(row) == Some(k) {
      var i :| 0 <= i < |rows| && rows[i] == row;
      assert belongs(rows[i]);
    }
    if i :| 0 <= i < |rows| && belongs(rows[i]) {
      assert rows[i] in multiset(rows) && key(rows[i]) == Some(k);
    }
    if k in Grouped(rows, key, Contribution(hit)) {
      SumOverOnly(Grouped(rows, key, Contribution(hit)), k);
      SumHasFigures(rows, key, hit, Only(k), belongs);
    }
  }

  function EntryRollup(rows: seq<Row>, hit: string -> bool, grain: int): map<Key, Totals>
    requires grain > 0
  {
    Grouped(rows, KeyOf(grain), Contribution(hit))
  }

  /** INSERT with ON CONFLICT DO UPDATE: new groups replace old ones of the same key. */
  function Upserted(table: map<Key, Totals>, groups: map<Key, Totals>): map<Key, Totals> {
    table + groups
  }

  /** Grouping does not depend on the order of the rows. */
  lemma GroupedPermutes<K(!new)>(a: seq<Row>, b: seq<Row>, key: Row -> Option<K>, value: Row -> Totals)
    requires multiset(a) == multiset(b)
    ensures Grouped(a, key, value) == Grouped(b, key, value)
  {
    var ga, gb := Grouped(a, key, value), Grouped(b, key, value);
    forall k ensures k in ga <==> k in gb {
      GroupedKeys(a, key, value, k);
      GroupedKeys(b, key, value, k);
    }
    forall k | k in ga ensures ga[k] == gb[k] {
      GroupValue(a, key, value, k);
      GroupValue(b, key, value, k);
      CollectPermutes(a, b, KeptRow(key, value, Only(k)));
      GrandPermutes(Collect(a, KeptRow(key, value, Only(k))), Collect(b, KeptRow(key, value, Only(k))));
    }
  }

  /** The rollup table after building an upload's rollups. */
  function Built(table: map<Key, Totals>, rows: seq<Row>, hit: string -> bool, grain: int): map<Key, Totals>
    requires grain > 0
  {
    Upserted(table, EntryRollup(rows, hit, grain))
  }

  /** Building the rollups again changes nothing, even from the same rows in another order. */
  lemma RebuildIdempotent(table: map<Key, Totals>, rows: seq<Row>, again: seq<Row>, hit: string -> bool, grain: int)
    requires grain > 0 && multiset(rows) == multiset(again)
    ensures Built(Built(table, rows, hit, grain), again, hit, grain) == Built(table, rows, hit, grain)
  {
    GroupedPermutes(rows, again, KeyOf(grain), Contribution(hit));
  }

  function Everything<K>(): K -> bool {
    _ => true
  }

  function Timestamped(hit: string -> bool): Row -> Option<Totals> {
    (row: Row) => if row.ts.Some? then Some(Contribution(hit)(row)) else None
  }

  /** Both rollups carry exactly the figures of the timestamped rows. */
  lemma TotalsAgree(rows: seq<Row>, hit: string -> bool, grain: int)
    requires grain > 0
    ensures HasFigures(SumOver(EntryRollup(rows, hit, grain), Everything<Key>()), rows, hit, HasTime)
    ensures SumOver(EntryRollup(rows, hit, grain), Everything<Key>()) == Grand(Collect(rows, Timestamped(hit)))
  {
    hide HasFigures, SumOver;
    SumHasFigures(rows, KeyOf(grain), hit, Everything<Key>(), HasTime);
    GroupingConserves(rows, KeyOf(grain), Contribution(hit), Everything<Key>());
    CollectAgrees(rows, KeptRow(KeyOf(grain), Contribution(hit), Everything<Key>()), Timestamped(hit));
  }

  lemma BucketIff(ts: int, start: int)
    ensures start == Bucket(60, ts) <==> start % 60 == 0 && start <= ts < start + 60
    ensures start == Bucket(3600, ts) <==> start % 3600 == 0 && start <= ts < start + 3600
  {}

  lemma SpanOfBucket(row: Row, grain: nat, start: int, host: string)
    requires grain == 60 || grain == 3600
    ensures InSpan(grain, start, host)(row) <==> KeyOf(grain)(row) == Some((start, host))
  {
    hide Bucket;
    if row.ts.Some? {
      BucketIff(row.ts.value, start);
    }
  }

  /** The rollup has a bucket for every minute, or hour, and host with a row, and the bucket holds the figures of those rows. */
  lemma BucketsHaveFigures(rows: seq<Row>, hit: string -> bool, start: int, host: string)
    ensures (start, host) in EntryRollup(rows, hit, MINUTE) <==> SomeRow(rows, InSpan(60, start, host))
    ensures (start, host) in EntryRollup(rows, hit, MINUTE) ==>
      HasFigures(EntryRollup(rows, hit, MINUTE)[(start, host)], rows, hit, InSpan(60, start, host))
    ensures (start, host) in EntryRollup(rows, hit, HOUR) <==> SomeRow(rows, InSpan(3600, start, host))
    ensures (start, host) in EntryRollup(rows, hit, HOUR) ==>
      HasFigures(EntryRollup(rows, hit, HOUR)[(start, host)], rows, hit, InSpan(3600, start, host))
  {
    hide HasFigures, Grouped, Contribution, SomeRow, InSpan, KeyOf;
    forall row
      ensures InSpan(60, start, host)(row) <==> KeyOf(MINUTE)(row) == Some((start, host))
      ensures InSpan(3600, start, host)(row) <==> KeyOf(HOUR)(row) == Some((start, host))
    {
      SpanOfBucket(row, 60, start, host);
      SpanOfBucket(row, 3600, start, host);
    }
    GroupHasFigures(rows, KeyOf(MINUTE), hit, (start, host), InSpan(60, start, host));
    GroupHasFigures(rows, KeyOf(HOUR), hit, (start, host), InSpan(3600, start, host));
  }

  /** Building an upload's rollups replaces the buckets its rows fall in and leaves the others alone. */
  lemma BuiltReplaces(table: map<Key, Totals>, rows: seq<Row>, hit: string -> bool, grain: nat, start: int, host: string)
    requires grain == 60 || grain == 3600
    ensures var built, k := Built(table, rows, hit, grain), (start, host);
      if SomeRow(rows, InSpan(grain, start, host)) then k in built && HasFigures(built[k], rows, hit, InSpan(grain, start, host))
      else (k in built <==> k in table) && (k in built ==> built[k] == table[k])
  {
    hide HasFigures, Grouped, Contribution, SomeRow, InSpan, KeyOf;
    forall row ensures InSpan(grain, start, host)(row) <==> KeyOf(grain)(row) == Some((start, host)) {
      SpanOfBucket(row, grain, start, host);
    }
    GroupHasFigures(rows, KeyOf(grain), hit, (start, host), InSpan(grain, start, host));
  }

  lemma HourOfMinute(ts: int)
    ensures Bucket(HOUR, Bucket(MINUTE, ts)) == Bucket(HOUR, ts)
  {
    assert ts / HOUR == ts / MINUTE / 60;
  }

  function MinutesOf(k: Key): Key -> bool {
    (x: Key) => x.1 == k.1 && Bucket(HOUR, x.0) == k.0
  }

  /** A row counts for an hour bucket exactly when it counts for one of its minutes. */
  lemma SameRows(row: Row, hit: string -> bool, k: Key)
    ensures KeptRow(KeyOf(HOUR), Contribution(hit), Only(k))(row) == KeptRow(KeyOf(MINUTE), Contribution(hit), MinutesOf(k))(row)
  {
    if row.ts.Some? {
      HourOfMinute(row.ts.value);
      var hour, minute := KeyOf(HOUR)(row).value, KeyOf(MINUTE)(row).value;
      assert Only(k)(hour) <==> MinutesOf(k)(minute);
    }
  }

  lemma SumRowsAgree(rows: seq<Row>, f: Row -> Option<Totals>, g: Row -> Option<Totals>, hit: string -> bool, k: Key)
    requires f == KeptRow(KeyOf(HOUR), Contribution(hit), Only(k)) && g == KeptRow(KeyOf(MINUTE), Contribution(hit), MinutesOf(k))
    ensures Collect(rows, f) == Collect(rows, g)
  {
    forall i | 0 <= i < |rows| ensures f(rows[i]) == g(rows[i]) {
      SameRows(rows[i], hit, k);
    }
    CollectAgrees(rows, f, g);
  }

  /** An hour bucket of a host is the sum of its minute buckets. */
  lemma HourIsItsMinutes(rows: seq<Row>, hit: string -> bool, k: Key)
    requires k in EntryRollup(rows, hit, HOUR)
    ensures EntryRollup(rows, hit, HOUR)[k] == SumOver(EntryRollup(rows, hit, MINUTE), MinutesOf(k))
  {
    GroupValue(rows, KeyOf(HOUR), Contribution(hit), k);
    GroupingConserves(rows, KeyOf(MINUTE), Contribution(hit), MinutesOf(k));
    SumRowsAgree(rows, KeptRow(KeyOf(HOUR), Contribution(hit), Only(k)), KeptRow(KeyOf(MINUTE), Contribution(hit), MinutesOf(k)), hit, k);
  }

  // --- The dashboard's window ---

  function InWindow(from: int, to: int): Key -> bool {
    (k: Key) => from <= k.0 < to
  }

  /** The headline figures: hour buckets that start in the window. */
  ghost function Summary(rows: seq<Row>, hit: string -> bool, from: int, to: int): Totals {
    SumOver(EntryRollup(rows, hit, HOUR), InWindow(from, to))
  }

  function RowInWindow(hit: string -> bool, from: int, to: int): Row -> Option<Totals> {
    (row: Row) => if row.ts.Some? && from <= row.ts.value < to then Some(Contribution(hit)(row)) else None
  }

  /** The same figures over the rows of the window. */
  function RawSummary(rows: seq<Row>, hit: string -> bool, from: int, to: int): Totals {
    Grand(Collect(rows, RowInWindow(hit, from, to)))
  }

  predicate Aligned(from: int, to: int) {
    from >= to || (from % HOUR == 0 && to % HOUR == 0)
  }

  lemma BucketInWindow(ts: int, from: int, to: int)
    requires from % HOUR == 0 && to % HOUR == 0
    ensures from <= Bucket(HOUR, ts) < to <==> from <= ts < to
  {
    assert ts == ts / HOUR * HOUR + ts % HOUR;
    assert from == from / HOUR * HOUR && to == to / HOUR * HOUR;
  }

  lemma SummaryExact(rows: seq<Row>, hit: string -> bool, from: int, to: int)
    requires Aligned(from, to)
    ensures Summary(rows, hit, from, to) == RawSummary(rows, hit, from, to)
  {
    GroupingConserves(rows, KeyOf(HOUR), Contribution(hit), InWindow(from, to));
    forall i | 0 <= i < |rows|
      ensures KeptRow(KeyOf(HOUR), Contribution(hit), InWindow(from, to))(rows[i]) == RowInWindow(hit, from, to)(rows[i])
    {
      if rows[i].ts.Some? && from < to {
        BucketInWindow(rows[i].ts.value, from, to);
      }
    }
    CollectAgrees(rows, KeptRow(KeyOf(HOUR), Contribution(hit), InWindow(from, to)), RowInWindow(hit, from, to));
  }

  lemma OneCollected(row: Row, f: Row -> Option<Totals>)
    ensures Grand(Collect([row], f)) == if f(row).Some? then f(row).value else ZERO
  {
    CollectSnoc([], row, f);
    assert [] + [row] == [row];
    GrandMore([], f(row));
  }

  lemma OneRow(row: Row, hit: string -> bool, from: int, to: int)
    requires row.ts.Some?
    ensures Summary([row], hit, from, to).requests == if from <= Bucket(HOUR, row.ts.value) < to then 1 else 0
    ensures RawSummary([row], hit, from, to).requests == if from <= row.ts.value < to then 1 else 0
  {
    hide Collect, Grand, SumOver;
    GroupingConserves([row], KeyOf(HOUR), Contribution(hit), InWindow(from, to));
    OneCollected(row, KeptRow(KeyOf(HOUR), Contribution(hit), InWindow(from, to)));
    OneCollected(row, RowInWindow(hit, from, to));
  }

  lemma RawHasFigures(rows: seq<Row>, hit: string -> bool, from: int, to: int)
    ensures HasFigures(RawSummary(rows, hit, from, to), rows, hit, Between(from, to))
  {
    hide HasFigures, Contribution;
    ContributionsAdd(rows, hit, Between(from, to), RowInWindow(hit, from, to));
  }

  lemma SummaryHasFigures(rows: seq<Row>, hit: string -> bool, from: int, to: int)
    requires Aligned(from, to)
    ensures HasFigures(Summary(rows, hit, from, to), rows, hit, Between(from, to))
  {
    hide HasFigures, Summary, RawSummary;
    SummaryExact(rows, hit, from, to);
    RawHasFigures(rows, hit, from, to);
  }

  /** A window cut inside an hour misreads some row: one at its start, or one at its end. */
  lemma SummaryDiffers(hit: string -> bool, from: int, to: int) returns (row: Row)
    requires !Aligned(from, to)
    ensures Summary([row], hit, from, to) != RawSummary([row], hit, from, to)
  {
    hide Summary;
    var ts := if from % HOUR != 0 then from else to;
    row := Row(Some(ts), None, None, None, None, None);
    OneRow(row, hit, from, to);
    assert ts == ts / HOUR * HOUR + ts % HOUR;
    assert from == from / HOUR * HOUR + from % HOUR;
  }

  lemma FiguresOnce(a: Totals, b: Totals, rows: seq<Row>, hit: string -> bool, belongs: Row -> bool)
    requires HasFigures(a, rows, hit, belongs) && HasFigures(b, rows, hit, belongs)
    ensures a == b
  {}

  /** The headline figures are the figures of the window's rows for every upload exactly when the window is empty or cut on the hour. */
  lemma SummaryExactIffAligned(hit: string -> bool, from: int, to: int)
    ensures (forall rows :: HasFigures(Summary(rows, hit, from, to), rows, hit, Between(from, to)))
       <==> from >= to || (from % 3600 == 0 && to % 3600 == 0)
    ensures (forall rows :: Summary(rows, hit, from, to) == RawSummary(rows, hit, from, to)) <==> Aligned(from, to)
  {
    hide HasFigures, Summary, RawSummary;
    if Aligned(from, to) {
      forall rows
        ensures HasFigures(Summary(rows, hit, from, to), rows, hit, Between(from, to))
        ensures Summary(rows, hit, from, to) == RawSummary(rows, hit, from, to)
      {
        SummaryHasFigures(rows, hit, from, to);
        SummaryExact(rows, hit, from, to);
      }
    } else {
      var row := SummaryDiffers(hit, from, to);
      RawHasFigures([row], hit, from, to);
      if HasFigures(Summary([row], hit, from, to), [row], hit, Between(from, to)) {
        FiguresOnce(Summary([row], hit, from, to), RawSummary([row], hit, from, to), [row], hit, Between(from, to));
      }
    }
  }

  // --- Status rollups ---

  /** Hour and response code. */
  type StatusKey = (int, int)

  function StatusKeyOf(row: Row): Option<StatusKey> {
    if row.ts.Some? && row.respCode.Some? then Some((Bucket(HOUR, row.ts.value), row.respCode.value)) else None
  }

  function StatusRollup(rows: seq<Row>, hit: string -> bool): map<StatusKey, Totals> {
    Grouped(rows, StatusKeyOf, Contribution(hit))
  }

  lemma CodeOfBucket(row: Row, start: int, code: int)
    ensures WithCode(start, code)(row) <==> StatusKeyOf(row) == Some((start, code))
  {
    hide Bucket;
    if row.ts.Some? {
      BucketIff(row.ts.value, start);
    }
  }

  /** The status rollup counts the rows of each hour and status code. */
  lemma StatusCounts(rows: seq<Row>, hit: string -> bool, start: int, code: int)
    ensures (start, code) in StatusRollup(rows, hit) <==> SomeRow(rows, WithCode(start, code))
    ensures (start, code) in StatusRollup(rows, hit) ==> StatusRollup(rows, hit)[(start, code)].requests == CountOf(rows, WithCode(start, code))
  {
    hide Grouped, Contribution, SomeRow, WithCode, StatusKeyOf;
    forall row ensures WithCode(start, code)(row) <==> StatusKeyOf(row) == Some((start, code)) {
      CodeOfBucket(row, start, code);
    }
    GroupHasFigures(rows, StatusKeyOf, hit, (start, code), WithCode(start, code));
  }

  function ErrorsAt(hour: int): StatusKey -> bool {
    (k: StatusKey) => k.0 == hour && k.1 >= 400
  }

  function At(hour: int): Key -> bool {
    (k: Key) => k.0 == hour
  }

  /** What one row adds to either side. */
  lemma RowErrors(row: Row, hit: string -> bool, hour: int)
    ensures var a, b := KeptRow(StatusKeyOf, Contribution(hit), ErrorsAt(hour))(row), KeptRow(KeyOf(HOUR), Contribution(hit), At(hour))(row);
      (if a.Some? then a.value.requests else 0) == (if b.Some? then b.value.errors else 0)
  {
    if row.ts.Some? {
      var bucket := Bucket(HOUR, row.ts.value);
      assert KeyOf(HOUR)(row).Some? && KeyOf(HOUR)(row).value.0 == bucket;
      assert row.respCode.Some? ==> StatusKeyOf(row) == Some((bucket, row.respCode.value));
    } else {
      assert KeyOf(HOUR)(row).None? && StatusKeyOf(row).None?;
    }
  }

  lemma {:induction false} ErrorsCounted(rows: seq<Row>, hit: string -> bool, hour: int)
    ensures SumRows(rows, StatusKeyOf, Contribution(hit), ErrorsAt(hour)).requests == SumRows(rows, KeyOf(HOUR), Contribution(hit), At(hour)).errors
  {
    if |rows| > 0 {
      var front, row := rows[..|rows| - 1], rows[|rows| - 1];
      var a, b := KeptRow(StatusKeyOf, Contribution(hit), ErrorsAt(hour)), KeptRow(KeyOf(HOUR), Contribution(hit), At(hour));
      ErrorsCounted(front, hit, hour);
      assert rows == front + [row];
      CollectSnoc(front, row, a);
      CollectSnoc(front, row, b);
      GrandMore(Collect(front, a), a(row));
      GrandMore(Collect(front, b), b(row));
      RowErrors(row, hit, hour);
    }
  }

  /** The error breakdown adds up to the headline: per hour, requests with codes from 400 up are the hour's errors. */
  lemma ErrorsAddUp(rows: seq<Row>, hit: string -> bool, hour: int)
    ensures SumOver(StatusRollup(rows, hit), ErrorsAt(hour)).requests == SumOver(EntryRollup(rows, hit, HOUR), At(hour)).errors
  {
    GroupingConserves(rows, StatusKeyOf, Contribution(hit), ErrorsAt(hour));
    GroupingConserves(rows, KeyOf(HOUR), Contribution(hit), At(hour));
    ErrorsCounted(rows, hit, hour);
  }
}
