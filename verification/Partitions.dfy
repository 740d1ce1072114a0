/** Monthly partitions of the log table and the DEFAULT partition that takes what no month claims. */
module Partitions {
  import opened Common

  /** A month is counted from year zero: twelve times the astronomical year plus the month of the year, from zero. */
  const FIRST_AD := 12

  function YearOf(month: int): int {
    month / 12
  }

  /** What `to_char(m, 'YYYY_MM')` prints: years before Christ lose their era. */
  function Name(month: int): (int, int) {
    (if YearOf(month) >= 1 then YearOf(month) else 1 - YearOf(month), month % 12)
  }

  /** Years of our era print as they are, year zero and those before it as one less their number. */
  lemma NamePrints(year: int, month: int)
    requires 0 <= month < 12
    ensures Name(12 * year + month) == (if year >= 1 then year else 1 - year, month)
  {}

  lemma NamesDiffer(a: int, b: int)
    requires Name(a) == Name(b) && a != b
    ensures a < FIRST_AD || b < FIRST_AD
  {}

  /** The month a timestamp falls in, in the session's time zone. */
  type Calendar = int -> int

  ghost predicate Monotone(cal: Calendar) {
    forall s, t :: s <= t ==> cal(s) <= cal(t)
  }

  datatype Row<T> = Row(entry: T, ts: Option<int>, home: Option<int>)   // `home` is the month's partition; None is DEFAULT

  predicate Covered(owners: map<(int, int), int>, month: int) {
    Name(month) in owners && owners[Name(month)] == month
  }

  /** Whether creating the months from `lo` on gives month `m` its own partition: its name is its own already, or is
      free and no earlier month of the span takes it. */
  ghost predicate Placeable(owners: map<(int, int), int>, lo: int, m: int) {
    if Name(m) in owners then owners[Name(m)] == m else forall k :: lo <= k < m ==> Name(k) != Name(m)
  }

  /** The owners of names after creating what is missing of the months from `lo` to `hi`. */
  function Created(owners: map<(int, int), int>, lo: int, hi: int): map<(int, int), int>
    decreases hi - lo + 1
  {
    if lo > hi then owners
    else
      var before := Created(owners, lo, hi - 1);
      if Name(hi) in before then before else before[Name(hi) := hi]
  }

  /** `after` keeps the names of `before`; new ones belong to months from `lo` to `hi`. */
  ghost predicate Extends(before: map<(int, int), int>, after: map<(int, int), int>, lo: int, hi: int) {
    && (forall name :: name in before ==> name in after && after[name] == before[name])
    && forall name :: name in after && name !in before ==> lo <= after[name] <= hi && Name(after[name]) == name
  }

  lemma {:induction false} CreatedKeeps(owners: map<(int, int), int>, lo: int, hi: int)
    ensures Extends(owners, Created(owners, lo, hi), lo, hi)
    decreases hi - lo + 1
  {
    if lo <= hi {
      CreatedKeeps(owners, lo, hi - 1);
    }
  }

  /** Creating a span claims every name in it, and gives a month its own partition exactly when it was placeable. */
  lemma {:induction false} CreatedCovers(owners: map<(int, int), int>, lo: int, hi: int, m: int)
    requires lo <= m <= hi
    ensures Name(m) in Created(owners, lo, hi) && (Covered(Created(owners, lo, hi), m) <==> Placeable(owners, lo, m))
    decreases hi - lo
  {
    var before := Created(owners, lo, hi - 1);
    if m < hi {
      CreatedCovers(owners, lo, hi - 1, m);
    } else {
      CreatedKeeps(owners, lo, hi - 1);
      if Name(m) in before && Name(m) !in owners {
        assert lo <= before[Name(m)] < m && Name(before[Name(m)]) == Name(m);
      }
      if Name(m) !in before {
        forall k | lo <= k < m ensures Name(k) != Name(m) {
          CreatedCovers(owners, lo, hi - 1, k);
        }
      }
    }
  }

  /** Every month from `lo` to `hi` has its name claimed, and its own partition exactly when it was placeable. */
  ghost predicate Spans(before: map<(int, int), int>, after: map<(int, int), int>, lo: int, hi: int) {
    forall m :: lo <= m <= hi ==> Name(m) in after && (Covered(after, m) <==> Placeable(before, lo, m))
  }

  lemma CreatedSpan(owners: map<(int, int), int>, lo: int, hi: int)
    ensures Extends(owners, Created(owners, lo, hi), lo, hi) && Spans(owners, Created(owners, lo, hi), lo, hi)
  {
    CreatedKeeps(owners, lo, hi);
    forall m | lo <= m <= hi ensures Name(m) in Created(owners, lo, hi) && (Covered(Created(owners, lo, hi), m) <==> Placeable(owners, lo, m)) {
      CreatedCovers(owners, lo, hi, m);
    }
  }

  /** Creating a span month by month. */
  lemma CreatedNext(owners: map<(int, int), int>, lo: int, hi: int)
    ensures lo > hi ==> Created(owners, lo, hi) == owners
    ensures lo <= hi ==>
      var before := Created(owners, lo, hi - 1);
      Created(owners, lo, hi) == if Name(hi) in before then before else before[Name(hi) := hi]
  {}

  lemma CreatedPart(owners: map<(int, int), int>, lo: int, m: int, hi: int)
    requires lo <= m <= hi
    ensures Extends(owners, Created(owners, lo, m - 1), lo, hi)
    ensures Name(m) !in Created(owners, lo, m - 1) ==> Name(m) !in owners
  {
    CreatedKeeps(owners, lo, m - 1);
  }

  function Place<T>(cal: Calendar, owners: map<(int, int), int>, entry: T, ts: Option<int>): Row<T> {
    Row(entry, ts, if ts.Some? && Covered(owners, cal(ts.value)) then Some(cal(ts.value)) else None)
  }

  function Placed<T>(cal: Calendar, owners: map<(int, int), int>, entries: seq<T>, stamp: T -> Option<int>): seq<Row<T>> {
    seq(|entries|, i requires 0 <= i < |entries| => Place(cal, owners, entries[i], stamp(entries[i])))
  }

  /** The partitioned table. `owners` gives the month each partition name was created for. */
  class LogTable<T> {
    const cal: Calendar
    var owners: map<(int, int), int>
    var rows: seq<Row<T>>

    constructor (cal: Calendar)
      ensures this.cal == cal && owners == map[] && rows == []
    {
      this.cal, owners, rows := cal, map[], [];
    }

    predicate Has(month: int)
      reads this`owners
    {
      Covered(owners, month)
    }

    /** A row of `month` sits in DEFAULT, so Postgres refuses a partition for that month. */
    predicate Blocked(month: int)
      reads this
    {
      exists i :: 0 <= i < |rows| && rows[i].home.None? && rows[i].ts.Some? && cal(rows[i].ts.value) == month
    }

    /** Create what is missing of the months from `from` to `to`; false when Postgres refuses one. */
    method EnsurePartitions(from: int, to: int) returns (ok: bool)
      requires Monotone(cal)
      modifies this`owners
      ensures Extends(old(owners), owners, cal(from), cal(to))
      ensures ok ==> Spans(old(owners), owners, cal(from), cal(to))
      ensures ok ==> owners == Created(old(owners), cal(from), cal(to))
      ensures !ok ==> exists m :: Name(m) !in old(owners) && Blocked(m) && cal(from) <= m <= cal(to)
    {
      hide Spans, Extends, Created;
      var m, stop := cal(from), cal(to);
      CreatedNext(owners, m, m - 1);
      while m <= stop
        invariant cal(from) <= m && (m <= stop + 1 || m == cal(from))
        invariant owners == Created(old(owners), cal(from), m - 1)
        decreases stop - m
      {
        CreatedNext(old(owners), cal(from), m);
        if Name(m) !in owners {
          if Blocked(m) {
            CreatedPart(old(owners), cal(from), m, stop);
            return false;
          }
          owners := owners[Name(m) := m];
        }
        m := m + 1;
      }
      CreatedNext(old(owners), cal(from), stop);
      CreatedSpan(old(owners), cal(from), stop);
      ok := true;
    }

    /** COPY: each row goes to its month's partition, or to DEFAULT when there is none or it has no timestamp. */
    method CopyRows(entries: seq<T>, stamp: T -> Option<int>) returns (copied: nat)
      modifies this`rows
      ensures copied == |entries| && rows == old(rows) + Placed(cal, owners, entries, stamp)
    {
      copied := 0;
      for i := 0 to |entries|
        invariant copied == i && rows == old(rows) + Placed(cal, owners, entries[..i], stamp)
      {
        rows := rows + [Place(cal, owners, entries[i], stamp(entries[i]))];
        copied := copied + 1;
        assert Placed(cal, owners, entries[..i + 1], stamp)
            == Placed(cal, owners, entries[..i], stamp) + [Place(cal, owners, entries[i], stamp(entries[i]))];
      }
      assert entries[..|entries|] == entries;
    }
  }

  // --- The rule the partitions keep ---

  /** Names belong to the months they were made for. */
  ghost predicate Owned(owners: map<(int, int), int>) {
    forall name :: name in owners ==> Name(owners[name]) == name && owners[name] >= FIRST_AD
  }

  /** Every row with a timestamp is in its own month's partition: DEFAULT holds rows without one, and nothing else. */
  ghost predicate Homed<T>(cal: Calendar, rows: seq<Row<T>>) {
    forall i :: 0 <= i < |rows| ==> rows[i].home == if rows[i].ts.Some? then Some(cal(rows[i].ts.value)) else None
  }

  /** Rows lie in their own month's partition or in DEFAULT, and the name of every timestamped row's month is taken,
      by that month or by another. */
  ghost predicate Claimed<T>(cal: Calendar, owners: map<(int, int), int>, rows: seq<Row<T>>) {
    forall i :: 0 <= i < |rows| ==>
      if rows[i].ts.Some?
      then Name(cal(rows[i].ts.value)) in owners && (rows[i].home.Some? ==> rows[i].home.value == cal(rows[i].ts.value))
      else rows[i].home.None?
  }

  /** DEFAULT holds a row that has a timestamp. */
  ghost predicate Stray<T>(rows: seq<Row<T>>) {
    exists i :: 0 <= i < |rows| && rows[i].ts.Some? && rows[i].home.None?
  }

  /** In a table of claimed names, a timestamped row is in DEFAULT exactly when not all rows are home. */
  lemma StrayUnlessHomed<T>(cal: Calendar, owners: map<(int, int), int>, rows: seq<Row<T>>)
    requires Claimed(cal, owners, rows)
    ensures Stray(rows) <==> !Homed(cal, rows)
  {}

  /** For years of our era no two months share a name, so a span is covered completely. */
  lemma SpanCovered(before: map<(int, int), int>, lo: int, m: int)
    requires Owned(before) && 12 <= lo <= m
    ensures Placeable(before, lo, m)
  {
    if Name(m) in before && before[Name(m)] != m {
      NamesDiffer(before[Name(m)], m);
    }
    if k :| lo <= k < m && Name(k) == Name(m) {
      NamesDiffer(k, m);
    }
  }

  // --- Before Christ ---

  /** The month of the other era that prints the same name. */
  function Mirror(m: int): int {
    12 * (1 - YearOf(m)) + m % 12
  }

  /** Two months print one name exactly when they are equal or mirror each other across the eras. */
  lemma NamesCollide(a: int, b: int)
    ensures Name(a) == Name(b) <==> a == b || b == Mirror(a)
    ensures 12 * (a / 12) + a % 12 == a && Mirror(a) == 12 * (1 - a / 12) + a % 12
  {}

  /** So, while a month's name is free, creating a span gives it its own partition exactly when its mirror is not earlier in the span. */
  lemma PlaceableUnlessMirrored(before: map<(int, int), int>, lo: int, m: int)
    requires Name(m) !in before
    ensures Placeable(before, lo, m) <==> !(lo <= Mirror(m) < m)
  {
    NamesCollide(m, Mirror(m));
    forall k | lo <= k < m && Name(k) == Name(m) ensures k == Mirror(m) {
      NamesCollide(m, k);
    }
  }

  /** Before Christ too every month of a span gets its own partition while its name is free: its mirror comes later. */
  lemma BeforeChristCovered(before: map<(int, int), int>, lo: int, m: int)
    requires lo <= m < 12 && Name(m) !in before
    ensures Placeable(before, lo, m)
  {
    PlaceableUnlessMirrored(before, lo, m);
  }
}
