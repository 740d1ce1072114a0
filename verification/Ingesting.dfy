/** Streaming ingest: rows are held back in batches, partitions are created for the span seen so far before each
    COPY, and the copied count is what the caller reports. */
module Ingesting {
  import opened Common
  import opened Partitions

  const COPY_BATCH := 5000

  /** Timestamps of the entries that have one. */
  function Stamps<T>(entries: seq<T>, stamp: T -> Option<int>): seq<int> {
    Collect(entries, stamp)
  }

  ghost predicate IsLeast(xs: seq<int>, x: Option<int>) {
    if x.None? then xs == [] else x.value in xs && forall i :: 0 <= i < |xs| ==> x.value <= xs[i]
  }

  ghost predicate IsGreatest(xs: seq<int>, x: Option<int>) {
    if x.None? then xs == [] else x.value in xs && forall i :: 0 <= i < |xs| ==> xs[i] <= x.value
  }

  /** The entries of some rows, in order. */
  function EntriesOf<T>(rows: seq<Row<T>>): seq<T> {
    seq(|rows|, i requires 0 <= i < |rows| => rows[i].entry)
  }

  /** No timestamp before January of the year 1, which is month 12. */
  ghost predicate AllAD<T>(cal: Calendar, entries: seq<T>, stamp: T -> Option<int>) {
    forall i :: 0 <= i < |entries| && stamp(entries[i]).Some? ==> cal(stamp(entries[i]).value) >= 12
  }

  ghost predicate TableClaimed<T>(table: LogTable<T>)
    reads table
  {
    Claimed(table.cal, table.owners, table.rows)
  }

  /** The table keeps the rule of its partitions. */
  ghost predicate TableSound<T>(table: LogTable<T>)
    reads table
  {
    Owned(table.owners) && Homed(table.cal, table.rows) && TableClaimed(table)
  }

  /** A claimed table refuses no partition that is still to be made. */
  lemma ClaimedUnblocked<T>(table: LogTable<T>, m: int)
    requires TableClaimed(table) && Name(m) !in table.owners
    ensures !table.Blocked(m)
  {}

  /** Creating the months from that of the least timestamp on gives each of the entries its own month. */
  ghost predicate AllPlaceable<T>(cal: Calendar, owners: map<(int, int), int>, least: Option<int>, entries: seq<T>, stamp: T -> Option<int>) {
    forall i :: 0 <= i < |entries| && stamp(entries[i]).Some? ==>
      least.Some? && Placeable(owners, cal(least.value), cal(stamp(entries[i]).value))
  }

  lemma StampsHold<T>(emitted: seq<T>, stamp: T -> Option<int>, i: nat)
    requires i < |emitted| && stamp(emitted[i]).Some?
    ensures stamp(emitted[i]).value in Stamps(emitted, stamp)
  {
    CollectMember(emitted, stamp, stamp(emitted[i]).value);
  }

  lemma StampsAD<T>(cal: Calendar, emitted: seq<T>, stamp: T -> Option<int>, ts: int)
    requires AllAD(cal, emitted, stamp) && ts in Stamps(emitted, stamp)
    ensures cal(ts) >= FIRST_AD
  {
    CollectMember(emitted, stamp, ts);
  }

  /** Every entry lies in the span of the least and the greatest timestamp. */
  lemma InSpan<T>(cal: Calendar, emitted: seq<T>, stamp: T -> Option<int>, lo: Option<int>, hi: Option<int>, i: nat)
    requires Monotone(cal) && i < |emitted| && stamp(emitted[i]).Some?
    requires IsLeast(Stamps(emitted, stamp), lo) && IsGreatest(Stamps(emitted, stamp), hi)
    ensures lo.Some? && hi.Some? && cal(lo.value) <= cal(stamp(emitted[i]).value) <= cal(hi.value)
  {
    StampsHold(emitted, stamp, i);
  }

  /** Entries from before Christ are placeable too, while none of their months' names is taken. */
  lemma BeforeChristPlaceable<T>(cal: Calendar, before: map<(int, int), int>, emitted: seq<T>, stamp: T -> Option<int>, lo: Option<int>, hi: Option<int>)
    requires Monotone(cal)
    requires forall i :: 0 <= i < |emitted| && stamp(emitted[i]).Some? ==>
      cal(stamp(emitted[i]).value) < FIRST_AD && Name(cal(stamp(emitted[i]).value)) !in before
    requires IsLeast(Stamps(emitted, stamp), lo) && IsGreatest(Stamps(emitted, stamp), hi)
    ensures AllPlaceable(cal, before, lo, emitted, stamp)
  {
    forall i | 0 <= i < |emitted| && stamp(emitted[i]).Some?
      ensures lo.Some? && Placeable(before, cal(lo.value), cal(stamp(emitted[i]).value))
    {
      InSpan(cal, emitted, stamp, lo, hi, i);
      BeforeChristCovered(before, cal(lo.value), cal(stamp(emitted[i]).value));
    }
  }

  lemma PrefixAD<T>(cal: Calendar, entries: seq<T>, stamp: T -> Option<int>, n: nat)
    requires n <= |entries|
    ensures AllAD(cal, entries, stamp) ==> AllAD(cal, entries[..n], stamp)
  {}

  /** Entries of our era are always placeable. */
  lemma ADPlaceable<T>(cal: Calendar, before: map<(int, int), int>, emitted: seq<T>, stamp: T -> Option<int>, lo: Option<int>, hi: Option<int>)
    requires Monotone(cal) && Owned(before) && AllAD(cal, emitted, stamp)
    requires IsLeast(Stamps(emitted, stamp), lo) && IsGreatest(Stamps(emitted, stamp), hi)
    ensures AllPlaceable(cal, before, lo, emitted, stamp)
  {
    forall i | 0 <= i < |emitted| && stamp(emitted[i]).Some?
      ensures lo.Some? && Placeable(before, cal(lo.value), cal(stamp(emitted[i]).value))
    {
      InSpan(cal, emitted, stamp, lo, hi, i);
      StampsAD(cal, emitted, stamp, lo.value);
      SpanCovered(before, cal(lo.value), cal(stamp(emitted[i]).value));
    }
  }

  ghost predicate AllCovered<T>(cal: Calendar, owners: map<(int, int), int>, entries: seq<T>, stamp: T -> Option<int>) {
    forall i :: 0 <= i < |entries| && stamp(entries[i]).Some? ==> Covered(owners, cal(stamp(entries[i]).value))
  }

  /** Every row is stored under its entry's own timestamp. */
  ghost predicate Timed<T>(rows: seq<Row<T>>, stamp: T -> Option<int>) {
    forall i :: 0 <= i < |rows| ==> rows[i].ts == stamp(rows[i].entry)
  }

  lemma TimedAfter<T>(cal: Calendar, owners: map<(int, int), int>, n: nat, was: seq<Row<T>>, pending: seq<T>, stamp: T -> Option<int>)
    requires n <= |was| && Timed(was[n..], stamp)
    ensures Timed((was + Placed(cal, owners, pending, stamp))[n..], stamp)
  {
    assert (was + Placed(cal, owners, pending, stamp))[n..] == was[n..] + Placed(cal, owners, pending, stamp);
  }

  lemma EntriesAppend<T>(a: seq<Row<T>>, b: seq<Row<T>>)
    ensures EntriesOf(a + b) == EntriesOf(a) + EntriesOf(b)
  {}

  /** Copying the pending rows leaves everything emitted copied. */
  lemma CopiedAfter<T>(before: seq<Row<T>>, was: seq<Row<T>>, more: seq<Row<T>>, pending: seq<T>, emitted: seq<T>)
    requires |before| <= |was| && was[..|before|] == before && EntriesOf(was[|before|..]) + pending == emitted
    requires EntriesOf(more) == pending
    ensures (was + more)[..|before|] == before && EntriesOf((was + more)[|before|..]) == emitted
  {
    assert (was + more)[|before|..] == was[|before|..] + more;
    EntriesAppend(was[|before|..], more);
  }

  /** All rows are home exactly when they were and the months of the new ones all have partitions. */
  lemma PlacedHomed<T>(cal: Calendar, owners: map<(int, int), int>, was: seq<Row<T>>, pending: seq<T>, stamp: T -> Option<int>)
    ensures Homed(cal, was + Placed(cal, owners, pending, stamp)) <==> Homed(cal, was) && AllCovered(cal, owners, pending, stamp)
  {
    var more := Placed(cal, owners, pending, stamp);
    var all := was + more;
    if Homed(cal, all) {
      forall i | 0 <= i < |was| ensures was[i].home == if was[i].ts.Some? then Some(cal(was[i].ts.value)) else None {
        assert all[i] == was[i];
      }
      forall i | 0 <= i < |pending| && stamp(pending[i]).Some? ensures Covered(owners, cal(stamp(pending[i]).value)) {
        assert all[|was| + i] == more[i];
      }
    }
  }

  ghost predicate AllClaimed<T>(cal: Calendar, owners: map<(int, int), int>, entries: seq<T>, stamp: T -> Option<int>) {
    forall i :: 0 <= i < |entries| && stamp(entries[i]).Some? ==> Name(cal(stamp(entries[i]).value)) in owners
  }

  /** The entries' timestamps lie from `lo` to `hi`, month by month. */
  ghost predicate AllWithin<T>(cal: Calendar, lo: int, hi: int, entries: seq<T>, stamp: T -> Option<int>) {
    forall i :: 0 <= i < |entries| && stamp(entries[i]).Some? ==> cal(lo) <= cal(stamp(entries[i]).value) <= cal(hi)
  }

  /** Creating a span claims the months of entries within it, and covers them exactly when they were placeable. */
  lemma SpanServes<T>(cal: Calendar, before: map<(int, int), int>, after: map<(int, int), int>, lo: int, hi: int,
                      entries: seq<T>, stamp: T -> Option<int>)
    requires Spans(before, after, cal(lo), cal(hi)) && AllWithin(cal, lo, hi, entries, stamp)
    ensures AllClaimed(cal, after, entries, stamp)
    ensures AllCovered(cal, after, entries, stamp) <==> AllPlaceable(cal, before, Some(lo), entries, stamp)
  {
    hide Placeable, Covered;
  }

  lemma ExtendedRule<T>(cal: Calendar, before: map<(int, int), int>, after: map<(int, int), int>, lo: int, hi: int, rows: seq<Row<T>>)
    requires Extends(before, after, lo, hi)
    ensures Claimed(cal, before, rows) ==> Claimed(cal, after, rows)
    ensures Owned(before) && lo >= FIRST_AD ==> Owned(after)
  {}

  lemma PlacedClaimed<T>(cal: Calendar, owners: map<(int, int), int>, was: seq<Row<T>>, pending: seq<T>, stamp: T -> Option<int>)
    requires Claimed(cal, owners, was) && AllClaimed(cal, owners, pending, stamp)
    ensures Claimed(cal, owners, was + Placed(cal, owners, pending, stamp))
  {}

  lemma PlacedEntries<T>(cal: Calendar, owners: map<(int, int), int>, entries: seq<T>, stamp: T -> Option<int>)
    ensures EntriesOf(Placed(cal, owners, entries, stamp)) == entries
  {}

  function Lower(x: Option<int>, ts: Option<int>): Option<int> {
    if ts.Some? && (x.None? || ts.value < x.value) then ts else x
  }

  function Higher(x: Option<int>, ts: Option<int>): Option<int> {
    if ts.Some? && (x.None? || ts.value > x.value) then ts else x
  }

  lemma SpanWidens(xs: seq<int>, lo: Option<int>, hi: Option<int>, ts: Option<int>)
    requires IsLeast(xs, lo) && IsGreatest(xs, hi)
    ensures IsLeast(xs + OptionSeq(ts), Lower(lo, ts)) && IsGreatest(xs + OptionSeq(ts), Higher(hi, ts))
  {
    if ts.None? {
      assert xs + OptionSeq(ts) == xs;
    } else {
      var ys := xs + [ts.value];
      assert ys[|xs|] == ts.value;
      assert forall x :: x in xs ==> x in ys;
    }
  }

  function LeastStamp<T>(es: seq<T>, stamp: T -> Option<int>): Option<int> {
    if |es| == 0 then None else Lower(LeastStamp(es[..|es| - 1], stamp), stamp(es[|es| - 1]))
  }

  function GreatestStamp<T>(es: seq<T>, stamp: T -> Option<int>): Option<int> {
    if |es| == 0 then None else Higher(GreatestStamp(es[..|es| - 1], stamp), stamp(es[|es| - 1]))
  }

  lemma {:induction false} StampBounds<T>(es: seq<T>, stamp: T -> Option<int>)
    ensures IsLeast(Stamps(es, stamp), LeastStamp(es, stamp)) && IsGreatest(Stamps(es, stamp), GreatestStamp(es, stamp))
  {
    if |es| > 0 {
      var front, e := es[..|es| - 1], es[|es| - 1];
      StampBounds(front, stamp);
      SpanWidens(Stamps(front, stamp), LeastStamp(front, stamp), GreatestStamp(front, stamp), stamp(e));
    }
  }

  /** A sequence of timestamps has one least and one greatest. */
  lemma BoundsUnique<T>(es: seq<T>, stamp: T -> Option<int>, lo: Option<int>, hi: Option<int>)
    requires IsLeast(Stamps(es, stamp), lo) && IsGreatest(Stamps(es, stamp), hi)
    ensures lo == LeastStamp(es, stamp) && hi == GreatestStamp(es, stamp)
  {
    StampBounds(es, stamp);
  }

  // --- Which flush takes which rows home ---

  /** Owners of names after a flush of entries whose timestamps span `lo` to `hi`. */
  function Spanned(cal: Calendar, owners: map<(int, int), int>, lo: Option<int>, hi: Option<int>): map<(int, int), int> {
    if lo.None? || hi.None? then owners else Created(owners, cal(lo.value), cal(hi.value))
  }

  /** Where an ingest stands: who owns the names, how many entries are held back, and whether all flushed ones went home. */
  datatype Ledger = Ledger(owners: map<(int, int), int>, held: nat, home: bool)

  ghost function FlushLedger<T>(cal: Calendar, l: Ledger, es: seq<T>, stamp: T -> Option<int>): Ledger
    requires l.held <= |es|
  {
    if l.held == 0 then l
    else Ledger(Spanned(cal, l.owners, LeastStamp(es, stamp), GreatestStamp(es, stamp)), 0,
                l.home && AllPlaceable(cal, l.owners, LeastStamp(es, stamp), es[|es| - l.held..], stamp))
  }

  /** The ledger after handing over `es`: each full batch is flushed over the span of everything up to it. */
  ghost function LedgerOf<T>(cal: Calendar, owners: map<(int, int), int>, es: seq<T>, stamp: T -> Option<int>): (l: Ledger)
    ensures l.held <= |es|
  {
    if |es| == 0 then Ledger(owners, 0, true)
    else
      var l := LedgerOf(cal, owners, es[..|es| - 1], stamp);
      if l.held + 1 < COPY_BATCH then l.(held := l.held + 1) else FlushLedger(cal, l.(held := l.held + 1), es, stamp)
  }

  /** Whether every entry of an upload will go home: a matter of the names owned beforehand and of the entries alone. */
  ghost predicate AllGoHome<T>(cal: Calendar, owners: map<(int, int), int>, es: seq<T>, stamp: T -> Option<int>) {
    FlushLedger(cal, LedgerOf(cal, owners, es, stamp), es, stamp).home
  }

  /** An upload below one batch is flushed once, over the span of the whole. */
  lemma {:induction false} OneBatch<T>(cal: Calendar, owners: map<(int, int), int>, es: seq<T>, stamp: T -> Option<int>)
    requires |es| < COPY_BATCH
    ensures LedgerOf(cal, owners, es, stamp) == Ledger(owners, |es|, true)
  {
    if |es| > 0 {
      OneBatch(cal, owners, es[..|es| - 1], stamp);
    }
  }

  lemma OneBatchHome<T>(cal: Calendar, owners: map<(int, int), int>, es: seq<T>, stamp: T -> Option<int>)
    requires |es| < COPY_BATCH
    ensures AllGoHome(cal, owners, es, stamp) <==> AllPlaceable(cal, owners, LeastStamp(es, stamp), es, stamp)
  {
    OneBatch(cal, owners, es, stamp);
    assert es[0..] == es;
  }

  /** One upload's transaction. `emitted` is everything the parser has handed over; `before` and `owned` are the table's
      rows and names as it started. */
  class Ingest<T> {
    const table: LogTable<T>
    const stamp: T -> Option<int>
    var pending: seq<T>
    var minTs: Option<int>
    var maxTs: Option<int>
    var copied: nat
    ghost var emitted: seq<T>
    ghost const before: seq<Row<T>>
    ghost const owned: map<(int, int), int>

    constructor (table: LogTable<T>, stamp: T -> Option<int>)
      ensures this.table == table && this.stamp == stamp && before == table.rows && owned == table.owners
      ensures emitted == [] && pending == [] && Valid() && OnLedger()
    {
      this.table, this.stamp := table, stamp;
      pending, minTs, maxTs, copied, emitted := [], None, None, 0, [];
      before, owned := table.rows, table.owners;
    }

    /** What was copied, then what is pending, is what was emitted; the span is that of everything emitted. */
    ghost predicate Valid()
      reads this, table
    {
      && |table.rows| == |before| + copied && table.rows[..|before|] == before
      && EntriesOf(table.rows[|before|..]) + pending == emitted && Timed(table.rows[|before|..], stamp)
      && IsLeast(Stamps(emitted, stamp), minTs) && IsGreatest(Stamps(emitted, stamp), maxTs)
    }

    /** The ingest stands where the ledger of what was emitted says. */
    ghost predicate OnLedger()
      reads this, table
    {
      var l := LedgerOf(table.cal, owned, emitted, stamp);
      && table.owners == l.owners && |pending| == l.held
      && (Homed(table.cal, table.rows) <==> Homed(table.cal, before) && l.home)
    }

    /** The pending rows will all go home: for each of them, its month's name is its own or free of earlier months of the span. */
    ghost predicate PendingGoHome()
      reads this, table
    {
      AllPlaceable(table.cal, table.owners, minTs, pending, stamp)
    }

    /** Create partitions for the span so far, then COPY what is pending. False when Postgres refused a partition. */
    method Flush() returns (ok: bool)
      requires Valid() && Monotone(table.cal)
      modifies this`pending, this`copied, table
      ensures ok ==> Valid() && pending == [] && copied == |emitted|
      ensures old(|pending|) == 0 ==> ok && unchanged(table)
      ensures old(TableClaimed(table)) ==> ok && TableClaimed(table)
      ensures ok ==> (Homed(table.cal, table.rows) <==> old(Homed(table.cal, table.rows)) && old(PendingGoHome()))
      ensures ok && old(|pending|) > 0 ==> table.owners == Spanned(table.cal, old(table.owners), minTs, maxTs)
      ensures old(TableSound(table)) && AllAD(table.cal, emitted, stamp) ==> TableSound(table)
    {
      if |pending| == 0 {
        assert EntriesOf(table.rows[|before|..]) + pending == EntriesOf(table.rows[|before|..]);
        return true;
      }
      var ensured := EnsureSpan();
      if !ensured {
        return false;
      }
      ghost var now := pending;
      CopyPending();
      if old(TableClaimed(table)) {
        PlacedClaimed(table.cal, table.owners, old(table.rows), now, stamp);
      }
      PlacedHomed(table.cal, table.owners, old(table.rows), now, stamp);
      ok := true;
    }

    /** COPY what is pending. */
    method CopyPending()
      requires Valid()
      modifies this`pending, this`copied, table`rows
      ensures Valid() && pending == [] && copied == |emitted|
      ensures table.rows == old(table.rows) + Placed(table.cal, table.owners, old(pending), stamp)
    {
      var n := table.CopyRows(pending, stamp);
      PlacedEntries(table.cal, table.owners, pending, stamp);
      TimedAfter(table.cal, table.owners, |before|, old(table.rows), pending, stamp);
      CopiedAfter(before, old(table.rows), Placed(table.cal, table.owners, pending, stamp), pending, emitted);
      copied := copied + n;
      pending := [];
      assert EntriesOf(table.rows[|before|..]) + [] == emitted;
    }

    lemma PendingIsTail()
      requires Valid()
      ensures |emitted| >= |pending| && pending == emitted[|emitted| - |pending|..]
    {}

    lemma PendingInSpan()
      requires Valid() && Monotone(table.cal)
      ensures if minTs.Some? && maxTs.Some? then AllWithin(table.cal, minTs.value, maxTs.value, pending, stamp)
              else forall j :: 0 <= j < |pending| ==> stamp(pending[j]).None?
    {
      PendingIsTail();
      forall j | 0 <= j < |pending| && stamp(pending[j]).Some?
        ensures minTs.Some? && maxTs.Some? && table.cal(minTs.value) <= table.cal(stamp(pending[j]).value) <= table.cal(maxTs.value)
      {
        InSpan(table.cal, emitted, stamp, minTs, maxTs, |emitted| - |pending| + j);
      }
    }

    lemma PendingAD()
      requires Valid() && Monotone(table.cal) && Owned(table.owners) && AllAD(table.cal, emitted, stamp)
      ensures PendingGoHome() && (minTs.Some? ==> table.cal(minTs.value) >= FIRST_AD)
    {
      PendingIsTail();
      ADPlaceable(table.cal, table.owners, emitted, stamp, minTs, maxTs);
      if minTs.Some? {
        StampsAD(table.cal, emitted, stamp, minTs.value);
      }
    }

    /** Partitions for every month between the least and the greatest timestamp so far. */
    method EnsureSpan() returns (ok: bool)
      requires Valid() && Monotone(table.cal)
      modifies table`owners
      ensures Valid()
      ensures ok ==> AllClaimed(table.cal, table.owners, pending, stamp)
      ensures ok ==> (AllCovered(table.cal, table.owners, pending, stamp) <==> old(PendingGoHome()))
      ensures ok ==> table.owners == Spanned(table.cal, old(table.owners), minTs, maxTs)
      ensures old(TableClaimed(table)) ==> ok && TableClaimed(table)
      ensures ok && old(Owned(table.owners)) && AllAD(table.cal, emitted, stamp) ==> Owned(table.owners) && old(PendingGoHome())
    {
      PendingInSpan();
      if Owned(table.owners) && AllAD(table.cal, emitted, stamp) {
        PendingAD();
      }
      if minTs.None? || maxTs.None? {
        return true;
      }
      hide Created, Spans, Extends, Owned, Claimed, AllClaimed, AllCovered, AllPlaceable, AllWithin;
      if TableClaimed(table) {
        forall m | Name(m) !in table.owners ensures !table.Blocked(m) {
          ClaimedUnblocked(table, m);
        }
      }
      ghost var owners := table.owners;
      ok := table.EnsurePartitions(minTs.value, maxTs.value);
      ExtendedRule(table.cal, owners, table.owners, table.cal(minTs.value), table.cal(maxTs.value), table.rows);
      if ok {
        SpanServes(table.cal, owners, table.owners, minTs.value, maxTs.value, pending, stamp);
      }
    }

    /** Take an entry in: widen the span and hold the entry back. */
    method Hold(e: T)
      requires Valid()
      modifies this`pending, this`minTs, this`maxTs, this`emitted
      ensures Valid() && emitted == old(emitted) + [e] && pending == old(pending) + [e]
    {
      hide IsLeast, IsGreatest, EntriesOf;
      var ts := stamp(e);
      CollectSnoc(emitted, e, stamp);
      SpanWidens(Stamps(emitted, stamp), minTs, maxTs, ts);
      assert EntriesOf(table.rows[|before|..]) + (pending + [e]) == emitted + [e];
      if ts.Some? {
        if minTs.None? || ts.value < minTs.value {
          minTs := ts;
        }
        if maxTs.None? || ts.value > maxTs.value {
          maxTs := ts;
        }
      }
      pending := pending + [e];
      emitted := emitted + [e];
    }

    /** The parser's callback: widen the span, hold the row, and flush a full batch. */
    method Emit(e: T) returns (ok: bool)
      requires Valid() && Monotone(table.cal) && |pending| < COPY_BATCH
      modifies this`pending, this`copied, this`minTs, this`maxTs, this`emitted, table
      ensures emitted == old(emitted) + [e]
      ensures ok ==> Valid() && |pending| < COPY_BATCH
      ensures ok ==> if old(|pending|) + 1 < 5000 then pending == old(pending) + [e] && table.rows == old(table.rows) else pending == []
      ensures old(TableClaimed(table)) ==> ok && TableClaimed(table)
      ensures old(TableSound(table)) && AllAD(table.cal, emitted, stamp) ==> TableSound(table)
      ensures ok && old(OnLedger()) ==> OnLedger()
    {
      hide Created;
      Hold(e);
      ok := true;
      assert emitted[..|emitted| - 1] == old(emitted);
      if |pending| >= COPY_BATCH {
        PendingIsTail();
        BoundsUnique(emitted, stamp, minTs, maxTs);
        ok := Flush();
      }
    }

    /** Ingest a whole upload: every entry is copied, in order, and counted. */
    method Run(entries: seq<T>) returns (ok: bool)
      requires Valid() && emitted == [] && pending == [] && Monotone(table.cal)
      modifies this`pending, this`copied, this`minTs, this`maxTs, this`emitted, table
      ensures ok ==> copied == |entries| && |table.rows| == |before| + |entries|
      ensures ok ==> table.rows[..|before|] == before && EntriesOf(table.rows[|before|..]) == entries && Timed(table.rows[|before|..], stamp)
      ensures entries == [] ==> ok
      ensures old(TableClaimed(table)) ==> ok && TableClaimed(table)
      ensures old(TableSound(table)) && AllAD(table.cal, entries, stamp) ==> TableSound(table)
      ensures ok && old(OnLedger()) ==>
        (Homed(table.cal, table.rows) <==> Homed(table.cal, before) && AllGoHome(table.cal, owned, entries, stamp))
    {
      ok := EmitAll(entries);
      if !ok {
        return;
      }
      PendingIsTail();
      BoundsUnique(emitted, stamp, minTs, maxTs);
      ok := Flush();
      assert ok ==> EntriesOf(table.rows[|before|..]) + pending == EntriesOf(table.rows[|before|..]);
    }

    /** Hand every entry to the callback. */
    method EmitAll(entries: seq<T>) returns (ok: bool)
      requires Valid() && emitted == [] && pending == [] && Monotone(table.cal)
      modifies this`pending, this`copied, this`minTs, this`maxTs, this`emitted, table
      ensures ok ==> Valid() && emitted == entries
      ensures entries == [] ==> ok
      ensures old(TableClaimed(table)) ==> ok && TableClaimed(table)
      ensures old(TableSound(table)) && AllAD(table.cal, entries, stamp) ==> TableSound(table)
      ensures ok && old(OnLedger()) ==> OnLedger()
    {
      ok := true;
      for i := 0 to |entries|
        invariant ok && Valid() && |pending| < COPY_BATCH && emitted == entries[..i]
        invariant old(TableClaimed(table)) ==> TableClaimed(table)
        invariant old(TableSound(table)) && AllAD(table.cal, entries[..i], stamp) ==> TableSound(table)
        invariant old(OnLedger()) ==> OnLedger()
      {
        ok := EmitAt(entries, i);
        if !ok {
          return;
        }
      }
      assert entries[..|entries|] == entries;
    }

    /** Hand over the next entry. */
    method EmitAt(entries: seq<T>, i: nat) returns (ok: bool)
      requires i < |entries| && Valid() && Monotone(table.cal) && |pending| < COPY_BATCH && emitted == entries[..i]
      modifies this`pending, this`copied, this`minTs, this`maxTs, this`emitted, table
      ensures ok ==> Valid() && |pending| < COPY_BATCH && emitted == entries[..i + 1]
      ensures old(TableClaimed(table)) ==> ok && TableClaimed(table)
      ensures AllAD(table.cal, entries[..i + 1], stamp) ==> AllAD(table.cal, entries[..i], stamp)
      ensures old(TableSound(table)) && AllAD(table.cal, entries[..i + 1], stamp) ==> TableSound(table)
      ensures ok && old(OnLedger()) ==> OnLedger()
    {
      assert entries[..i + 1] == entries[..i] + [entries[i]];
      assert entries[..i + 1][..i] == entries[..i];
      PrefixAD(table.cal, entries[..i + 1], stamp, i);
      ok := Emit(entries[i]);
    }
  }

  const FIRST_PRECREATED := 2024 * 12
  const LAST_PRECREATED := 2027 * 12 + 11

  /** The migrated schema: an empty table with the partitions of 2024 to 2027. */
  method Migrated<T>(cal: Calendar, from: int, to: int) returns (table: LogTable<T>)
    requires Monotone(cal) && cal(from) == FIRST_PRECREATED && cal(to) == LAST_PRECREATED
    ensures fresh(table) && table.cal == cal && table.rows == [] && TableSound(table)
    ensures forall name :: name in table.owners ==> FIRST_PRECREATED <= table.owners[name] <= LAST_PRECREATED
    ensures forall m :: FIRST_PRECREATED <= m <= LAST_PRECREATED ==> table.Has(m)
  {
    hide Created;
    table := new LogTable(cal);
    var ok := table.EnsurePartitions(from, to);
    forall m | FIRST_PRECREATED <= m <= LAST_PRECREATED ensures table.Has(m) {
      SpanCovered(map[], FIRST_PRECREATED, m);
    }
  }

  /** Any sequence of uploads, from the migrated schema: no partition is ever refused and every row is stored once, in
      order. While all uploads are of our era, every timestamped row lies in its own month, so DEFAULT holds rows
      without a timestamp only. */
  method IngestAll<T>(cal: Calendar, from: int, to: int, stamp: T -> Option<int>, uploads: seq<seq<T>>) returns (table: LogTable<T>)
    requires Monotone(cal) && cal(from) == FIRST_PRECREATED && cal(to) == LAST_PRECREATED
    ensures table.cal == cal && EntriesOf(table.rows) == Flatten(uploads) && TableClaimed(table)
    ensures (forall i :: 0 <= i < |uploads| ==> AllAD(cal, uploads[i], stamp)) ==> TableSound(table) && !Stray(table.rows)
  {
    table := Migrated(cal, from, to);
    for i := 0 to |uploads|
      invariant fresh(table) && table.cal == cal && TableClaimed(table) && EntriesOf(table.rows) == Flatten(uploads[..i])
      invariant (forall j :: 0 <= j < |uploads| ==> AllAD(cal, uploads[j], stamp)) ==> TableSound(table)
    {
      var ingest := new Ingest(table, stamp);
      ghost var was := table.rows;
      var ok := ingest.Run(uploads[i]);
      assert table.rows == was + table.rows[|was|..];
      EntriesAppend(was, table.rows[|was|..]);
      assert uploads[..i + 1][..i] == uploads[..i];
    }
    assert uploads[..|uploads|] == uploads;
    StrayUnlessHomed(table.cal, table.owners, table.rows);
  }

  function ItsTime(ts: int): Option<int> {
    Some(ts)
  }

  const MARCH_44_AD := 44 * 12 + 2
  const MARCH_44_BC := -43 * 12 + 2

  /** The span of an upload with one row of March 44 AD and one of March 44 BC claims their common name for the latter. */
  lemma ErasCollide(cal: Calendar, owners: map<(int, int), int>, ad: int, bc: int)
    requires Monotone(cal) && cal(ad) == MARCH_44_AD && cal(bc) == MARCH_44_BC && Name(MARCH_44_AD) !in owners
    ensures !AllGoHome(cal, owners, [ad, bc], ItsTime)
  {
    var least := LeastStamp([ad, bc], ItsTime);
    StampBounds([ad, bc], ItsTime);
    OneBatchHome(cal, owners, [ad, bc], ItsTime);
    assert bc == [ad, bc][1] && ad == [ad, bc][0];
    StampsHold([ad, bc], ItsTime, 1);
    assert least.Some? && least.value <= bc;
    PlaceableUnlessMirrored(owners, cal(least.value), MARCH_44_AD);
    assert ItsTime([ad, bc][0]) == Some(ad);
  }

  /** Before Christ the rule breaks: ingesting those two rows into the migrated schema is not refused, and leaves a row
      with a timestamp in DEFAULT. */
  method IngestTwoEras(cal: Calendar, from: int, to: int, ad: int, bc: int) returns (table: LogTable<int>)
    requires Monotone(cal) && cal(from) == FIRST_PRECREATED && cal(to) == LAST_PRECREATED
    requires cal(ad) == MARCH_44_AD && cal(bc) == MARCH_44_BC
    ensures EntriesOf(table.rows) == [ad, bc] && Stray(table.rows)
  {
    table := Migrated(cal, from, to);
    var ingest := new Ingest(table, ItsTime);
    ghost var owners := table.owners;
    var ok := ingest.Run([ad, bc]);
    assert table.rows == table.rows[0..];
    ErasCollide(cal, owners, ad, bc);
    StrayUnlessHomed(table.cal, table.owners, table.rows);
  }
}
