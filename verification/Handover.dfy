/** From a file to an analysis: the rows that are ingested are the rows that are sharded. The COPY writes an entry's
    columns, empty strings as NULL; the worker reads them back ordered by line number. */
module Handover {
  import opened Common
  import opened NssFields
  import opened Partitions
  import opened Ingesting
  import opened UploadFlow
  import opened Publishing
  import opened Protocol
  import opened Pipeline
  import LogEntries
  import Rollups

  function Nullable(s: string): Option<string> {
    if s == "" then None else Some(s)
  }

  /** The row the worker loads for a stored entry, `id` being its identity column. */
  function Loaded(id: int, e: Entry): LogEntries.LogEntry {
    LogEntries.LogEntry(id, e.lineNo, e.ts, Nullable(e.clientIp), Nullable(e.username), Nullable(e.host), Nullable(e.url),
                        Nullable(e.action), e.reqBytes, Nullable(e.threatName))
  }

  /** The row the rollups are built from. */
  function Counted(e: Entry): Rollups.Row {
    Rollups.Row(if e.ts.Some? then Some(e.ts.value / LogEntries.SECOND) else None, Nullable(e.host), e.respCode, e.reqBytes,
                e.respBytes, Nullable(e.cacheStatus))
  }

  /** A text column: nothing where the entry has no text. */
  ghost predicate Holding(column: Option<string>, text: string) {
    (column == None <==> text == "") && (column.Some? ==> column.value == text)
  }

  /** Every column the worker loads is the entry's own. */
  ghost predicate LoadsEntry(row: LogEntries.LogEntry, id: int, e: Entry) {
    && row.id == id && row.lineNo == e.lineNo && row.ts == e.ts && row.reqBytes == e.reqBytes
    && Holding(row.clientIp, e.clientIp) && Holding(row.username, e.username) && Holding(row.host, e.host)
    && Holding(row.url, e.url) && Holding(row.action, e.action) && Holding(row.threatName, e.threatName)
  }

  /** So is every column the rollups are built from; a timestamp is cut to whole seconds. */
  ghost predicate CountsEntry(row: Rollups.Row, e: Entry) {
    && (row.ts.Some? <==> e.ts.Some?)
    && (row.ts.Some? ==> row.ts.value * 1_000_000 <= e.ts.value < (row.ts.value + 1) * 1_000_000)
    && row.reqBytes == e.reqBytes && row.respBytes == e.respBytes && row.respCode == e.respCode
    && Holding(row.host, e.host) && Holding(row.cacheStatus, e.cacheStatus)
  }

  lemma ColumnsKept(id: int, e: Entry)
    ensures LoadsEntry(Loaded(id, e), id, e) && CountsEntry(Counted(e), e)
  {}

  /** An upload's rows as the worker reads them: those appended to the table from position `from` on. The database numbers
      them as it likes. */
  function UploadRows(stored: seq<Partitions.Row<Entry>>, from: nat, ids: nat -> int): seq<LogEntries.LogEntry>
    requires from <= |stored|
  {
    seq(|stored| - from, i requires 0 <= i < |stored| - from => Loaded(ids(i), stored[from + i].entry))
  }

  ghost predicate LineOrdered(rows: seq<LogEntries.LogEntry>) {
    forall i, j :: 0 <= i < j < |rows| ==> rows[i].lineNo < rows[j].lineNo
  }

  /** Ingest a file and publish its analysis. When both succeed, the jobs on the queue are those of the analysis of exactly
      the stored rows, one a record after the header, in line order. */
  method IngestAndPublish(lib: Library, records: seq<Record>, delimiter: char, table: LogTable<Entry>, redis: Redis,
                          shardSize: int, ghost ids: nat -> int)
    returns (r: Result<Ingested, Failure>)
    requires Monotone(table.cal)
    modifies table, redis
    ensures old(TableClaimed(table)) ==> r != Err(Refused)
    ensures r.Err? ==> redis.queue == old(redis.queue) && redis.pending == old(redis.pending)
    ensures r.Ok? ==> |records| > 0 && |table.rows| == old(|table.rows|) + |records| - 1
    ensures r.Ok? ==> EntriesRead(lib, records, delimiter, EntriesOf(table.rows[old(|table.rows|)..]))
    ensures r.Ok? ==> forall i :: 0 <= i < |records| - 1 ==>
      LoadsEntry(UploadRows(table.rows, old(|table.rows|), ids)[i], ids(i), table.rows[old(|table.rows|) + i].entry)
    ensures r.Ok? ==> LineOrdered(UploadRows(table.rows, old(|table.rows|), ids))
    ensures r.Ok? ==> redis.pending.Some? && redis.pending.value >= 0
                      && Fanned(|records| - 1, shardSize, redis.pending.value, redis.queue)
    ensures r.Ok? ==> forall m ::
      var a := AnalysisOf(m, UploadRows(table.rows, old(|table.rows|), ids), shardSize);
      redis.queue == Published(a) + old(redis.queue) && redis.pending == Some(a.shards)
  {
    hide EntriesRead, LoadsEntry, Fanned, Claimed;
    r := IngestUpload(lib, records, delimiter, table);
    if r.Err? {
      return;
    }
    forall id, e ensures LoadsEntry(Loaded(id, e), id, e) {
      ColumnsKept(id, e);
    }
    ghost var rows := UploadRows(table.rows, old(|table.rows|), ids);
    forall i | 0 <= i < |rows| ensures rows[i].lineNo == i + 2 {
      assert rows[i] == Loaded(ids(i), table.rows[old(|table.rows|) + i].entry);
    }
    var shards := redis.PublishAnalysis(r.value.entries, shardSize);
    forall m ensures redis.queue == Published(AnalysisOf(m, rows, shardSize)) + old(redis.queue) {
      var a := AnalysisOf(m, rows, shardSize);
      PublishedQueue(a, redis.queue[..shards]);
      assert redis.queue == redis.queue[..shards] + redis.queue[shards..];
    }
  }

  function HasTime(e: Entry): Option<int> {
    e.ts
  }

  function RowTime(row: Rollups.Row): Option<int> {
    row.ts
  }

  lemma OneRequest(row: Rollups.Row, hit: string -> bool)
    ensures Rollups.Timestamped(hit)(row).Some? <==> row.ts.Some?
    ensures row.ts.Some? ==> Rollups.Timestamped(hit)(row).value.requests == 1
  {
    assert Rollups.Contribution(hit)(row).requests == 1;
  }

  lemma {:induction false} RequestsCounted(rows: seq<Rollups.Row>, hit: string -> bool)
    ensures Rollups.Grand(Collect(rows, Rollups.Timestamped(hit))).requests == |Collect(rows, RowTime)|
  {
    if |rows| > 0 {
      var front, row, stamped := rows[..|rows| - 1], rows[|rows| - 1], Rollups.Timestamped(hit);
      RequestsCounted(front, hit);
      assert Collect(rows, stamped) == Collect(front, stamped) + OptionSeq(stamped(row));
      assert Collect(rows, RowTime) == Collect(front, RowTime) + OptionSeq(RowTime(row));
      Rollups.GrandMore(Collect(front, stamped), stamped(row));
      OneRequest(row, hit);
    }
  }

  lemma {:induction false} SameTimes(entries: seq<Entry>)
    ensures |Collect(MapSeq(entries, Counted), RowTime)| == |Stamps(entries, HasTime)|
  {
    if |entries| > 0 {
      var n := |entries| - 1;
      SameTimes(entries[..n]);
      MapSeqSnoc(entries[..n], entries[n], Counted);
      assert entries == entries[..n] + [entries[n]];
      CollectSnoc(MapSeq(entries[..n], Counted), Counted(entries[n]), RowTime);
    }
  }

  /** Either rollup is built from the entries' own columns, and counts exactly those that the ingest saw a timestamp on. */
  lemma RollupsCountIngested(entries: seq<Entry>, hit: string -> bool, grain: int)
    requires grain > 0
    ensures var rows := MapSeq(entries, Counted);
      && Rollups.HasFigures(Rollups.SumOver(Rollups.EntryRollup(rows, hit, grain), Rollups.Everything<Rollups.Key>()), rows, hit, Rollups.HasTime)
      && forall i :: 0 <= i < |entries| ==> CountsEntry(rows[i], entries[i])
    ensures Rollups.SumOver(Rollups.EntryRollup(MapSeq(entries, Counted), hit, grain), Rollups.Everything<Rollups.Key>()).requests
         == |Stamps(entries, HasTime)|
  {
    hide CountsEntry, Counted, Rollups.HasFigures, Rollups.Grand, Rollups.SumOver, Rollups.EntryRollup;
    forall e ensures CountsEntry(Counted(e), e) {
      ColumnsKept(0, e);
    }
    Rollups.TotalsAgree(MapSeq(entries, Counted), hit, grain);
    RequestsCounted(MapSeq(entries, Counted), hit);
    SameTimes(entries);
  }
}
