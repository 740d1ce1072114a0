/** From CSV records to stored rows: parsing and ingest together, in one transaction. */
module UploadFlow {
  import opened Common
  import opened NssFields
  import opened Zscaler
  import opened Partitions
  import opened Ingesting

  datatype Failure = Unreadable | Refused | EmptyFile

  datatype Ingested = Ingested(stats: Stats, entries: int)

  function StampOf(e: Entry): Option<int> {
    e.ts
  }

  method ParseLines(lib: Library, records: seq<Record>, delimiter: char) returns (ok: bool, entries: seq<Entry>, stats: Stats)
    ensures !ok <==> |records| > 0 && records[0].Malformed?
    ensures ok ==> stats.lineCount == |records| && |entries| == if |records| == 0 then 0 else |records| - 1
    ensures ok && |records| > 0 ==> EntriesRead(lib, records, delimiter, entries)
  {
    var cols;
    ok, entries, stats, cols := Parse(lib, records, delimiter);
  }

  /** New rows carry their entry's line number and timestamp. */
  lemma FiledRows(lib: Library, records: seq<Record>, delimiter: char, rows: seq<Row<Entry>>, from: nat)
    requires from <= |rows| && Timed(rows[from..], StampOf) && EntriesRead(lib, records, delimiter, EntriesOf(rows[from..]))
    ensures forall i :: from <= i < |rows| ==> rows[i].entry.lineNo == i - from + 2 && rows[i].ts == rows[i].entry.ts
  {
    hide EntryReads;
    forall i | from <= i < |rows| ensures rows[i].entry.lineNo == i - from + 2 && rows[i].ts == rows[i].entry.ts {
      assert EntriesOf(rows[from..])[i - from] == rows[i].entry;
      assert rows[from..][i - from] == rows[i];
    }
  }

  /** Ingest one file. On success every record after the header was stored once, in file order, under its line number,
      and the reported count is the line count less the header. */
  method IngestUpload(lib: Library, records: seq<Record>, delimiter: char, table: LogTable<Entry>) returns (r: Result<Ingested, Failure>)
    requires Monotone(table.cal)
    modifies table
    ensures r.Ok? ==> |records| > 0 && r.value.stats.lineCount == |records| && r.value.entries == r.value.stats.lineCount - 1
    ensures r.Ok? ==> |table.rows| == |old(table.rows)| + |records| - 1 && table.rows[..|old(table.rows)|] == old(table.rows)
    ensures r.Ok? ==> EntriesRead(lib, records, delimiter, EntriesOf(table.rows[|old(table.rows)|..]))
    ensures r.Ok? ==> forall i :: |old(table.rows)| <= i < |table.rows| ==>
      table.rows[i].entry.lineNo == i - |old(table.rows)| + 2 && table.rows[i].ts == table.rows[i].entry.ts
    ensures r == Err(EmptyFile) <==> |records| == 0
    ensures old(TableClaimed(table)) ==> r != Err(Refused) && TableClaimed(table)
    ensures r == Err(Unreadable) <==> |records| > 0 && records[0].Malformed?
  {
    hide Ingest.OnLedger, AllGoHome, EntriesOf, Timed, EntriesRead;
    var ok, entries, stats := ParseLines(lib, records, delimiter);
    if !ok {
      return Err(Unreadable);
    }
    var ingest := new Ingest(table, StampOf);
    ghost var before := table.rows;
    ok := ingest.Run(entries);
    if !ok {
      return Err(Refused);
    }
    if stats.lineCount == 0 {
      return Err(EmptyFile);
    }
    FiledRows(lib, records, delimiter, table.rows, |before|);
    r := Ok(Ingested(stats, ingest.copied));
  }
}
