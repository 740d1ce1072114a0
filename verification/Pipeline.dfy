/** End to end: whatever happens to workers, jobs and keys, findings that are saved are the findings a single
    process computes from all rows of the upload. */
module Pipeline {
  import opened Common
  import opened LogEntries
  import opened Aggregates
  import opened Candidates
  import opened Detection
  import opened Exactness
  import opened KeptEvidence
  import opened OffHours
  import opened Protocol
  import opened Publishing
  import opened Describing
  import opened Serialize
  import opened Readings
  import opened ResultFindings

  /** The aggregate a map job stores for a slice of the upload's rows. */
  function MapSlice(m: Maths, rows: seq<LogEntry>): (int, int) -> Aggregate {
    (offset, limit) => MapOf(m, Slice(rows, offset, limit))
  }

  /** The analysis published for an upload. */
  function AnalysisOf(m: Maths, rows: seq<LogEntry>, shardSize: int): Analysis<Aggregate> {
    Analysis(ShardsFor(|rows|, shardSize), SizeUsed(shardSize), MapSlice(m, rows))
  }

  lemma SlicesAreMaps(m: Maths, rows: seq<LogEntry>, shardSize: int)
    ensures AllSlices(AnalysisOf(m, rows, shardSize))
         == MapSeq(Slices(rows, ShardsFor(|rows|, shardSize), SizeUsed(shardSize)), MapOfShard(m))
  {
    var a := AnalysisOf(m, rows, shardSize);
    forall k | 0 <= k < a.shards
      ensures AllSlices(a)[k] == MapSeq(Slices(rows, a.shards, a.size), MapOfShard(m))[k]
    {
      assert AllSlices(a)[k] == MapSlice(m, rows)(k * a.size, a.size);
    }
  }

  /** An upload that fits one shard, and the reaper's ten million rows, is safe from the reaper. */
  lemma OneShardIsReaperSafe(m: Maths, rows: seq<LogEntry>, shardSize: int)
    requires |rows| <= SizeUsed(shardSize) && |rows| <= 10_000_000
    ensures ReaperSafe(AnalysisOf(m, rows, shardSize))
  {
    var a := AnalysisOf(m, rows, shardSize);
    ShardsEnough(|rows|, shardSize);
    if a.shards > 1 {
      ProductOrder(1, a.shards - 1, a.size);
    }
    assert Slice(rows, 0, a.size) == rows && Slice(rows, 0, 10_000_000) == rows;
    assert 0 * a.size == 0;
    assert a.slice(0, 10_000_000) == MapOf(m, rows) == a.slice(0, a.size);
  }

  lemma SavedParts(m: Maths, rows: seq<LogEntry>, shardSize: int, workers: nat, acts: seq<Action>, i: nat)
    requires Run(AnalysisOf(m, rows, shardSize), workers, acts).Some?
    requires (|rows| <= SizeUsed(shardSize) && |rows| <= 10_000_000) || forall j :: 0 <= j < |acts| ==> !ByReaper(acts[j])
    requires i < |Run(AnalysisOf(m, rows, shardSize), workers, acts).value.saves|
    ensures Run(AnalysisOf(m, rows, shardSize), workers, acts).value.saves[i]
         == MapSeq(Slices(rows, ShardsFor(|rows|, shardSize), SizeUsed(shardSize)), MapOfShard(m))
  {
    var a := AnalysisOf(m, rows, shardSize);
    if |rows| <= SizeUsed(shardSize) && |rows| <= 10_000_000 {
      OneShardIsReaperSafe(m, rows, shardSize);
    }
    SavesAreExact(a, workers, acts);
    SlicesAreMaps(m, rows, shardSize);
  }

  /** Every save of every run scores to what one process finds: in runs without the reaper for any upload, and with
      any number of reaper passes for an upload that fits one shard. Crashes, exceptions and key expiry are all allowed. */
  lemma SavedFindingsAreExact(
      m: Maths, rows: seq<LogEntry>, shardSize: int, workers: nat, acts: seq<Action>, i: nat,
      pick1: Chooser, pick2: Chooser, saved: seq<Candidate>, whole: seq<Candidate>)
    requires Run(AnalysisOf(m, rows, shardSize), workers, acts).Some?
    requires (|rows| <= SizeUsed(shardSize) && |rows| <= 10_000_000) || forall j :: 0 <= j < |acts| ==> !ByReaper(acts[j])
    requires i < |Run(AnalysisOf(m, rows, shardSize), workers, acts).value.saves|
    requires ChoosesEight(pick1) && ChoosesEight(pick2) && SeparateTitles(rows)
    requires IsResult(m, pick1, MergeAllOf(pick1, Run(AnalysisOf(m, rows, shardSize), workers, acts).value.saves[i]), saved)
    requires IsResult(m, pick2, MergeAllOf(pick2, [MapOf(m, rows)]), whole)
    ensures MapSeq(saved, LooseFingerprint) == MapSeq(whole, LooseFingerprint)
    ensures Uncapped(MergeAllOf(pick1, Run(AnalysisOf(m, rows, shardSize), workers, acts).value.saves[i]).hourActors) ==>
      MapSeq(saved, Fingerprint) == MapSeq(whole, Fingerprint)
    ensures FewHosts(rows) ==> MapSeq(saved, Fingerprint) == MapSeq(whole, Fingerprint)
  {
    SavedParts(m, rows, shardSize, workers, acts, i);
    var shards := Slices(rows, ShardsFor(|rows|, shardSize), SizeUsed(shardSize));
    SlicesCover(rows, shardSize);
    ShardingIsExactInFull(m, pick1, pick2, shards, saved, whole);
    ShardingIsExact(m, pick1, pick2, shards, rows, saved, whole);
  }

  lemma SlicePlain(rows: seq<LogEntry>, offset: int, limit: int)
    requires PlainRows(rows)
    ensures PlainRows(Slice(rows, offset, limit))
  {}

  lemma MapSurvives(m: Maths, slice: seq<LogEntry>)
    requires PlainRows(slice)
    ensures NoSeparator(MapOf(m, slice))
  {
    MapDescribes(m, slice);
    PlainRowsSurvive(m, MapOf(m, slice), slice);
  }

  /** Partials reach the reduce as they left the map: rows whose names hold no separator survive the wire. */
  lemma StoredPartialSurvives(m: Maths, rows: seq<LogEntry>, offset: int, limit: int, t: Tree, r: Option<Aggregate>)
    requires PlainRows(rows) && IsTree(MapSlice(m, rows)(offset, limit), t) && IsLoaded(t, r)
    ensures r == Some(MapSlice(m, rows)(offset, limit))
  {
    SlicePlain(rows, offset, limit);
    MapSurvives(m, Slice(rows, offset, limit));
    WireRoundTrip(MapSlice(m, rows)(offset, limit), t, r);
  }

  /** Whatever happens to workers and jobs, what is saved is a report of the upload's rows. */
  lemma SavedFindingsTell(
      m: Maths, rows: seq<LogEntry>, shardSize: int, workers: nat, acts: seq<Action>, i: nat, pick: Chooser, saved: seq<Candidate>)
    requires (|rows| <= SizeUsed(shardSize) && |rows| <= 10_000_000) || forall j :: 0 <= j < |acts| ==> !ByReaper(acts[j])
    requires ChoosesEight(pick)
    requires var end := Run(AnalysisOf(m, rows, shardSize), workers, acts);
      end.Some? && i < |end.value.saves| && IsResult(m, pick, MergeAllOf(pick, end.value.saves[i]), saved)
    ensures IsReport(m, rows, saved)
  {
    hide IsResult, IsReport, Run, ChoosesEight;
    SavedParts(m, rows, shardSize, workers, acts, i);
    SlicesCover(rows, shardSize);
    ReduceTells(m, pick, Slices(rows, ShardsFor(|rows|, shardSize), SizeUsed(shardSize)), saved);
  }
}
