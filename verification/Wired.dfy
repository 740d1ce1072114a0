/** The pipeline over the wire: what workers store and fetch are the trees of partials, and a reduce that cannot load one
    raises. Exactness needs no assumption on names: what was saved was loaded, and what loads is what was dumped. */
module Wired {
  import opened Common
  import opened LogEntries
  import opened Aggregates
  import opened Candidates
  import opened Detection
  import opened Exactness
  import opened OffHours
  import opened Describing
  import opened Protocol
  import opened Progress
  import opened Publishing
  import opened Serialize
  import Wire
  import opened KeptEvidence
  import opened Pipeline
  import opened InsertionOrder

  type Dumper = Aggregate -> Tree

  ghost predicate Faithful(dumps: Dumper) {
    forall p :: IsTree(p, dumps(p))
  }

  // --- There is such a dump ---

  ghost function DumpOf<K(!new), V(!new), W>(d: map<K, V>, name: K -> string, dump: V -> W): (w: map<string, W>)
    ensures IsDump(d, name, dump, w)
  {
    var names := set k | k in d :: name(k);
    map s | s in names :: var k :| k in d && name(k) == s; dump(d[k])
  }

  ghost function TreeOf(p: Aggregate): (t: Tree)
    ensures IsTree(p, t)
  {
    Tree(DumpOf(p.ipMinute, Wire.MinuteName, Itself<seq<int>>), DumpOf(p.userHost, Wire.PairKey, Itself<ByteStats>), p.reqByteLogs,
         DumpOf(p.ipHostTimes, Wire.PairKey, Itself<seq<(real, int)>>), DumpOf(p.threats, Wire.PairKey, DumpThreat),
         DumpOf(p.hosts, Wire.HostName, DumpHost), DumpOf(p.hourCounts, Wire.Numeral, Itself<int>),
         DumpOf(p.hourActors, Wire.SlotName, DumpHour), p.entriesSeen)
  }

  lemma TreeOfIsFaithful() returns (dumps: Dumper)
    ensures Faithful(dumps)
  {
    dumps := p => TreeOf(p);
  }

  // --- Loading a whole list ---

  /** The reduce's `[loads(r) for r in raw]`, when none of them raises. */
  ghost predicate AllLoaded(trees: seq<Tree>, parts: seq<Aggregate>) {
    |trees| == |parts| && forall i :: 0 <= i < |trees| ==> IsLoaded(trees[i], Some(parts[i]))
  }

  /** What loads is what was dumped; so merging what came over the wire is merging the originals. */
  lemma WiredMerge(pick: Chooser, dumps: Dumper, originals: seq<Aggregate>, parts: seq<Aggregate>)
    requires Faithful(dumps) && AllLoaded(MapSeq(originals, dumps), parts)
    ensures parts == originals && MergeAllOf(pick, parts) == MergeAllOf(pick, originals)
    ensures forall i :: 0 <= i < |originals| ==> NoSeparator(originals[i])
  {
    forall i | 0 <= i < |parts| ensures parts[i] == originals[i] && NoSeparator(originals[i]) {
      assert MapSeq(originals, dumps)[i] == dumps(originals[i]);
      WireRoundTrip(originals[i], dumps(originals[i]), Some(parts[i]));
    }
  }

  ghost function LoadOf<K(!new), V, W>(w: map<string, W>, parse: string -> Option<K>, load: W -> V): (r: Option<map<K, V>>)
    ensures IsLoad(w, parse, load, r)
  {
    if exists s :: s in w && parse(s).None? then None
    else
      var keys := set s | s in w && parse(s).Some? :: parse(s).value;
      Some(map k | k in keys :: var s :| s in w && parse(s) == Some(k); load(w[s]))
  }

  lemma SomethingLoads(p: Aggregate, t: Tree)
    requires IsTree(p, t) && NoSeparator(p)
    ensures IsLoaded(t, Some(p))
  {
    var parts := Parts(
      LoadOf(t.ipMinute, Wire.ParseMinute, Itself<seq<int>>), LoadOf(t.userHost, Wire.ParsePair, Itself<ByteStats>),
      LoadOf(t.ipHostTimes, Wire.ParsePair, Itself<seq<(real, int)>>), LoadOf(t.threats, Wire.ParsePair, LoadThreat),
      LoadOf(t.hosts, Wire.ParseHost, LoadHost), LoadOf(t.hourCounts, Wire.ParseInt, Itself<int>),
      LoadOf(t.hourActors, Wire.ParseSlot, LoadHour));
    assert IsParts(t, parts);
    PartsBack(p, t, parts);
  }

  /** Some list loads exactly when no partial's names hold the separator: loading is what raises otherwise. */
  lemma LoadsIff(dumps: Dumper, originals: seq<Aggregate>)
    requires Faithful(dumps)
    ensures (exists parts :: AllLoaded(MapSeq(originals, dumps), parts))
       <==> forall i :: 0 <= i < |originals| ==> NoSeparator(originals[i])
  {
    if forall i :: 0 <= i < |originals| ==> NoSeparator(originals[i]) {
      forall i | 0 <= i < |originals| ensures IsLoaded(MapSeq(originals, dumps)[i], Some(originals[i])) {
        SomethingLoads(originals[i], dumps(originals[i]));
      }
      assert AllLoaded(MapSeq(originals, dumps), originals);
    }
    if parts :| AllLoaded(MapSeq(originals, dumps), parts) {
      WiredMerge(FirstEight, dumps, originals, parts);
    }
  }

  // --- The pipeline ---

  function WiredSlice(m: Maths, dumps: Dumper, rows: seq<LogEntry>): (int, int) -> Tree {
    (offset, limit) => dumps(MapSlice(m, rows)(offset, limit))
  }

  /** The analysis as it is run: `put_partial(dumps(map_shard(...)))`. */
  function WiredAnalysis(m: Maths, dumps: Dumper, rows: seq<LogEntry>, shardSize: int): Analysis<Tree> {
    Analysis(ShardsFor(|rows|, shardSize), SizeUsed(shardSize), WiredSlice(m, dumps, rows))
  }

  lemma WiredSlices(m: Maths, dumps: Dumper, rows: seq<LogEntry>, shardSize: int)
    ensures AllSlices(WiredAnalysis(m, dumps, rows, shardSize)) == MapSeq(AllSlices(AnalysisOf(m, rows, shardSize)), dumps)
  {
    var wired, plain := WiredAnalysis(m, dumps, rows, shardSize), AnalysisOf(m, rows, shardSize);
    forall k | 0 <= k < plain.shards ensures AllSlices(wired)[k] == dumps(AllSlices(plain)[k]) {
      assert AllSlices(wired)[k] == wired.slice(k * wired.size, wired.size);
      assert AllSlices(plain)[k] == plain.slice(k * plain.size, plain.size);
    }
  }

  /** The trees behind any save are those of the shards' maps. */
  lemma SavedTrees(m: Maths, dumps: Dumper, rows: seq<LogEntry>, shardSize: int, workers: nat, acts: seq<Action>, i: nat)
    requires Run(WiredAnalysis(m, dumps, rows, shardSize), workers, acts).Some?
    requires (|rows| <= SizeUsed(shardSize) && |rows| <= 10_000_000) || forall j :: 0 <= j < |acts| ==> !ByReaper(acts[j])
    requires i < |Run(WiredAnalysis(m, dumps, rows, shardSize), workers, acts).value.saves|
    ensures Run(WiredAnalysis(m, dumps, rows, shardSize), workers, acts).value.saves[i]
         == MapSeq(MapSeq(Slices(rows, ShardsFor(|rows|, shardSize), SizeUsed(shardSize)), MapOfShard(m)), dumps)
  {
    if |rows| <= SizeUsed(shardSize) && |rows| <= 10_000_000 {
      OneShardIsReaperSafe(m, rows, shardSize);
    }
    SavesAreExact(WiredAnalysis(m, dumps, rows, shardSize), workers, acts);
    WiredSlices(m, dumps, rows, shardSize);
    SlicesAreMaps(m, rows, shardSize);
  }

  /** End to end over the wire: whatever names the rows hold and whatever happens to workers, jobs and keys, findings that
      are saved from partials that loaded are those a single process finds in all rows. */
  lemma WiredFindingsAreExact(
      m: Maths, dumps: Dumper, rows: seq<LogEntry>, shardSize: int, workers: nat, acts: seq<Action>, i: nat,
      parts: seq<Aggregate>, pick1: Chooser, pick2: Chooser, saved: seq<Candidate>, whole: seq<Candidate>)
    requires Faithful(dumps) && Run(WiredAnalysis(m, dumps, rows, shardSize), workers, acts).Some?
    requires (|rows| <= SizeUsed(shardSize) && |rows| <= 10_000_000) || forall j :: 0 <= j < |acts| ==> !ByReaper(acts[j])
    requires i < |Run(WiredAnalysis(m, dumps, rows, shardSize), workers, acts).value.saves|
    requires AllLoaded(Run(WiredAnalysis(m, dumps, rows, shardSize), workers, acts).value.saves[i], parts)
    requires ChoosesEight(pick1) && ChoosesEight(pick2) && SeparateTitles(rows)
    requires IsResult(m, pick1, MergeAllOf(pick1, parts), saved) && IsResult(m, pick2, Whole(m, pick2, rows), whole)
    ensures MapSeq(saved, LooseFingerprint) == MapSeq(whole, LooseFingerprint)
    ensures Uncapped(MergeAllOf(pick1, parts).hourActors) ==> MapSeq(saved, Fingerprint) == MapSeq(whole, Fingerprint)
  {
    hide AllAnswer, Run;
    var shards := Slices(rows, ShardsFor(|rows|, shardSize), SizeUsed(shardSize));
    SavedTrees(m, dumps, rows, shardSize, workers, acts, i);
    WiredMerge(pick1, dumps, MapSeq(shards, MapOfShard(m)), parts);
    SlicesCover(rows, shardSize);
    ShardingIsExactInFull(m, pick1, pick2, shards, saved, whole);
  }

  /** The same in insertion order, which JSON objects keep: then names may read alike in titles too. */
  lemma WiredReportsAreExact(
      m: Maths, dumps: Dumper, rows: seq<LogEntry>, shardSize: int, workers: nat, acts: seq<Action>, i: nat,
      parts: seq<Aggregate>, pick1: Chooser, pick2: Chooser)
    requires Faithful(dumps) && Run(WiredAnalysis(m, dumps, rows, shardSize), workers, acts).Some?
    requires (|rows| <= SizeUsed(shardSize) && |rows| <= 10_000_000) || forall j :: 0 <= j < |acts| ==> !ByReaper(acts[j])
    requires i < |Run(WiredAnalysis(m, dumps, rows, shardSize), workers, acts).value.saves|
    requires AllLoaded(Run(WiredAnalysis(m, dumps, rows, shardSize), workers, acts).value.saves[i], parts)
    requires ChoosesEight(pick1) && ChoosesEight(pick2)
    ensures var merged := MergeAllOf(pick1, parts);
      var saved := ReportIn(m, pick1, merged, MergedOrdersOf(Slices(rows, ShardsFor(|rows|, shardSize), SizeUsed(shardSize))));
      var whole := ReportIn(m, pick2, Whole(m, pick2, rows), OrdersOf(rows));
      && MapSeq(saved, LooseFingerprint) == MapSeq(whole, LooseFingerprint)
      && (Uncapped(merged.hourActors) ==> MapSeq(saved, Fingerprint) == MapSeq(whole, Fingerprint))
  {
    hide ReportIn, Whole, Run;
    var shards := Slices(rows, ShardsFor(|rows|, shardSize), SizeUsed(shardSize));
    SavedTrees(m, dumps, rows, shardSize, workers, acts, i);
    WiredMerge(pick1, dumps, MapSeq(shards, MapOfShard(m)), parts);
    SlicesCover(rows, shardSize);
    ShardingInOrderIsExact(m, pick1, pick2, shards);
  }

  /** The shards of rows with plain keys load. */
  lemma PlainShardsLoad(m: Maths, dumps: Dumper, shards: seq<seq<LogEntry>>)
    requires Faithful(dumps) && forall k :: 0 <= k < |shards| ==> AllPlainKeys(shards[k])
    ensures AllLoaded(MapSeq(MapSeq(shards, MapOfShard(m)), dumps), MapSeq(shards, MapOfShard(m)))
  {
    var originals := MapSeq(shards, MapOfShard(m));
    forall k | 0 <= k < |shards| ensures IsLoaded(dumps(originals[k]), Some(originals[k])) {
      MapDescribes(m, shards[k]);
      RowsSurviveIff(m, originals[k], shards[k]);
      SomethingLoads(originals[k], dumps(originals[k]));
    }
  }

  lemma SlicePlainKeys(rows: seq<LogEntry>, offset: int, limit: int)
    requires AllPlainKeys(rows)
    ensures AllPlainKeys(Slice(rows, offset, limit))
  {
    var part := Slice(rows, offset, limit);
    forall j | 0 <= j < |part| ensures PlainKeys(part[j]) {
      SliceAt(rows, offset, limit, j);
    }
  }

  lemma SlicesPlain(rows: seq<LogEntry>, n: nat, size: int)
    requires AllPlainKeys(rows)
    ensures forall k :: 0 <= k < n ==> AllPlainKeys(Slices(rows, n, size)[k])
  {
    forall k | 0 <= k < n ensures AllPlainKeys(Slices(rows, n, size)[k]) {
      SlicePlainKeys(rows, k * size, size);
    }
  }

  /** Without faults and with plain keys, every run that has no step left is done, and its one save was loaded: no run
      fails for the wire's sake. */
  lemma PlainRunEndsLoaded(m: Maths, dumps: Dumper, rows: seq<LogEntry>, shardSize: int, workers: nat, acts: seq<Action>)
    requires Faithful(dumps) && AllPlainKeys(rows) && workers > 0
    requires var a := WiredAnalysis(m, dumps, rows, shardSize);
      Run(a, workers, acts).Some? && (forall i :: 0 <= i < |acts| ==> Faultless(acts[i])) && Stuck(a, Run(a, workers, acts).value)
    ensures var s, shards := Run(WiredAnalysis(m, dumps, rows, shardSize), workers, acts).value,
                             Slices(rows, ShardsFor(|rows|, shardSize), SizeUsed(shardSize));
      s.status == Done && |s.saves| == 1 && AllLoaded(s.saves[0], MapSeq(shards, MapOfShard(m)))
  {
    var a := WiredAnalysis(m, dumps, rows, shardSize);
    EndsDone(a, workers, acts);
    SavedTrees(m, dumps, rows, shardSize, workers, acts, 0);
    SlicesPlain(rows, ShardsFor(|rows|, shardSize), SizeUsed(shardSize));
    PlainShardsLoad(m, dumps, Slices(rows, ShardsFor(|rows|, shardSize), SizeUsed(shardSize)));
  }

  /** And there is such a run, for some dump of partials. */
  lemma PlainRunExists(m: Maths, rows: seq<LogEntry>, shardSize: int, workers: nat) returns (dumps: Dumper, acts: seq<Action>)
    requires AllPlainKeys(rows) && workers > 0
    ensures Faithful(dumps) && (forall i :: 0 <= i < |acts| ==> Faultless(acts[i]))
    ensures var a := WiredAnalysis(m, dumps, rows, shardSize);
      Run(a, workers, acts).Some? && Run(a, workers, acts).value.status == Done && |Run(a, workers, acts).value.saves| == 1
    ensures AllLoaded(Run(WiredAnalysis(m, dumps, rows, shardSize), workers, acts).value.saves[0],
                      MapSeq(Slices(rows, ShardsFor(|rows|, shardSize), SizeUsed(shardSize)), MapOfShard(m)))
  {
    dumps := TreeOfIsFaithful();
    acts := RunToEnd(WiredAnalysis(m, dumps, rows, shardSize), workers, []);
    PlainRunEndsLoaded(m, dumps, rows, shardSize, workers, acts);
  }
}
