/** When the reaper can spoil an analysis: exactly when the upload does not fit one shard, or not the reaper's ten
    million rows. A reaper pass requeues one shard of everything, leaving the counter and the other partials alone. */
module ReaperHazard {
  import opened Common
  import opened LogEntries
  import opened Aggregates
  import opened Protocol
  import opened Worker
  import opened Scenarios
  import opened Publishing
  import opened Exactness
  import opened Pipeline

  /** Shards 0 to `k`-1 are mapped, stored and counted, and nobody is at work. */
  ghost predicate FirstDone<P>(a: Analysis<P>, s: State<P>, k: nat)
    requires k <= a.shards
  {
    && s.workers == [Idle, Idle] && Claimable(s.status) && s.counter == Some(a.shards - k)
    && s.queue == Published(a)[..a.shards - k]
    && s.partials == (map j: nat | j < k :: SliceOf(a, j)) && s.saves == [] && s.reaping == 0
  }

  lemma NextShard<P>(a: Analysis<P>, k: nat, before: seq<Action>, s: State<P>) returns (acts: seq<Action>, t: State<P>)
    requires k + 1 < a.shards && Leads({ReaperPass}, a, before, s) && FirstDone(a, s, k)
    ensures Leads({ReaperPass}, a, acts, t) && FirstDone(a, t, k + 1)
  {
    hide Leads;
    NextPublished(a, k);
    acts, t := DoShard({ReaperPass}, a, before, s, JobOf(a, k));
    assert t.partials == (map j: nat | j < k + 1 :: SliceOf(a, j));
  }

  lemma {:induction false} FirstShards<P>(a: Analysis<P>, k: nat) returns (acts: seq<Action>, s: State<P>)
    requires k < a.shards
    ensures Leads({ReaperPass}, a, acts, s) && FirstDone(a, s, k)
  {
    if k == 0 {
      acts, s := [], Start(a, 2);
      assert s.workers == [Idle, Idle];
    } else {
      hide FirstDone;
      acts, s := FirstShards(a, k - 1);
      acts, s := NextShard(a, k - 1, acts, s);
    }
  }

  /** What the reaper leaves behind: its job has been mapped over shard 0, worker 0 has yet to count it, and worker 1
      holds the last shard, mapped but not stored. */
  ghost predicate Reaped<P>(a: Analysis<P>, s: State<P>)
    requires a.shards > 0
  {
    var last := a.shards - 1;
    && s.workers == [Counting(REAPER_JOB), Storing(JobOf(a, last), SliceOf(a, last))]
    && s.status == Running && s.queue == [] && s.counter == Some(1) && s.saves == []
    && s.partials == (map j: nat | j < last :: SliceOf(a, j))[0 := a.slice(0, 10_000_000)]
  }

  /** All shards but the last are done, and worker 1 has mapped the last. */
  lemma HoldLast<P>(a: Analysis<P>) returns (acts: seq<Action>, s: State<P>)
    requires a.shards > 0
    ensures Leads({ReaperPass}, a, acts, s)
    ensures var last := a.shards - 1;
      && s.workers == [Idle, Storing(JobOf(a, last), SliceOf(a, last))]
      && s.status == Running && s.queue == [] && s.counter == Some(1) && s.saves == [] && s.reaping == 0
      && s.partials == (map j: nat | j < last :: SliceOf(a, j))
  {
    var last := a.shards - 1;
    var s0;
    acts, s0 := FirstShards(a, last);
    NextPublished(a, last);
    acts, s := TakeAndMap({ReaperPass}, a, acts, s0, 1, JobOf(a, last));
  }

  /** One pass of the reaper over an empty queue. */
  lemma Reap<P>(a: Analysis<P>, acts: seq<Action>, s: State<P>) returns (longer: seq<Action>, t: State<P>)
    requires Leads({ReaperPass}, a, acts, s) && s.status == Running && s.queue == [] && s.reaping == 0
    ensures Leads({ReaperPass}, a, longer, t) && t == s.(status := Queued, queue := [REAPER_JOB])
  {
    var marked := s.(status := Queued, reaping := 1);
    longer := Go({ReaperPass}, a, acts, s, ReaperMark, marked);
    t := s.(status := Queued, queue := [REAPER_JOB]);
    assert [REAPER_JOB] + marked.queue == t.queue;
    longer := Go({ReaperPass}, a, longer, marked, ReaperPush, t);
  }

  /** The reaper's job is mapped over shard 0 while the last shard is held. */
  lemma ReapOnce<P>(a: Analysis<P>) returns (acts: seq<Action>, s: State<P>)
    requires a.shards > 0
    ensures Leads({ReaperPass}, a, acts, s) && Reaped(a, s)
  {
    var s1, s2, s3;
    acts, s1 := HoldLast(a);
    acts, s2 := Reap(a, acts, s1);
    acts, s3 := TakeAndMap({ReaperPass}, a, acts, s2, 0, REAPER_JOB);
    acts, s := Store({ReaperPass}, a, acts, s3, 0, REAPER_JOB, a.slice(0, 10_000_000));
  }

  /** The reaper's own worker closes the count and reduces its one partial: the first ten million rows. */
  lemma ReaperReducesAlone<P>(a: Analysis<P>) returns (acts: seq<Action>, t: State<P>)
    requires a.shards > 0
    ensures Leads({ReaperPass}, a, acts, t) && t.saves == [[a.slice(0, 10_000_000)]]
  {
    var s, s1;
    acts, s := ReapOnce(a);
    acts, s1 := CountOff({ReaperPass}, a, acts, s, 0, REAPER_JOB);
    FetchedAre(s1.partials, [a.slice(0, 10_000_000)]);
    assert s1.queue == [ReduceJob(1)];
    acts, t := TakeAndReduce({ReaperPass}, a, acts, s1, 0, 1, [a.slice(0, 10_000_000)]);
  }

  /** Everything in place of shard 0, then the other shards. */
  function Mixed<P>(a: Analysis<P>): seq<P>
    requires a.shards > 0
  {
    AllSlices(a)[0 := a.slice(0, 10_000_000)]
  }

  /** The slow worker closes the count instead, and the reduce merges the reaper's partial with the other shards. */
  lemma ReaperMixesShards<P>(a: Analysis<P>) returns (acts: seq<Action>, t: State<P>)
    requires a.shards >= 2
    ensures Leads({ReaperPass}, a, acts, t) && t.saves == [Mixed(a)]
  {
    hide Leads;
    var last := a.shards - 1;
    var s, s1, s2;
    acts, s := ReapOnce(a);
    acts, s1 := Store({ReaperPass}, a, acts, s, 1, JobOf(a, last), SliceOf(a, last));
    acts, s2 := CountOff({ReaperPass}, a, acts, s1, 1, JobOf(a, last));
    FetchedAre(s2.partials, Mixed(a));
    assert s2.queue == [ReduceJob(a.shards)];
    acts, t := TakeAndReduce({ReaperPass}, a, acts, s2, 1, a.shards, Mixed(a));
  }

  // --- On real uploads ---

  lemma {:induction false} FlattenHead<T>(x: seq<T>, ys: seq<seq<T>>)
    ensures Flatten([x] + ys) == x + Flatten(ys)
  {
    var all := [x] + ys;
    if |ys| == 0 {
      assert all == [x] && all[..0] == [];
    } else {
      FlattenHead(x, ys[..|ys| - 1]);
      assert all[..|all| - 1] == [x] + ys[..|ys| - 1];
    }
  }

  /** The rows behind the reduce of `ReaperMixesShards`. */
  function MixedSlices(rows: seq<LogEntry>, shardSize: int): seq<seq<LogEntry>> {
    [Slice(rows, 0, 10_000_000)] + Slices(rows, ShardsFor(|rows|, shardSize), SizeUsed(shardSize))[1..]
  }

  lemma MixedAreMaps(m: Maths, rows: seq<LogEntry>, shardSize: int)
    ensures Mixed(AnalysisOf(m, rows, shardSize)) == MapSeq(MixedSlices(rows, shardSize), MapOfShard(m))
  {
    SlicesAreMaps(m, rows, shardSize);
  }

  /** With more than one shard the mixed rows outnumber the upload, while it fits the reaper's job. */
  lemma MixedTooMany(rows: seq<LogEntry>, shardSize: int)
    requires SizeUsed(shardSize) < |rows| <= 10_000_000
    ensures |Flatten(MixedSlices(rows, shardSize))| > |rows|
  {
    var size := SizeUsed(shardSize);
    var slices := Slices(rows, ShardsFor(|rows|, shardSize), size);
    assert slices[0] == Slice(rows, 0, size) by {
      assert 0 * size == 0;
    }
    assert slices == [slices[0]] + slices[1..];
    FlattenHead(slices[0], slices[1..]);
    FlattenHead(Slice(rows, 0, 10_000_000), slices[1..]);
    SlicesCover(rows, shardSize);
  }

  /** What was saved as save `i` of a run. */
  ghost predicate SavedBy(a: Analysis<Aggregate>, workers: nat, acts: seq<Action>, i: nat, parts: seq<Aggregate>) {
    Run(a, workers, acts).Some? && i < |Run(a, workers, acts).value.saves| && Run(a, workers, acts).value.saves[i] == parts
  }

  /** Whatever any run saves is an aggregate of exactly the upload's rows. */
  ghost predicate AlwaysExact(m: Maths, pick: Chooser, rows: seq<LogEntry>, shardSize: int) {
    forall workers, acts, i, parts :: SavedBy(AnalysisOf(m, rows, shardSize), workers, acts, i, parts) ==>
      Describes(m, MergeAllOf(pick, parts), rows)
  }

  lemma LedIsSaved(a: Analysis<Aggregate>, acts: seq<Action>, t: State<Aggregate>, parts: seq<Aggregate>)
    requires Leads({ReaperPass}, a, acts, t) && t.saves == [parts]
    ensures SavedBy(a, 2, acts, 0, parts)
  {
    RunIsExec(a, 2, acts);
  }

  /** A save of the maps of some rows, too many or too few, is not exact. */
  lemma WrongCount(m: Maths, pick: Chooser, rows: seq<LogEntry>, shardSize: int,
                   acts: seq<Action>, t: State<Aggregate>, shards: seq<seq<LogEntry>>)
    requires ChoosesEight(pick) && Leads({ReaperPass}, AnalysisOf(m, rows, shardSize), acts, t)
    requires t.saves == [MapSeq(shards, MapOfShard(m))] && |Flatten(shards)| != |rows|
    ensures !AlwaysExact(m, pick, rows, shardSize)
  {
    var parts := MapSeq(shards, MapOfShard(m));
    LedIsSaved(AnalysisOf(m, rows, shardSize), acts, t, parts);
    ReducedDescribes(m, pick, shards);
    assert MergeAllOf(pick, parts).entriesSeen == |Flatten(shards)|;
    assert !Describes(m, MergeAllOf(pick, parts), rows);
  }

  /** More than ten million rows: the reaper's job alone misses the rest. */
  lemma TooManyRows(m: Maths, pick: Chooser, rows: seq<LogEntry>, shardSize: int)
    requires ChoosesEight(pick) && |rows| > 10_000_000
    ensures !AlwaysExact(m, pick, rows, shardSize)
  {
    var a := AnalysisOf(m, rows, shardSize);
    var slice := Slice(rows, 0, 10_000_000);
    var acts, t := ReaperReducesAlone(a);
    OneShard(m, slice);
    WrongCount(m, pick, rows, shardSize, acts, t, [slice]);
  }

  /** More than one shard: the reaper's job counts the others' rows twice. */
  lemma TooManyShards(m: Maths, pick: Chooser, rows: seq<LogEntry>, shardSize: int)
    requires ChoosesEight(pick) && SizeUsed(shardSize) < |rows| <= 10_000_000
    ensures !AlwaysExact(m, pick, rows, shardSize)
  {
    var a := AnalysisOf(m, rows, shardSize);
    ShardsEnough(|rows|, shardSize);
    var acts, t := ReaperMixesShards(a);
    MixedAreMaps(m, rows, shardSize);
    MixedTooMany(rows, shardSize);
    WrongCount(m, pick, rows, shardSize, acts, t, MixedSlices(rows, shardSize));
  }

  /** With any number of reaper passes among its steps, every save of every run is exact if and only if the upload fits
      one shard and the reaper's ten million rows. A single pass is enough to break it otherwise, with no other fault. */
  lemma ReaperExactIff(m: Maths, pick: Chooser, rows: seq<LogEntry>, shardSize: int)
    requires ChoosesEight(pick)
    ensures AlwaysExact(m, pick, rows, shardSize) <==> |rows| <= SizeUsed(shardSize) && |rows| <= 10_000_000
  {
    if |rows| > 10_000_000 {
      TooManyRows(m, pick, rows, shardSize);
    } else if |rows| > SizeUsed(shardSize) {
      TooManyShards(m, pick, rows, shardSize);
    } else {
      forall workers, acts, i, parts | SavedBy(AnalysisOf(m, rows, shardSize), workers, acts, i, parts)
        ensures Describes(m, MergeAllOf(pick, parts), rows)
      {
        SavedParts(m, rows, shardSize, workers, acts, i);
        SlicesCover(rows, shardSize);
        ReducedDescribes(m, pick, Slices(rows, ShardsFor(|rows|, shardSize), SizeUsed(shardSize)));
      }
    }
  }
}
