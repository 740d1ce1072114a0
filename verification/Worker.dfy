/** The worker's code: queue and database commands as they change Redis and Postgres, and `handle`, `run_map` and
    `run_reduce` on top of them. Each command is proved to be one step of the protocol, and each routine a run of it. */
module Worker {
  import opened Common
  import opened Protocol

  /** The state after `acts`, first to last, from `s`. */
  function Exec<P>(a: Analysis<P>, s: State<P>, acts: seq<Action>): Option<State<P>> {
    if |acts| == 0 then Some(s)
    else
      var before := Exec(a, s, acts[..|acts| - 1]);
      if before.None? then None else Step(a, before.value, acts[|acts| - 1])
  }

  lemma ExecSnoc<P>(a: Analysis<P>, s: State<P>, acts: seq<Action>, act: Action)
    requires Exec(a, s, acts).Some?
    ensures Exec(a, s, acts + [act]) == Step(a, Exec(a, s, acts).value, act)
  {
    assert (acts + [act])[..|acts|] == acts;
  }

  lemma ExecOne<P>(a: Analysis<P>, s: State<P>, act: Action)
    ensures Exec(a, s, [act]) == Step(a, s, act)
  {
    ExecSnoc(a, s, [], act);
    assert [] + [act] == [act];
  }

  lemma ExecTwo<P>(a: Analysis<P>, s: State<P>, act1: Action, s1: State<P>, act2: Action, s2: State<P>)
    requires Step(a, s, act1) == Some(s1) && Step(a, s1, act2) == Some(s2)
    ensures Exec(a, s, [act1, act2]) == Some(s2)
  {
    ExecOne(a, s, act1);
    ExecSnoc(a, s, [act1], act2);
    assert [act1] + [act2] == [act1, act2];
  }

  lemma {:induction false} ExecAppend<P>(a: Analysis<P>, s: State<P>, acts: seq<Action>, more: seq<Action>)
    requires Exec(a, s, acts).Some?
    ensures Exec(a, s, acts + more) == Exec(a, Exec(a, s, acts).value, more)
  {
    if |more| == 0 {
      assert acts + more == acts;
    } else {
      var front, last := more[..|more| - 1], more[|more| - 1];
      ExecAppend(a, s, acts, front);
      assert more == front + [last];
      Assoc(acts, front, [last]);
      assert (acts + front + [last])[..|acts + front|] == acts + front;
    }
  }

  /** A run from the start is an execution from the starting state. */
  lemma {:induction false} RunIsExec<P>(a: Analysis<P>, workers: nat, acts: seq<Action>)
    ensures Run(a, workers, acts) == Exec(a, Start(a, workers), acts)
  {
    if |acts| > 0 {
      RunIsExec(a, workers, acts[..|acts| - 1]);
    }
  }

  function LastOf<T>(xs: seq<T>): Option<T> {
    if |xs| == 0 then None else Some(xs[|xs| - 1])
  }

  /** Redis and Postgres as one worker sees them. `world` is the protocol state they are part of. */
  class Backend<!P> {
    const a: Analysis<P>
    const w: nat
    var status: Status
    var queue: seq<Job>
    var counter: Option<int>
    var partials: map<nat, P>
    var findings: Option<seq<P>>      // what the stored findings rest on; the table holds one set at a time
    var saves: seq<seq<P>>
    ghost var world: State<P>

    constructor (a: Analysis<P>, w: nat, world: State<P>)
      requires w < |world.workers|
      ensures Valid() && this.a == a && this.w == w && this.world == world
    {
      this.a, this.w, this.world := a, w, world;
      status, queue, counter, partials, saves := world.status, world.queue, world.counter, world.partials, world.saves;
      findings := LastOf(world.saves);
    }

    ghost predicate Valid()
      reads this
    {
      && w < |world.workers|
      && status == world.status && queue == world.queue && counter == world.counter
      && partials == world.partials && saves == world.saves && findings == LastOf(saves)
    }

    ghost function Phase(): Phase<P>
      requires Valid()
      reads this
    {
      world.workers[w]
    }

    ghost predicate Did(before: State<P>, act: Action)
      reads this
    {
      Valid() && Step(a, before, act) == Some(world)
    }

    // --- Queue ---

    method Reserve() returns (job: Option<Job>)
      requires Valid() && Phase().Idle?
      modifies this
      ensures old(|queue|) == 0 ==> job.None? && Valid() && world == old(world)
      ensures old(|queue|) > 0 ==> job == Some(old(queue[|queue| - 1])) && Did(old(world), Action.Reserve(w)) && Phase() == Claiming(job.value)
    {
      if |queue| == 0 {
        return None;
      }
      job := Some(queue[|queue| - 1]);
      queue := queue[..|queue| - 1];
      world := Step(a, world, Action.Reserve(w)).value;
    }

    method PutPartial(shard: nat, payload: P)
      requires Valid() && Phase().Storing? && Phase().job.MapJob? && shard == Phase().job.shard && payload == Phase().payload
      modifies this
      ensures Did(old(world), Action.PutPartial(w)) && Phase() == Counting(old(Phase().job))
      ensures partials == old(partials)[shard := payload]
    {
      partials := partials[shard := payload];
      world := Step(a, world, Action.PutPartial(w)).value;
    }

    method CompleteShard() returns (last: bool)
      requires Valid() && Phase().Counting? && Phase().job.MapJob?
      modifies this
      ensures Did(old(world), CountDown(w))
      ensures Phase() == if last then Enqueueing(old(Phase().job)) else Idle
      ensures last <==> old(counter.None? || counter.value <= 1)
    {
      var remaining := (if counter.Some? then counter.value else 0) - 1;
      counter := Some(remaining);
      world := Step(a, world, CountDown(w)).value;
      last := remaining <= 0;
    }

    method Enqueue(job: Job)
      requires Valid() && Phase().Enqueueing? && job == ReduceJob(Phase().job.shardCount)
      modifies this
      ensures Did(old(world), EnqueueReduce(w)) && Phase() == Idle
      ensures queue == [job] + old(queue)
    {
      queue := [job] + queue;
      world := Step(a, world, EnqueueReduce(w)).value;
    }

    /** The partials present among shards 0 to `count`-1, in shard order. */
    method GetPartials(count: nat) returns (parts: seq<P>)
      requires Valid()
      ensures |parts| <= count
      ensures |parts| == count <==> Fetched(partials, count).Some?
      ensures |parts| == count ==> parts == Fetched(partials, count).value
    {
      parts := [];
      for k := 0 to count
        invariant |parts| <= k
        invariant |parts| == k <==> forall j: nat :: j < k ==> j in partials
        invariant |parts| == k ==> forall j :: 0 <= j < k ==> j in partials && parts[j] == partials[j]
      {
        if k in partials {
          parts := parts + [partials[k]];
        }
      }
    }

    method Drop(count: nat)
      requires Valid() && Phase().Dropping? && count == Phase().job.shardCount
      modifies this
      ensures Did(old(world), Action.DropPartials(w)) && Phase() == Recording(old(Phase().job)) && status == old(status) && saves == old(saves)
      ensures counter == None && forall k :: k in partials <==> k in old(partials) && k >= count
    {
      partials := map k | k in partials && k >= count :: partials[k];
      counter := None;
      world := Step(a, world, Action.DropPartials(w)).value;
    }

    // --- Database ---

    method Claim() returns (ok: bool)
      requires Valid() && Phase().Claiming?
      modifies this
      ensures Did(old(world), Action.Claim(w)) && ok == Claimable(old(status))
      ensures var job := old(Phase().job);
        Phase() == if !ok then Idle else if job.MapJob? then Loading(job) else Fetching(job)
    {
      ok := status == Queued || status == Running;
      if ok {
        status := Running;
      }
      world := Step(a, world, Action.Claim(w)).value;
    }

    method SaveAnomalies(parts: seq<P>)
      requires Valid() && Phase().Saving? && parts == Phase().parts
      modifies this
      ensures Did(old(world), Action.SaveAnomalies(w)) && Phase() == Finishing(old(Phase().job))
      ensures findings == Some(parts) && saves == old(saves) + [parts]
    {
      findings := Some(parts);
      saves := saves + [parts];
      world := Step(a, world, Action.SaveAnomalies(w)).value;
    }

    method Finish()
      requires Valid() && Phase().Finishing?
      modifies this
      ensures Did(old(world), Action.Finish(w)) && Phase() == Dropping(old(Phase().job))
    {
      status := Done;
      world := Step(a, world, Action.Finish(w)).value;
    }

    method Fail()
      requires Valid() && Phase().Failing?
      modifies this
      ensures Did(old(world), RecordFailure(w)) && Phase() == Idle && status == Failed && saves == old(saves)
    {
      status := Failed;
      world := Step(a, world, RecordFailure(w)).value;
    }

    // --- Jobs ---

    /** Load and map the slice, then store its aggregate. */
    method MapAndStore(job: Job) returns (ghost acts: seq<Action>)
      requires Valid() && job.MapJob? && Phase() == Loading(job)
      modifies this
      ensures Valid() && Phase() == Counting(job) && Exec(a, old(world), acts) == Some(world)
      ensures partials == old(partials)[job.shard := a.slice(job.offset, job.limit)]
      ensures queue == old(queue) && counter == old(counter) && saves == old(saves) && status == old(status)
    {
      ghost var start := world;
      var payload := a.slice(job.offset, job.limit);
      world := Step(a, world, LoadShard(w)).value;
      ghost var loaded := world;
      PutPartial(job.shard, payload);
      acts := [LoadShard(w), Action.PutPartial(w)];
      ExecTwo(a, start, LoadShard(w), loaded, Action.PutPartial(w), world);
    }

    /** Aggregate one shard and publish the partial; the worker that reads zero or less pushes the reduce. */
    method RunMap(job: Job) returns (ghost acts: seq<Action>)
      requires Valid() && job.MapJob? && Phase() == Loading(job)
      modifies this
      ensures Valid() && Phase() == Idle && Exec(a, old(world), acts) == Some(world)
      ensures partials == old(partials)[job.shard := a.slice(job.offset, job.limit)]
      ensures queue == if old(counter.None? || counter.value <= 1) then [ReduceJob(job.shardCount)] + old(queue) else old(queue)
      ensures saves == old(saves) && status == old(status)
    {
      hide Exec;
      ghost var start := world;
      acts := MapAndStore(job);
      var last := CompleteShard();
      ExecSnoc(a, start, acts, CountDown(w));
      acts := acts + [CountDown(w)];
      if last {
        Enqueue(ReduceJob(job.shardCount));
        ExecSnoc(a, start, acts, EnqueueReduce(w));
        acts := acts + [EnqueueReduce(w)];
      }
    }

    /** Replace the findings and close the analysis. */
    method SaveAndFinish(job: Job, parts: seq<P>) returns (ghost acts: seq<Action>)
      requires Valid() && job.ReduceJob? && Phase() == Saving(job, parts)
      modifies this
      ensures Valid() && Phase() == Dropping(job) && Exec(a, old(world), acts) == Some(world)
      ensures status == Done && saves == old(saves) + [parts]
    {
      ghost var start := world;
      SaveAnomalies(parts);
      ghost var saved := world;
      Finish();
      acts := [Action.SaveAnomalies(w), Action.Finish(w)];
      ExecTwo(a, start, Action.SaveAnomalies(w), saved, Action.Finish(w), world);
    }

    method Persist(job: Job, parts: seq<P>) returns (ghost acts: seq<Action>)
      requires Valid() && job.ReduceJob? && Phase() == Saving(job, parts)
      modifies this
      ensures Valid() && Phase() == Idle && Exec(a, old(world), acts) == Some(world)
      ensures status == Done && saves == old(saves) + [parts]
    {
      hide Exec;
      ghost var start := world;
      acts := SaveAndFinish(job, parts);
      Drop(job.shardCount);
      ExecSnoc(a, start, acts, Action.DropPartials(w));
      acts := acts + [Action.DropPartials(w)];
      world := Step(a, world, RecordTotal(w)).value;   // the total's duration is all that is left to record
      ExecSnoc(a, start, acts, RecordTotal(w));
      acts := acts + [RecordTotal(w)];
    }

    /** Merge, score and persist once every partial is there; a missing partial raises. */
    method RunReduce(job: Job) returns (raised: bool, ghost acts: seq<Action>)
      requires Valid() && job.ReduceJob? && Phase() == Fetching(job)
      modifies this
      ensures Valid() && Exec(a, old(world), acts) == Some(world)
      ensures raised <==> Fetched(old(partials), job.shardCount).None?
      ensures raised ==> Phase() == Failing(job, ReduceLost) && saves == old(saves)
      ensures !raised ==> Phase() == Idle && status == Done && saves == old(saves) + [Fetched(old(partials), job.shardCount).value]
    {
      ghost var start := world;
      var parts := GetPartials(job.shardCount);
      world := Step(a, world, Action.FetchPartials(w)).value;
      acts := [Action.FetchPartials(w)];
      ExecOne(a, start, Action.FetchPartials(w));
      raised := |parts| < job.shardCount;
      if !raised {
        ghost var rest := Persist(job, parts);
        ExecAppend(a, start, acts, rest);
        acts := acts + rest;
      }
    }

    method ReduceOrFail(job: Job) returns (ghost acts: seq<Action>)
      requires Valid() && job.ReduceJob? && Phase() == Fetching(job)
      modifies this
      ensures Valid() && Phase() == Idle && Exec(a, old(world), acts) == Some(world)
      ensures match Fetched(old(partials), job.shardCount)
        case Some(parts) => status == Done && findings == Some(parts) && saves == old(saves) + [parts]
        case None => status == Failed && saves == old(saves)
    {
      ghost var start := world;
      var raised;
      raised, acts := RunReduce(job);
      if raised {
        Fail();
        ExecSnoc(a, start, acts, RecordFailure(w));
        acts := acts + [RecordFailure(w)];
      }
    }

    /** One job from its claim to its end: skipped, done, or failed with the analysis marked so. */
    method Handle(job: Job) returns (ghost acts: seq<Action>)
      requires Valid() && Phase() == Claiming(job)
      modifies this
      ensures Valid() && Phase() == Idle && Exec(a, old(world), acts) == Some(world)
      ensures !Claimable(old(status)) ==> status == old(status) && saves == old(saves) && partials == old(partials)
      ensures Claimable(old(status)) && job.MapJob? ==>
        status == Running && saves == old(saves) && partials == old(partials)[job.shard := a.slice(job.offset, job.limit)]
      ensures Claimable(old(status)) && job.ReduceJob? ==>
        match Fetched(old(partials), job.shardCount)
        case Some(parts) => status == Done && findings == Some(parts) && saves == old(saves) + [parts]
        case None => status == Failed && saves == old(saves)
    {
      ghost var start := world;
      var ok := Claim();
      acts := [Action.Claim(w)];
      ExecOne(a, start, Action.Claim(w));
      if !ok {
        return;
      }
      if job.MapJob? {
        ghost var rest := RunMap(job);
        ExecAppend(a, start, acts, rest);
        acts := acts + rest;
      } else {
        ghost var rest := ReduceOrFail(job);
        ExecAppend(a, start, acts, rest);
        acts := acts + rest;
      }
    }
  }
}
