/** What an expired counter costs: DECR then counts from zero, every count reads below one, and so every shard counted
    from then on pushes a reduce of its own. Never more than one a shard, and that many can happen. */
module ExpiryHazard {
  import opened Common
  import opened Tallies
  import opened Protocol
  import opened Worker
  import opened Scenarios

  // --- At most one reduce a shard ---

  function MapJobs(job: Job): nat {
    One(job.MapJob?)
  }

  function MapHeld<P>(phase: Phase<P>): nat {
    One(!phase.Idle? && phase.job.MapJob?)
  }

  /** Reduces pushed so far and those that may still be. */
  function Pushes<P>(s: State<P>): nat {
    Tally(s.queue, MapJobs) + Tally(s.workers, MapHeld<P>) + s.issued
  }

  ghost predicate PushersHoldMaps<P>(s: State<P>) {
    forall w :: 0 <= w < |s.workers| && (s.workers[w].Counting? || s.workers[w].Enqueueing?) ==> s.workers[w].job.MapJob?
  }

  lemma MovePushes<P>(s: State<P>, w: nat, phase: Phase<P>, t: State<P>)
    requires w < |s.workers| && t.workers == s.workers[w := phase] && t.queue == s.queue
    requires MapHeld(phase) + t.issued <= MapHeld(s.workers[w]) + s.issued
    ensures Pushes(t) <= Pushes(s)
  {
    TallyPut(s.workers, w, phase, MapHeld<P>);
  }

  /** A worker reaches the countdown from a map, and the duty to push from the countdown. */
  lemma PusherHoldsMap<P>(a: Analysis<P>, s: State<P>, act: Action)
    requires ByWorker(act) && act.w < |s.workers| && WorkerStep(a, s, act).Some?
    requires s.workers[act.w].Counting? || s.workers[act.w].Enqueueing? ==> s.workers[act.w].job.MapJob?
    requires act.w < |WorkerStep(a, s, act).value.workers|
    ensures var phase := WorkerStep(a, s, act).value.workers[act.w];
      phase.Counting? || phase.Enqueueing? ==> phase.job.MapJob?
  {
    hide Fetched;
  }

  lemma StepHoldsMaps<P>(a: Analysis<P>, s: State<P>, act: Action)
    requires PushersHoldMaps(s) && Step(a, s, act).Some?
    ensures PushersHoldMaps(Step(a, s, act).value)
  {
    hide WorkerStep;
    if ByWorker(act) {
      OneWorkerMoves(a, s, act);
      PusherHoldsMap(a, s, act);
    }
  }

  /** Steps other than taking and pushing jobs hand on a map at most. */
  lemma MapsHandedOn<P>(a: Analysis<P>, s: State<P>, act: Action)
    requires ByWorker(act) && act.w < |s.workers| && WorkerStep(a, s, act).Some? && !act.Reserve? && !act.EnqueueReduce?
    requires act.w < |WorkerStep(a, s, act).value.workers|
    ensures var t := WorkerStep(a, s, act).value;
      t.queue == s.queue && t.issued == s.issued && MapHeld(t.workers[act.w]) <= MapHeld(s.workers[act.w])
  {
    hide Fetched;
  }

  lemma StepPushes<P>(a: Analysis<P>, s: State<P>, act: Action)
    requires PushersHoldMaps(s) && Step(a, s, act).Some? && !ByReaper(act)
    ensures Pushes(Step(a, s, act).value) <= Pushes(s)
  {
    hide Fetched;
    var t := Step(a, s, act).value;
    if ByWorker(act) {
      var w := act.w;
      if act.Reserve? {
        TallyPut(s.workers, w, t.workers[w], MapHeld<P>);
      } else if act.EnqueueReduce? {
        TallyPut(s.workers, w, Idle, MapHeld<P>);
        TallyPush(ReduceJob(s.workers[w].job.shardCount), s.queue, MapJobs);
      } else {
        hide WorkerStep;
        OneWorkerMoves(a, s, act);
        MapsHandedOn(a, s, act);
        MovePushes(s, w, t.workers[w], t);
      }
    }
  }

  lemma {:induction false} AllMapJobs(jobs: seq<Job>)
    ensures Tally(jobs, MapJobs) <= |jobs|
  {
    if |jobs| > 0 {
      AllMapJobs(jobs[..|jobs| - 1]);
    }
  }

  /** Whatever crashes, raises or expires, without the reaper no run pushes more reduces than there are shards. */
  lemma {:induction false} ReducesBounded<P>(a: Analysis<P>, workers: nat, acts: seq<Action>)
    requires Run(a, workers, acts).Some? && forall i :: 0 <= i < |acts| ==> !ByReaper(acts[i])
    ensures PushersHoldMaps(Run(a, workers, acts).value) && Pushes(Run(a, workers, acts).value) <= a.shards
  {
    if |acts| == 0 {
      AllMapJobs(Published(a));
      TallyZero(Start(a, workers).workers, MapHeld<P>);
    } else {
      var front := acts[..|acts| - 1];
      ReducesBounded(a, workers, front);
      StepHoldsMaps(a, Run(a, workers, front).value, acts[|acts| - 1]);
      StepPushes(a, Run(a, workers, front).value, acts[|acts| - 1]);
    }
  }

  // --- And as many as that ---

  /** The first `k` shards are done, each of them has pushed a reduce, and nobody is at work. */
  ghost predicate EachPushed<P>(a: Analysis<P>, s: State<P>, k: nat)
    requires k <= a.shards
  {
    && s.workers == [Idle, Idle] && Claimable(s.status)
    && (if k == 0 then s.counter.None? else s.counter.Some? && s.counter.value + k == 0)
    && s.queue == seq(k, _ => ReduceJob(a.shards)) + Published(a)[..a.shards - k]
    && s.issued == k && (forall j: nat :: j in s.counted <==> j < k)
    && s.partials == (map j: nat | j < k :: SliceOf(a, j)) && s.saves == []
  }

  lemma Waiting<P>(a: Analysis<P>, s: State<P>, k: nat)
    requires k < a.shards && EachPushed(a, s, k)
    ensures |s.queue| == a.shards && s.queue[a.shards - 1] == JobOf(a, k)
    ensures [ReduceJob(a.shards)] + s.queue[..a.shards - 1]
         == seq(k + 1, _ => ReduceJob(a.shards)) + Published(a)[..a.shards - k - 1]
  {
    NextPublished(a, k);
  }

  /** The counter expires before the first count. */
  lemma ExpireFirst<P>(a: Analysis<P>) returns (acts: seq<Action>, s: State<P>)
    ensures Leads({CounterExpiry}, a, acts, s) && EachPushed(a, s, 0)
  {
    var start := Start(a, 2);
    assert Leads({CounterExpiry}, a, [], start);
    s := start.(counter := None);
    acts := Go({CounterExpiry}, a, [], start, ExpireCounter, s);
    assert s.workers == [Idle, Idle];
    assert s.queue == seq(0, _ => ReduceJob(a.shards)) + Published(a)[..a.shards];
  }

  /** The next shard pushes a reduce of its own as it is counted. */
  lemma PushNext<P>(a: Analysis<P>, k: nat, before: seq<Action>, s: State<P>) returns (acts: seq<Action>, t: State<P>)
    requires k < a.shards && Leads({CounterExpiry}, a, before, s) && EachPushed(a, s, k)
    ensures Leads({CounterExpiry}, a, acts, t) && EachPushed(a, t, k + 1)
  {
    hide Leads;
    Waiting(a, s, k);
    acts, t := DoShard({CounterExpiry}, a, before, s, JobOf(a, k));
    assert Remaining(s.counter) + k + 1 == 0;
    assert t.partials == (map j: nat | j < k + 1 :: SliceOf(a, j));
  }

  /** Once the counter has expired, each shard pushes a reduce as it is counted: the first while all others are still to do. */
  lemma {:induction false} EveryCountPushes<P>(a: Analysis<P>, k: nat) returns (acts: seq<Action>, s: State<P>)
    requires k <= a.shards
    ensures Leads({CounterExpiry}, a, acts, s) && EachPushed(a, s, k)
  {
    hide EachPushed;
    if k == 0 {
      acts, s := ExpireFirst(a);
    } else {
      acts, s := EveryCountPushes(a, k - 1);
      acts, s := PushNext(a, k - 1, acts, s);
    }
  }

  /** At most one reduce in every run without the reaper, counter expiry included. */
  ghost predicate OneReduceAlways<P>(a: Analysis<P>) {
    forall workers, acts :: Run(a, workers, acts).Some? && (forall i :: 0 <= i < |acts| ==> !ByReaper(acts[i]))
      ==> Run(a, workers, acts).value.issued <= 1
  }

  /** Even without the reaper, "exactly one worker sees zero" survives an expired counter if and only if there is at most one shard. */
  lemma OneReduceIff<P>(a: Analysis<P>)
    ensures OneReduceAlways(a) <==> a.shards <= 1
  {
    if a.shards <= 1 {
      forall workers, acts | Run(a, workers, acts).Some? && forall i :: 0 <= i < |acts| ==> !ByReaper(acts[i])
        ensures Run(a, workers, acts).value.issued <= 1
      {
        ReducesBounded(a, workers, acts);
      }
    } else {
      var acts, s := EveryCountPushes(a, a.shards);
      RunIsExec(a, 2, acts);
      assert Run(a, 2, acts).value.issued == a.shards;
    }
  }
}
