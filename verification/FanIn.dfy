/** The countdown: without the reaper and while the counter lives, exactly one reduce can ever start, it starts
    only after every shard was stored and counted, and a failure is final. */
module FanIn {
  import opened Common
  import opened Tallies
  import opened Protocol

  // --- Who holds what ---

  /** The job of shard `k`, still to be counted. */
  function MapWeight(k: nat): Job -> nat {
    (job: Job) => One(job.MapJob? && job.shard == k)
  }

  function ReduceWeight(job: Job): nat {
    One(job.ReduceJob?)
  }

  /** A worker holding shard `k` that has not counted it yet. */
  predicate HoldsMap<P>(phase: Phase<P>, k: nat) {
    match phase
    case Idle => false
    case Enqueueing(_) => false
    case Failing(job, cause) => job.MapJob? && job.shard == k && cause.MapLost?
    case _ => phase.job.MapJob? && phase.job.shard == k
  }

  /** A worker holding the reduce, or the duty to push it. */
  predicate HoldsReduce<P>(phase: Phase<P>) {
    match phase
    case Idle => false
    case Enqueueing(_) => true
    case Failing(job, cause) => job.ReduceJob? || cause.ReduceLost?
    case _ => phase.job.ReduceJob?
  }

  function MapHolder<P>(k: nat): Phase<P> -> nat {
    (phase: Phase<P>) => One(HoldsMap(phase, k))
  }

  function ReduceHolder<P>(phase: Phase<P>): nat {
    One(HoldsReduce(phase))
  }

  function Triggers<P>(phase: Phase<P>): nat {
    One(phase.Enqueueing?)
  }

  function MapTokens<P>(s: State<P>, k: nat): nat {
    Tally(s.queue, MapWeight(k)) + Tally(s.workers, MapHolder(k))
  }

  function ReduceTokens<P>(s: State<P>): nat {
    Tally(s.queue, ReduceWeight) + Tally(s.workers, ReduceHolder)
  }

  function TriggerTokens<P>(s: State<P>): nat {
    Tally(s.workers, Triggers)
  }

  ghost predicate Within<P>(a: Analysis<P>, shards: set<nat>) {
    forall k :: k in shards ==> k < a.shards
  }

  ghost predicate Covers<P>(a: Analysis<P>, shards: set<nat>) {
    forall k: nat :: k < a.shards ==> k in shards
  }

  /** Phases come with the kind of job they belong to. */
  ghost predicate KindFits<P>(phase: Phase<P>) {
    && (phase.Loading? || phase.Storing? || phase.Counting? || phase.Enqueueing? ==> phase.job.MapJob?)
    && (phase.Fetching? || phase.Saving? || phase.Finishing? || phase.Dropping? || phase.Recording? ==> phase.job.ReduceJob?)
    && (phase.Failing? && phase.job.ReduceJob? ==> phase.cause.ReduceLost?)
  }

  ghost predicate JobFits<P>(a: Analysis<P>, job: Job) {
    job.MapJob? ==> job.shard < a.shards
  }

  ghost predicate PhaseFits<P>(a: Analysis<P>, s: State<P>, phase: Phase<P>) {
    && KindFits(phase)
    && (!phase.Idle? ==> JobFits(a, phase.job))
    && (phase.Counting? ==> phase.job.shard in s.stored)
  }

  ghost predicate Shaped<P>(a: Analysis<P>, s: State<P>) {
    && (forall i :: 0 <= i < |s.queue| ==> JobFits(a, s.queue[i]))
    && (forall w :: 0 <= w < |s.workers| ==> PhaseFits(a, s, s.workers[w]))
    && Within(a, s.counted) && Within(a, s.lost)
    && s.counted <= s.stored
  }

  /** Every shard is in exactly one place: waiting or in work, counted, or lost. */
  ghost predicate MapsAccounted<P>(a: Analysis<P>, s: State<P>) {
    forall k: nat :: k < a.shards ==> MapTokens(s, k) + One(k in s.counted) + One(k in s.lost) == 1
  }

  ghost predicate AllCounted<P>(a: Analysis<P>, s: State<P>) {
    Covers(a, s.counted)
  }

  /** Once all shards are counted the reduce is in exactly one place; before, it is nowhere. */
  ghost predicate ReduceAccounted<P>(a: Analysis<P>, s: State<P>) {
    && ReduceTokens(s) + One(s.spent) == One(AllCounted(a, s))
    && s.issued + TriggerTokens(s) <= One(AllCounted(a, s))
  }

  ghost predicate CounterRight<P>(a: Analysis<P>, s: State<P>) {
    if s.counter.Some? then s.counter.value == a.shards - |s.counted| else AllCounted(a, s)
  }

  ghost predicate FailureFinal<P>(s: State<P>) {
    s.status == Failed ==> s.lost != {} || s.spent
  }

  ghost predicate Balanced<P>(a: Analysis<P>, s: State<P>) {
    Shaped(a, s) && MapsAccounted(a, s) && ReduceAccounted(a, s) && CounterRight(a, s) && FailureFinal(s)
  }

  predicate Counted(act: Action) {
    !ByReaper(act) && !act.ExpireCounter?
  }

  // --- The start ---

  lemma {:induction false} PublishedTally<P>(a: Analysis<P>, jobs: seq<Job>, k: nat)
    requires |jobs| <= a.shards && forall i :: 0 <= i < |jobs| ==> jobs[i] == JobOf(a, a.shards - 1 - i)
    ensures Tally(jobs, MapWeight(k)) == One(a.shards - |jobs| <= k < a.shards)
    ensures Tally(jobs, ReduceWeight) == 0
  {
    if |jobs| > 0 {
      PublishedTally(a, jobs[..|jobs| - 1], k);
    }
  }

  lemma StartBalanced<P>(a: Analysis<P>, workers: nat)
    requires a.shards > 0
    ensures Balanced(a, Start(a, workers))
  {
    var s := Start(a, workers);
    forall k: nat | k < a.shards ensures MapTokens(s, k) == 1 {
      PublishedTally(a, s.queue, k);
      TallyZero(s.workers, MapHolder(k));
    }
    PublishedTally(a, s.queue, 0);
    TallyZero(s.workers, ReduceHolder);
    TallyZero(s.workers, Triggers);
    assert 0 !in s.counted;
    forall i | 0 <= i < a.shards ensures JobFits(a, s.queue[i]) {
      assert s.queue[i] == JobOf(a, a.shards - 1 - i);
    }
  }

  // --- One step ---

  /** How a worker's step moves the tokens it holds. */
  lemma PutTokens<P>(s: State<P>, w: nat, phase: Phase<P>, k: nat)
    requires w < |s.workers|
    ensures MapTokens(Put(s, w, phase), k) + MapHolder(k)(s.workers[w]) == MapTokens(s, k) + MapHolder(k)(phase)
    ensures ReduceTokens(Put(s, w, phase)) + ReduceHolder(s.workers[w]) == ReduceTokens(s) + ReduceHolder(phase)
    ensures TriggerTokens(Put(s, w, phase)) + Triggers(s.workers[w]) == TriggerTokens(s) + Triggers(phase)
  {
    TallyPut(s.workers, w, phase, MapHolder(k));
    TallyPut(s.workers, w, phase, ReduceHolder);
    TallyPut(s.workers, w, phase, Triggers);
  }

  /** A worker moves on without letting go of what it holds. */
  lemma MoveBalanced<P>(a: Analysis<P>, s: State<P>, t: State<P>, w: nat, phase: Phase<P>)
    requires Balanced(a, s) && w < |s.workers|
    requires t == Put(s, w, phase).(status := t.status, partials := t.partials, saves := t.saves, stored := t.stored)
    requires s.stored <= t.stored && FailureFinal(t) && PhaseFits(a, t, phase)
    requires forall k :: HoldsMap(phase, k) == HoldsMap(s.workers[w], k)
    requires HoldsReduce(phase) == HoldsReduce(s.workers[w]) && Triggers(phase) <= Triggers(s.workers[w])
    ensures Balanced(a, t)
  {
    hide Tally;
    forall k: nat ensures MapTokens(t, k) == MapTokens(s, k) {
      PutTokens(s, w, phase, k);
    }
    PutTokens(s, w, phase, 0);
  }

  /** A worker lets go of its job for good. */
  lemma LeaveBalanced<P>(a: Analysis<P>, s: State<P>, t: State<P>, w: nat)
    requires Balanced(a, s) && w < |s.workers|
    requires t == Put(s, w, Idle).(status := t.status, lost := t.lost, spent := t.spent)
    requires forall k :: k in t.lost <==> k in s.lost || HoldsMap(s.workers[w], k)
    requires t.spent == (s.spent || HoldsReduce(s.workers[w])) && FailureFinal(t)
    ensures Balanced(a, t)
  {
    hide Tally;
    var phase := s.workers[w];
    assert PhaseFits(a, s, phase);
    forall k: nat | k < a.shards ensures MapTokens(t, k) + One(k in t.counted) + One(k in t.lost) == 1 {
      PutTokens(s, w, Idle, k);
      TallyMember(s.workers, w, MapHolder(k));
    }
    PutTokens(s, w, Idle, 0);
    TallyMember(s.workers, w, ReduceHolder);
  }

  /** Abandoning a job records exactly what the worker held. */
  lemma AbandonRecords<P>(s: State<P>, phase: Phase<P>)
    requires KindFits(phase)
    ensures Abandon(s, phase) == s.(lost := Abandon(s, phase).lost, spent := Abandon(s, phase).spent)
    ensures forall k :: k in Abandon(s, phase).lost <==> k in s.lost || HoldsMap(phase, k)
    ensures Abandon(s, phase).spent == (s.spent || HoldsReduce(phase))
  {}

  lemma CrashBalanced<P>(a: Analysis<P>, s: State<P>, w: nat, status: Status)
    requires Balanced(a, s) && w < |s.workers| && !s.workers[w].Idle?
    requires status == s.status || (status == Failed && s.workers[w].Failing?)
    ensures Balanced(a, Put(Abandon(s.(status := status), s.workers[w]), w, Idle))
  {
    var phase := s.workers[w];
    assert PhaseFits(a, s, phase);
    var t := Put(Abandon(s.(status := status), phase), w, Idle);
    AbandonRecords(s.(status := status), phase);
    if phase.Failing? && phase.job.MapJob? && phase.cause.MapLost? {
      assert HoldsMap(phase, phase.job.shard);
      assert phase.job.shard in t.lost;
    }
    LeaveBalanced(a, s, t, w);
  }

  lemma ReserveBalanced<P>(a: Analysis<P>, s: State<P>, w: nat)
    requires Balanced(a, s) && w < |s.workers| && s.workers[w].Idle? && |s.queue| > 0
    ensures Balanced(a, WorkerStep(a, s, Reserve(w)).value)
  {
    hide Tally;
    var n := |s.queue| - 1;
    var job, t := s.queue[n], WorkerStep(a, s, Reserve(w)).value;
    assert JobFits(a, job);
    assert s.queue == t.queue + [job];
    forall k: nat ensures MapTokens(t, k) == MapTokens(s, k) {
      PutTokens(s, w, Claiming(job), k);
      TallySnoc(t.queue, job, MapWeight(k));
    }
    PutTokens(s, w, Claiming(job), 0);
    TallySnoc(t.queue, job, ReduceWeight);
    assert ReduceTokens(t) == ReduceTokens(s);
  }

  lemma EnqueueBalanced<P>(a: Analysis<P>, s: State<P>, w: nat)
    requires Balanced(a, s) && w < |s.workers| && s.workers[w].Enqueueing?
    ensures Balanced(a, WorkerStep(a, s, EnqueueReduce(w)).value)
  {
    hide Tally;
    var reduce := ReduceJob(s.workers[w].job.shardCount);
    var t := WorkerStep(a, s, EnqueueReduce(w)).value;
    forall k: nat ensures MapTokens(t, k) == MapTokens(s, k) {
      PutTokens(s, w, Idle, k);
      TallyPush(reduce, s.queue, MapWeight(k));
    }
    PutTokens(s, w, Idle, 0);
    TallyPush(reduce, s.queue, ReduceWeight);
    assert ReduceTokens(t) == ReduceTokens(s);
    assert TriggerTokens(t) + 1 == TriggerTokens(s);
  }

  /** A worker about to count holds a shard nobody else has, and the counter is live. */
  lemma CountingHolds<P>(a: Analysis<P>, s: State<P>, w: nat)
    requires Balanced(a, s) && w < |s.workers| && s.workers[w].Counting?
    ensures s.workers[w].job.MapJob? && s.workers[w].job.shard < a.shards && s.workers[w].job.shard in s.stored
    ensures s.workers[w].job.shard !in s.counted && s.workers[w].job.shard !in s.lost
    ensures s.counter == Some(a.shards - |s.counted|)
  {
    var phase := s.workers[w];
    assert PhaseFits(a, s, phase);
    TallyMember(s.workers, w, MapHolder(phase.job.shard));
    assert MapHolder(phase.job.shard)(phase) == 1;
    assert MapTokens(s, phase.job.shard) >= 1;
  }

  function Below(n: nat): (ks: set<nat>)
    ensures |ks| == n && forall k: nat :: k in ks <==> k < n
  {
    if n == 0 then {}
    else
      var rest := Below(n - 1);
      assert n - 1 !in rest;
      rest + {n - 1}
  }

  lemma SubsetCount<T>(x: set<T>, y: set<T>)
    requires x <= y
    ensures |x| <= |y| && (|x| == |y| <==> x == y)
  {
    assert y == x + (y - x);
    if |x| == |y| {
      assert |y - x| == 0;
    }
  }

  /** Counting one more shard reaches zero exactly when all are counted. */
  lemma CountReachesZero<P>(a: Analysis<P>, counted: set<nat>, shard: nat)
    requires Within(a, counted) && shard < a.shards && shard !in counted
    ensures |counted + {shard}| == |counted| + 1
    ensures a.shards - |counted + {shard}| <= 0 <==> Covers(a, counted + {shard})
    ensures !Covers(a, counted)
  {
    var all := Below(a.shards);
    SubsetCount(counted + {shard}, all);
    assert Covers(a, counted + {shard}) <==> all <= counted + {shard};
  }

  lemma CountShapes<P>(a: Analysis<P>, s: State<P>, t: State<P>, w: nat, next: Phase<P>, shard: nat)
    requires Shaped(a, s) && CounterRight(a, s) && FailureFinal(s) && w < |s.workers|
    requires shard < a.shards && shard in s.stored && shard !in s.counted && |s.counted + {shard}| == |s.counted| + 1
    requires s.counter.Some? && (next.Idle? || (next.Enqueueing? && next.job.MapJob? && next.job.shard == shard))
    requires t == Put(s.(counter := Some(a.shards - |s.counted| - 1), counted := s.counted + {shard}), w, next)
    ensures Shaped(a, t) && CounterRight(a, t) && FailureFinal(t)
  {
    forall v | 0 <= v < |t.workers| ensures PhaseFits(a, t, t.workers[v]) {
      assert v == w || PhaseFits(a, s, s.workers[v]);
    }
  }

  lemma CountAccounts<P>(a: Analysis<P>, s: State<P>, t: State<P>, w: nat, next: Phase<P>, shard: nat)
    requires MapsAccounted(a, s) && ReduceAccounted(a, s) && w < |s.workers|
    requires s.workers[w].Counting? && s.workers[w].job.MapJob? && s.workers[w].job.shard == shard
    requires shard < a.shards && shard !in s.counted && !AllCounted(a, s)
    requires t.queue == s.queue && t.workers == s.workers[w := next] && t.counted == s.counted + {shard}
    requires t.lost == s.lost && t.spent == s.spent && t.issued == s.issued
    requires next == if AllCounted(a, t) then Enqueueing(s.workers[w].job) else Idle
    ensures MapsAccounted(a, t) && ReduceAccounted(a, t)
  {
    forall k: nat | k < a.shards ensures MapTokens(t, k) + One(k in t.counted) + One(k in t.lost) == 1 {
      PutTokens(s, w, next, k);
      assert MapTokens(Put(s, w, next), k) == MapTokens(t, k);
    }
    PutTokens(s, w, next, 0);
    assert ReduceTokens(Put(s, w, next)) == ReduceTokens(t);
    assert TriggerTokens(Put(s, w, next)) == TriggerTokens(t);
  }

  /** Counting a shard takes it from its holder; the last one turns into the duty to push the reduce. */
  lemma CountBalanced<P>(a: Analysis<P>, s: State<P>, w: nat)
    requires Balanced(a, s) && w < |s.workers| && s.workers[w].Counting?
    ensures Balanced(a, WorkerStep(a, s, CountDown(w)).value)
  {
    hide MapsAccounted, Below, Tally;
    CountingHolds(a, s, w);
    var phase := s.workers[w];
    var shard := phase.job.shard;
    CountReachesZero(a, s.counted, shard);
    var last := Covers(a, s.counted + {shard});
    var next := if last then Enqueueing(phase.job) else Idle;
    var t := Put(s.(counter := Some(a.shards - |s.counted| - 1), counted := s.counted + {shard}), w, next);
    assert t == WorkerStep(a, s, CountDown(w)).value;
    CountAccounts(a, s, t, w, next, shard);
    CountShapes(a, s, t, w, next, shard);
  }

  lemma DropBalanced<P>(a: Analysis<P>, s: State<P>, w: nat)
    requires Balanced(a, s) && w < |s.workers| && s.workers[w].Dropping?
    ensures Balanced(a, WorkerStep(a, s, DropPartials(w)).value)
  {
    var phase := s.workers[w];
    assert PhaseFits(a, s, phase);
    TallyMember(s.workers, w, ReduceHolder);
    assert AllCounted(a, s);
    var u := Put(s, w, Recording(phase.job));
    MoveBalanced(a, s, u, w, Recording(phase.job));
    var t := WorkerStep(a, s, DropPartials(w)).value;
    assert forall k :: MapTokens(t, k) == MapTokens(u, k);
  }

  lemma RecordBalanced<P>(a: Analysis<P>, s: State<P>, w: nat)
    requires Balanced(a, s) && w < |s.workers| && s.workers[w].Recording?
    ensures Balanced(a, WorkerStep(a, s, RecordTotal(w)).value)
  {
    assert PhaseFits(a, s, s.workers[w]);
    LeaveBalanced(a, s, WorkerStep(a, s, RecordTotal(w)).value, w);
  }

  lemma NothingLost<P>(a: Analysis<P>, s: State<P>)
    requires Balanced(a, s) && AllCounted(a, s)
    ensures s.lost == {}
  {
    forall k: nat | k < a.shards ensures k !in s.lost {
      assert One(k in s.counted) == 1;
    }
  }

  /** A save needs the reduce in hand, so a failed analysis, having lost a shard or its reduce, can never be finished. */
  lemma FinishBalanced<P>(a: Analysis<P>, s: State<P>, w: nat)
    requires Balanced(a, s) && w < |s.workers| && s.workers[w].Finishing?
    ensures s.status != Failed
    ensures Balanced(a, WorkerStep(a, s, Finish(w)).value)
  {
    var phase := s.workers[w];
    assert PhaseFits(a, s, phase);
    TallyMember(s.workers, w, ReduceHolder);
    NothingLost(a, s);
    MoveBalanced(a, s, WorkerStep(a, s, Finish(w)).value, w, Dropping(phase.job));
  }

  lemma IdleWorldBalanced<P>(a: Analysis<P>, s: State<P>, act: Action)
    requires Balanced(a, s) && Step(a, s, act).Some? && Counted(act) && !ByWorker(act)
    ensures Balanced(a, Step(a, s, act).value)
    ensures Step(a, s, act).value.status == s.status
  {
    var t := Step(a, s, act).value;
    assert forall k :: MapTokens(t, k) == MapTokens(s, k);
  }

  /** Claiming a job and raising keep hold of it. */
  lemma HoldingBalanced<P>(a: Analysis<P>, s: State<P>, act: Action)
    requires Balanced(a, s) && Step(a, s, act).Some?
    requires act.Raise? || (act.Claim? && Claimable(s.status))
    ensures Balanced(a, Step(a, s, act).value)
    ensures s.status == Failed ==> Step(a, s, act).value.status == Failed
  {
    hide Tally;
    var t, w := Step(a, s, act).value, act.w;
    assert PhaseFits(a, s, s.workers[w]);
    MoveBalanced(a, s, t, w, t.workers[w]);
  }

  /** So does working through it. */
  lemma WorkingBalanced<P>(a: Analysis<P>, s: State<P>, act: Action)
    requires Balanced(a, s) && Step(a, s, act).Some?
    requires act.LoadShard? || act.PutPartial? || act.FetchPartials? || act.SaveAnomalies?
    ensures Balanced(a, Step(a, s, act).value)
    ensures s.status == Failed ==> Step(a, s, act).value.status == Failed
  {
    hide Tally;
    var t, w := Step(a, s, act).value, act.w;
    assert PhaseFits(a, s, s.workers[w]);
    MoveBalanced(a, s, t, w, t.workers[w]);
  }

  lemma StepBalanced<P>(a: Analysis<P>, s: State<P>, act: Action)
    requires Balanced(a, s) && Step(a, s, act).Some? && Counted(act)
    ensures Balanced(a, Step(a, s, act).value)
    ensures s.status == Failed ==> Step(a, s, act).value.status == Failed
  {
    hide Balanced;
    if !ByWorker(act) {
      IdleWorldBalanced(a, s, act);
    } else if act.Reserve? {
      ReserveBalanced(a, s, act.w);
    } else if act.EnqueueReduce? {
      EnqueueBalanced(a, s, act.w);
    } else if act.CountDown? {
      CountBalanced(a, s, act.w);
    } else if act.DropPartials? {
      DropBalanced(a, s, act.w);
    } else if act.RecordTotal? {
      RecordBalanced(a, s, act.w);
    } else if act.Finish? {
      FinishBalanced(a, s, act.w);
    } else if act.Crash? || (act.Claim? && !Claimable(s.status)) {
      CrashBalanced(a, s, act.w, s.status);
    } else if act.RecordFailure? {
      CrashBalanced(a, s, act.w, Failed);
    } else if act.Raise? || act.Claim? {
      HoldingBalanced(a, s, act);
    } else {
      WorkingBalanced(a, s, act);
    }
  }

  lemma {:induction false} RunBalanced<P>(a: Analysis<P>, workers: nat, acts: seq<Action>)
    requires a.shards > 0 && Run(a, workers, acts).Some? && forall i :: 0 <= i < |acts| ==> Counted(acts[i])
    ensures Balanced(a, Run(a, workers, acts).value)
  {
    if |acts| == 0 {
      StartBalanced(a, workers);
    } else {
      var front := acts[..|acts| - 1];
      RunBalanced(a, workers, front);
      StepBalanced(a, Run(a, workers, front).value, acts[|acts| - 1]);
    }
  }

  /** In every run without the reaper and with a live counter: at most one reduce is ever pushed, and only once
      every shard was stored and counted; until the reduce cleans up, the counter is the number of shards not yet counted. */
  lemma OneReduce<P>(a: Analysis<P>, workers: nat, acts: seq<Action>)
    requires a.shards > 0 && Run(a, workers, acts).Some? && forall i :: 0 <= i < |acts| ==> Counted(acts[i])
    ensures var s := Run(a, workers, acts).value;
      && s.issued <= 1
      && (s.issued == 1 ==> Covers(a, s.counted) && Covers(a, s.stored))
      && (s.counter.Some? ==> s.counter.value == a.shards - |s.counted|)
  {
    RunBalanced(a, workers, acts);
  }

  /** In every such run failure is final, though neither `finish` nor `fail` looks at the status. */
  lemma {:induction false} FailedIsFinal<P>(a: Analysis<P>, workers: nat, acts: seq<Action>, early: nat)
    requires a.shards > 0 && early <= |acts| && Run(a, workers, acts).Some? && forall i :: 0 <= i < |acts| ==> Counted(acts[i])
    ensures Run(a, workers, acts[..early]).Some?
    ensures Run(a, workers, acts[..early]).value.status == Failed ==> Run(a, workers, acts).value.status == Failed
  {
    if early == |acts| {
      assert acts[..early] == acts;
    } else {
      var front := acts[..|acts| - 1];
      assert front[..early] == acts[..early];
      FailedIsFinal(a, workers, front, early);
      RunBalanced(a, workers, front);
      StepBalanced(a, Run(a, workers, front).value, acts[|acts| - 1]);
    }
  }
}
