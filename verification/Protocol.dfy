/** The job protocol of one analysis as a state machine. Every Redis command and every SQL transaction is one
    atomic step of one worker; steps of different workers interleave freely. Crashes, exceptions, key expiry and
    the reaper are steps of their own, so that a theorem can say which of them it allows. */
module Protocol {
  import opened Common

  datatype Job =
    | MapJob(shard: nat, shardCount: nat, offset: int, limit: int)
    | ReduceJob(shardCount: nat)

  datatype Status = Queued | Running | Done | Failed

  /** What an exception took down with it. */
  datatype Cause = MapLost | ReduceLost

  /** Where a worker is inside `handle`: the constructor names the command it issues next. */
  datatype Phase<P> =
    | Idle
    | Claiming(job: Job)
    | Loading(job: Job)
    | Storing(job: Job, payload: P)
    | Counting(job: Job)
    | Enqueueing(job: Job)
    | Fetching(job: Job)
    | Saving(job: Job, parts: seq<P>)
    | Finishing(job: Job)
    | Dropping(job: Job)
    | Recording(job: Job)
    | Failing(job: Job, cause: Cause)

  /** An analysis: how many shards it was fanned out into, their size, and the aggregate of any slice of its
      rows. Rows are immutable while an analysis runs, so a slice always maps to the same aggregate. */
  datatype Analysis<!P> = Analysis(shards: nat, size: int, slice: (int, int) -> P)

  /** `counted`, `stored`, `lost`, `spent` and `issued` are history: no step reads them. */
  datatype State<P> = State(
    status: Status,
    queue: seq<Job>,                // newest first: LPUSH puts in front, BRPOP takes the last
    counter: Option<int>,
    partials: map<nat, P>,
    saves: seq<seq<P>>,             // the partials behind each save, oldest first
    workers: seq<Phase<P>>,
    reaping: nat,                   // analyses marked stale whose job the reaper has yet to push
    counted: set<nat>,              // shards whose completion was counted
    stored: set<nat>,               // shards whose partial was ever stored
    lost: set<nat>,                 // shards whose job ended without being counted
    spent: bool,                    // the reduce ended, one way or another
    issued: nat)                    // reduce jobs ever pushed

  datatype Action =
    | Reserve(w: nat) | Claim(w: nat) | LoadShard(w: nat) | PutPartial(w: nat) | CountDown(w: nat) | EnqueueReduce(w: nat)
    | FetchPartials(w: nat) | SaveAnomalies(w: nat) | Finish(w: nat) | DropPartials(w: nat) | RecordTotal(w: nat) | RecordFailure(w: nat)
    | Raise(w: nat) | Crash(w: nat)
    | ExpirePartial(shard: nat) | ExpireCounter
    | ReaperMark | ReaperPush | ReaperDie

  const REAPER_JOB := MapJob(0, 1, 0, 10_000_000)

  function JobOf<P>(a: Analysis<P>, k: nat): Job {
    MapJob(k, a.shards, k * a.size, a.size)
  }

  /** The aggregate shard `k` ought to have. */
  function SliceOf<P>(a: Analysis<P>, k: nat): P {
    a.slice(k * a.size, a.size)
  }

  /** The aggregates of all shards, in shard order. */
  function AllSlices<P>(a: Analysis<P>): seq<P> {
    seq(a.shards, k requires 0 <= k < a.shards => SliceOf(a, k))
  }

  /** Jobs as published: shard 0 is pushed first, so it is last in the list and first out. */
  function Published<P>(a: Analysis<P>): seq<Job> {
    seq(a.shards, i requires 0 <= i < a.shards => JobOf(a, a.shards - 1 - i))
  }

  function Start<P>(a: Analysis<P>, workers: nat): State<P> {
    State(Queued, Published(a), Some(a.shards), map[], [], seq(workers, _ => Idle), 0, {}, {}, {}, false, 0)
  }

  function Put<P>(s: State<P>, w: nat, phase: Phase<P>): State<P>
    requires w < |s.workers|
  {
    s.(workers := s.workers[w := phase])
  }

  predicate Claimable(status: Status) {
    status == Queued || status == Running
  }

  /** The partials of shards 0 to `n`-1, if all are present. */
  function Fetched<P>(partials: map<nat, P>, n: nat): Option<seq<P>> {
    if forall k: nat :: k < n ==> k in partials then Some(seq(n, k requires 0 <= k < n && k in partials => partials[k])) else None
  }

  /** History after the job a worker holds ends without having done its part. */
  function Abandon<P>(s: State<P>, phase: Phase<P>): State<P> {
    match phase
    case Idle => s
    case Enqueueing(_) => s.(spent := true)
    case Failing(job, cause) => if cause.MapLost? && job.MapJob? then s.(lost := s.lost + {job.shard}) else s.(spent := true)
    case _ => if phase.job.MapJob? then s.(lost := s.lost + {phase.job.shard}) else s.(spent := true)
  }

  function CauseOf<P>(phase: Phase<P>): Cause
    requires !phase.Idle?
  {
    if phase.Failing? then phase.cause else if phase.Enqueueing? || phase.job.ReduceJob? then ReduceLost else MapLost
  }

  /** One step of a worker; `None` when the worker is not where the step starts. */
  function WorkerStep<P>(a: Analysis<P>, s: State<P>, act: Action): Option<State<P>>
    requires (act.Reserve? || act.Claim? || act.LoadShard? || act.PutPartial? || act.CountDown? || act.EnqueueReduce? || act.FetchPartials?
      || act.SaveAnomalies? || act.Finish? || act.DropPartials? || act.RecordTotal? || act.RecordFailure? || act.Raise? || act.Crash?)
    requires act.w < |s.workers|
  {
    var w, phase := act.w, s.workers[act.w];
    match act
    case Reserve(_) =>
      if phase.Idle? && |s.queue| > 0 then
        var n := |s.queue| - 1;
        Some(Put(s.(queue := s.queue[..n]), w, Claiming(s.queue[n])))
      else None
    case Claim(_) =>
      if !phase.Claiming? then None
      else if Claimable(s.status) then
        Some(Put(s.(status := Running), w, if phase.job.MapJob? then Loading(phase.job) else Fetching(phase.job)))
      else Some(Put(Abandon(s, phase), w, Idle))
    case LoadShard(_) =>
      if phase.Loading? && phase.job.MapJob? then Some(Put(s, w, Storing(phase.job, a.slice(phase.job.offset, phase.job.limit)))) else None
    case PutPartial(_) =>
      if phase.Storing? && phase.job.MapJob? then
        Some(Put(s.(partials := s.partials[phase.job.shard := phase.payload], stored := s.stored + {phase.job.shard}), w, Counting(phase.job)))
      else None
    case CountDown(_) =>
      if phase.Counting? && phase.job.MapJob? then
        var remaining := (if s.counter.Some? then s.counter.value else 0) - 1;
        Some(Put(s.(counter := Some(remaining), counted := s.counted + {phase.job.shard}), w, if remaining <= 0 then Enqueueing(phase.job) else Idle))
      else None
    case EnqueueReduce(_) =>
      if phase.Enqueueing? then
        Some(Put(s.(queue := [ReduceJob(phase.job.shardCount)] + s.queue, issued := s.issued + 1), w, Idle))
      else None
    case FetchPartials(_) =>
      if !phase.Fetching? then None
      else
        var parts := Fetched(s.partials, phase.job.shardCount);
        Some(Put(s, w, if parts.Some? then Saving(phase.job, parts.value) else Failing(phase.job, ReduceLost)))
    case SaveAnomalies(_) =>
      if phase.Saving? then Some(Put(s.(saves := s.saves + [phase.parts]), w, Finishing(phase.job))) else None
    case Finish(_) =>
      if phase.Finishing? then Some(Put(s.(status := Done), w, Dropping(phase.job))) else None
    case DropPartials(_) =>
      if phase.Dropping? then
        Some(Put(s.(partials := map k | k in s.partials && k >= phase.job.shardCount :: s.partials[k], counter := None), w, Recording(phase.job)))
      else None
    case RecordTotal(_) =>
      if phase.Recording? then Some(Put(s.(spent := true), w, Idle)) else None
    case RecordFailure(_) =>
      if phase.Failing? then Some(Put(Abandon(s.(status := Failed), phase), w, Idle)) else None
    case Raise(_) =>
      // Only what runs inside the try block, which starts once the claim succeeded.
      if phase.Idle? || phase.Claiming? || phase.Failing? then None else Some(Put(s, w, Failing(phase.job, CauseOf(phase))))
    case Crash(_) =>
      if phase.Idle? then None else Some(Put(Abandon(s, phase), w, Idle))
  }

  predicate ByWorker(act: Action) {
    !(act.ExpirePartial? || act.ExpireCounter? || act.ReaperMark? || act.ReaperPush? || act.ReaperDie?)
  }

  function Step<P>(a: Analysis<P>, s: State<P>, act: Action): Option<State<P>> {
    if ByWorker(act) then (if act.w < |s.workers| then WorkerStep(a, s, act) else None)
    else match act
      case ExpirePartial(k) => if k in s.partials then Some(s.(partials := s.partials - {k})) else None
      case ExpireCounter => if s.counter.Some? then Some(s.(counter := None)) else None
      case ReaperMark => if s.status == Running then Some(s.(status := Queued, reaping := s.reaping + 1)) else None
      case ReaperPush => if s.reaping > 0 then Some(s.(queue := [REAPER_JOB] + s.queue, reaping := s.reaping - 1)) else None
      case ReaperDie => if s.reaping > 0 then Some(s.(reaping := s.reaping - 1)) else None
      case _ => None
  }

  /** The state after a run, if every step of it was enabled. */
  function Run<P>(a: Analysis<P>, workers: nat, acts: seq<Action>): Option<State<P>> {
    if |acts| == 0 then Some(Start(a, workers))
    else
      var before := Run(a, workers, acts[..|acts| - 1]);
      if before.None? then None else Step(a, before.value, acts[|acts| - 1])
  }

  predicate ByReaper(act: Action) {
    act.ReaperMark? || act.ReaperPush? || act.ReaperDie?
  }

  // --- Which partials a save uses ---

  /** A job that maps the right slice under the right shard number. */
  ghost predicate JobGood<P>(a: Analysis<P>, job: Job) {
    && job.shardCount == a.shards
    && (job.MapJob? ==> job.shard < a.shards && a.slice(job.offset, job.limit) == SliceOf(a, job.shard))
  }

  ghost predicate PhaseGood<P>(a: Analysis<P>, phase: Phase<P>) {
    && (!phase.Idle? ==> JobGood(a, phase.job))
    && (phase.Storing? && phase.job.MapJob? ==> phase.payload == SliceOf(a, phase.job.shard))
    && (phase.Saving? ==> phase.parts == AllSlices(a))
  }

  ghost predicate Exact<P>(a: Analysis<P>, s: State<P>) {
    && (forall i :: 0 <= i < |s.queue| ==> JobGood(a, s.queue[i]))
    && (forall w :: 0 <= w < |s.workers| ==> PhaseGood(a, s.workers[w]))
    && (forall k :: k in s.partials ==> k < a.shards && s.partials[k] == SliceOf(a, k))
    && (forall i :: 0 <= i < |s.saves| ==> s.saves[i] == AllSlices(a))
  }

  /** The job the reaper pushes maps the same rows as the only shard. */
  ghost predicate ReaperSafe<P>(a: Analysis<P>) {
    a.shards == 1 && a.slice(REAPER_JOB.offset, REAPER_JOB.limit) == SliceOf(a, 0)
  }

  lemma StartExact<P>(a: Analysis<P>, workers: nat)
    ensures Exact(a, Start(a, workers))
  {
    forall i | 0 <= i < a.shards ensures JobGood(a, Published(a)[i]) {
      var k: nat := a.shards - 1 - i;
      assert Published(a)[i] == JobOf(a, k);
    }
  }

  lemma FetchedExact<P>(a: Analysis<P>, s: State<P>)
    requires Exact(a, s)
    ensures Fetched(s.partials, a.shards).Some? ==> Fetched(s.partials, a.shards).value == AllSlices(a)
  {}

  /** A worker's step moves that worker alone. */
  lemma OneWorkerMoves<P>(a: Analysis<P>, s: State<P>, act: Action)
    requires ByWorker(act) && act.w < |s.workers| && WorkerStep(a, s, act).Some?
    ensures |WorkerStep(a, s, act).value.workers| == |s.workers|
    ensures WorkerStep(a, s, act).value.workers == s.workers[act.w := WorkerStep(a, s, act).value.workers[act.w]]
  {
    hide Fetched;
  }

  /** The phase a step leaves its worker in is good. */
  lemma NextPhaseGood<P>(a: Analysis<P>, s: State<P>, act: Action)
    requires Exact(a, s) && ByWorker(act) && act.w < |s.workers| && WorkerStep(a, s, act).Some?
    requires act.w < |WorkerStep(a, s, act).value.workers|
    ensures PhaseGood(a, WorkerStep(a, s, act).value.workers[act.w])
  {
    hide Fetched;
    FetchedExact(a, s);
    assert PhaseGood(a, s.workers[act.w]);
    if act.Reserve? {
      assert JobGood(a, s.queue[|s.queue| - 1]);
    }
  }

  lemma StoredExact<P>(a: Analysis<P>, s: State<P>, act: Action)
    requires Exact(a, s) && ByWorker(act) && act.w < |s.workers| && WorkerStep(a, s, act).Some?
    ensures var t := WorkerStep(a, s, act).value;
      && (forall i :: 0 <= i < |t.queue| ==> JobGood(a, t.queue[i]))
      && (forall k :: k in t.partials ==> k < a.shards && t.partials[k] == SliceOf(a, k))
      && (forall i :: 0 <= i < |t.saves| ==> t.saves[i] == AllSlices(a))
  {
    hide Fetched;
    assert PhaseGood(a, s.workers[act.w]);
  }

  lemma WorkerExact<P>(a: Analysis<P>, s: State<P>, act: Action)
    requires Exact(a, s) && ByWorker(act) && act.w < |s.workers| && WorkerStep(a, s, act).Some?
    ensures Exact(a, WorkerStep(a, s, act).value)
  {
    hide WorkerStep;
    OneWorkerMoves(a, s, act);
    NextPhaseGood(a, s, act);
    StoredExact(a, s, act);
  }

  /** Every step keeps every stored partial right, so every reduce that scores at all scores all of them. */
  lemma StepExact<P>(a: Analysis<P>, s: State<P>, act: Action)
    requires Exact(a, s) && Step(a, s, act).Some? && (ByReaper(act) ==> ReaperSafe(a))
    ensures Exact(a, Step(a, s, act).value)
  {
    if ByWorker(act) {
      WorkerExact(a, s, act);
    }
  }

  /** In every run, whatever crashes, raises, expires or interleaves, every save rests on exactly the aggregates of
      all shards. The reaper is allowed when the upload fits one shard. */
  lemma {:induction false} SavesAreExact<P>(a: Analysis<P>, workers: nat, acts: seq<Action>)
    requires Run(a, workers, acts).Some?
    requires ReaperSafe(a) || forall i :: 0 <= i < |acts| ==> !ByReaper(acts[i])
    ensures Exact(a, Run(a, workers, acts).value)
  {
    if |acts| == 0 {
      StartExact(a, workers);
    } else {
      var front := acts[..|acts| - 1];
      SavesAreExact(a, workers, front);
      StepExact(a, Run(a, workers, front).value, acts[|acts| - 1]);
    }
  }
}
