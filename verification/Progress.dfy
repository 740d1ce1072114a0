/** Without faults every run is short and ends well: each step uses up a bounded budget, and when no step is left
    the analysis is done after exactly one reduce over all shards. */
module Progress {
  import opened Common
  import opened Protocol
  import opened FanIn
  import opened Tallies

  /** Ordinary work: no crash, no exception, no expiry, no reaper. */
  predicate Faultless(act: Action) {
    ByWorker(act) && !act.Raise? && !act.Crash?
  }

  // --- The budget ---

  function JobRank(job: Job): nat {
    if job.MapJob? then 13 else 7
  }

  function PhaseRank<P>(phase: Phase<P>): nat {
    match phase
    case Idle => 0
    case Claiming(job) => JobRank(job) - 1
    case Loading(_) => 11
    case Storing(_, _) => 10
    case Counting(_) => 9
    case Enqueueing(_) => 8
    case Fetching(_) => 5
    case Saving(_, _) => 4
    case Finishing(_) => 3
    case Dropping(_) => 2
    case Recording(_) => 1
    case Failing(_, _) => 1
  }

  function Budget<P>(s: State<P>): nat {
    Tally(s.queue, JobRank) + Tally(s.workers, PhaseRank)
  }

  lemma {:induction false} AllMaps(jobs: seq<Job>)
    requires forall i :: 0 <= i < |jobs| ==> jobs[i].MapJob?
    ensures Tally(jobs, JobRank) == 13 * |jobs|
  {
    if |jobs| > 0 {
      AllMaps(jobs[..|jobs| - 1]);
    }
  }

  /** Steps other than taking and pushing jobs leave the queue alone. */
  lemma QueueStays<P>(a: Analysis<P>, s: State<P>, act: Action, t: State<P>)
    requires Faultless(act) && Step(a, s, act) == Some(t) && !act.Reserve? && !act.EnqueueReduce?
    ensures t.queue == s.queue
  {
    hide Fetched;
  }

  /** The steps of a map bring the worker closer to idle. */
  lemma MapRankDrops<P>(a: Analysis<P>, s: State<P>, act: Action, t: State<P>)
    requires act.Claim? || act.LoadShard? || act.PutPartial? || act.CountDown?
    requires Step(a, s, act) == Some(t) && act.w < |s.workers| == |t.workers|
    ensures PhaseRank(t.workers[act.w]) < PhaseRank(s.workers[act.w])
  {
    hide Fetched;
  }

  /** So do those of a reduce, and giving up. */
  lemma ReduceRankDrops<P>(a: Analysis<P>, s: State<P>, act: Action, t: State<P>)
    requires act.FetchPartials? || act.SaveAnomalies? || act.Finish? || act.DropPartials? || act.RecordTotal? || act.RecordFailure?
    requires Step(a, s, act) == Some(t) && act.w < |s.workers| == |t.workers|
    ensures PhaseRank(t.workers[act.w]) < PhaseRank(s.workers[act.w])
  {
    hide Fetched;
  }

  lemma StepSpends<P>(a: Analysis<P>, s: State<P>, act: Action)
    requires Faultless(act) && Step(a, s, act).Some?
    ensures Budget(Step(a, s, act).value) < Budget(s)
  {
    var t, w := Step(a, s, act).value, act.w;
    if act.Reserve? {
      TallyPut(s.workers, w, t.workers[w], PhaseRank<P>);
    } else if act.EnqueueReduce? {
      TallyPut(s.workers, w, Idle, PhaseRank<P>);
      TallyPush(ReduceJob(s.workers[w].job.shardCount), s.queue, JobRank);
    } else {
      OneWorkerMoves(a, s, act);
      QueueStays(a, s, act, t);
      if act.Claim? || act.LoadShard? || act.PutPartial? || act.CountDown? {
        MapRankDrops(a, s, act, t);
      } else {
        ReduceRankDrops(a, s, act, t);
      }
      TallyPut(s.workers, w, t.workers[w], PhaseRank<P>);
    }
  }

  /** A run of ordinary steps takes at most thirteen steps a shard. */
  lemma {:induction false} RunIsShort<P>(a: Analysis<P>, workers: nat, acts: seq<Action>)
    requires Run(a, workers, acts).Some? && forall i :: 0 <= i < |acts| ==> Faultless(acts[i])
    ensures |acts| + Budget(Run(a, workers, acts).value) <= 13 * a.shards
  {
    if |acts| == 0 {
      var s := Start(a, workers);
      forall i | 0 <= i < |s.queue| ensures s.queue[i].MapJob? {
        assert s.queue[i] == JobOf(a, a.shards - 1 - i);
      }
      AllMaps(s.queue);
      TallyZero(s.workers, PhaseRank<P>);
    } else {
      var front := acts[..|acts| - 1];
      RunIsShort(a, workers, front);
      StepSpends(a, Run(a, workers, front).value, acts[|acts| - 1]);
    }
  }

  // --- What ordinary steps keep ---

  function Saved<P>(phase: Phase<P>): nat {
    One(phase.Finishing? || phase.Dropping? || phase.Recording?)
  }

  function Finished<P>(phase: Phase<P>): nat {
    One(phase.Dropping? || phase.Recording?)
  }

  function Opening<P>(phase: Phase<P>): nat {
    One((phase.Claiming? || phase.Fetching?) && phase.job.ReduceJob?)
  }

  function Cleaned<P>(phase: Phase<P>): nat {
    One(phase.Recording?)
  }

  /** The reduce has cleaned up. */
  predicate Dropped<P>(s: State<P>) {
    s.spent || Tally(s.workers, Cleaned<P>) > 0
  }

  ghost predicate Kept<P>(s: State<P>) {
    if Dropped(s) then s.partials == map[] && s.counter == None else forall k :: k in s.stored ==> k in s.partials
  }

  /** Nothing is lost, every stored partial is still there until the reduce cleans up, there is one save a reduce
      that got that far, and the status is `done` exactly from the reduce's `finish` on. */
  ghost predicate Clean<P>(a: Analysis<P>, s: State<P>) {
    && Exact(a, s) && Balanced(a, s)
    && s.lost == {} && s.status != Failed
    && (forall w :: 0 <= w < |s.workers| ==> !s.workers[w].Failing?)
    && Kept(s)
    && s.issued + TriggerTokens(s) == One(AllCounted(a, s))
    && |s.saves| == Tally(s.workers, Saved<P>) + One(s.spent)
    && (s.status == Done <==> Tally(s.workers, Finished<P>) + One(s.spent) > 0)
  }

  lemma StartClean<P>(a: Analysis<P>, workers: nat)
    requires a.shards > 0
    ensures Clean(a, Start(a, workers))
  {
    var s := Start(a, workers);
    StartExact(a, workers);
    StartBalanced(a, workers);
    TallyZero(s.workers, Saved<P>);
    TallyZero(s.workers, Finished<P>);
    TallyZero(s.workers, Triggers<P>);
    TallyZero(s.workers, Cleaned<P>);
    assert 0 !in s.counted;
  }

  /** Who has cleaned up has finished, and holds the reduce. */
  lemma CleanedFinished<P>(s: State<P>)
    requires forall i :: 0 <= i < |s.workers| ==> KindFits(s.workers[i])
    ensures Tally(s.workers, Cleaned<P>) <= Tally(s.workers, Finished<P>)
    ensures Tally(s.workers, Cleaned<P>) <= Tally(s.workers, ReduceHolder<P>)
  {
    var none := (phase: Phase<P>) => 0 as nat;
    TallyZero(s.workers, none);
    TallyLess(s.workers, Cleaned<P>, none, Finished<P>);
    TallyLess(s.workers, Cleaned<P>, none, ReduceHolder<P>);
  }

  lemma CleanKinds<P>(a: Analysis<P>, s: State<P>)
    requires Shaped(a, s)
    ensures forall i :: 0 <= i < |s.workers| ==> KindFits(s.workers[i])
  {
    forall i | 0 <= i < |s.workers| ensures KindFits(s.workers[i]) {
      assert PhaseFits(a, s, s.workers[i]);
    }
  }

  /** While a job of the analysis is still to be claimed or its partials to be fetched, nothing has finished. */
  lemma NotYetDone<P>(a: Analysis<P>, s: State<P>, w: nat)
    requires Clean(a, s) && w < |s.workers| && (s.workers[w].Claiming? || s.workers[w].Fetching?)
    ensures Claimable(s.status) && !Dropped(s)
    ensures s.workers[w].job.ReduceJob? ==> AllCounted(a, s)
  {
    var phase := s.workers[w];
    assert PhaseFits(a, s, phase);
    forall i | 0 <= i < |s.workers| ensures Finished(s.workers[i]) + Opening(s.workers[i]) <= ReduceHolder(s.workers[i]) {
      assert PhaseFits(a, s, s.workers[i]);
    }
    TallyLess(s.workers, Finished<P>, Opening<P>, ReduceHolder<P>);
    CleanKinds(a, s);
    CleanedFinished(s);
    if phase.job.MapJob? {
      TallyMember(s.workers, w, MapHolder(phase.job.shard));
      assert MapTokens(s, phase.job.shard) >= 1;
      assert phase.job.shard !in s.counted;
    } else {
      TallyMember(s.workers, w, Opening<P>);
    }
  }

  /** The reduce finds every partial. */
  lemma FetchSucceeds<P>(a: Analysis<P>, s: State<P>, w: nat)
    requires Clean(a, s) && w < |s.workers| && s.workers[w].Fetching?
    ensures Fetched(s.partials, s.workers[w].job.shardCount).Some?
  {
    NotYetDone(a, s, w);
    assert PhaseFits(a, s, s.workers[w]) && PhaseGood(a, s.workers[w]);
  }

  /** A worker with a shard in hand means the reduce is still to come. */
  lemma MapInHand<P>(a: Analysis<P>, s: State<P>, w: nat)
    requires Balanced(a, s) && w < |s.workers| && (s.workers[w].Storing? || s.workers[w].Counting?)
    ensures !AllCounted(a, s) && !Dropped(s)
  {
    var phase := s.workers[w];
    assert PhaseFits(a, s, phase);
    TallyMember(s.workers, w, MapHolder(phase.job.shard));
    assert MapTokens(s, phase.job.shard) >= 1;
    assert phase.job.shard !in s.counted;
    CleanKinds(a, s);
    CleanedFinished(s);
  }

  /** What the partials and the counter need of the step at hand: work on a shard means nothing was cleaned up yet,
      and the clean-up reaches every stored partial. */
  lemma KeptMoves<P>(a: Analysis<P>, s: State<P>, act: Action, t: State<P>)
    requires Faultless(act) && Step(a, s, act) == Some(t) && Kept(s)
    requires act.w < |s.workers| && !s.workers[act.w].Failing? && (act.Claim? ==> Claimable(s.status))
    requires act.Claim? || act.PutPartial? || act.CountDown? ==> !Dropped(s)
    requires act.DropPartials? ==> forall k :: k in s.partials ==> k < s.workers[act.w].job.shardCount
    ensures Kept(t)
  {
    hide Tally, Fetched;
    var w := act.w;
    assert t.workers == s.workers[w := t.workers[w]];
    TallyPut(s.workers, w, t.workers[w], Cleaned<P>);
    TallyMember(t.workers, w, Cleaned<P>);
    TallyMember(s.workers, w, Cleaned<P>);
    if act.DropPartials? {
      assert t.partials == map[];
    }
  }

  lemma StepKeeps<P>(a: Analysis<P>, s: State<P>, act: Action)
    requires Clean(a, s) && Faultless(act) && Step(a, s, act).Some?
    ensures Kept(Step(a, s, act).value)
  {
    hide Kept;
    var w := act.w;
    assert PhaseGood(a, s.workers[w]);
    if act.Claim? {
      NotYetDone(a, s, w);
    } else if act.PutPartial? || act.CountDown? {
      MapInHand(a, s, w);
    }
    KeptMoves(a, s, act, Step(a, s, act).value);
  }

  /** What the invariants promise about the step at hand: a claim succeeds, and a fetch finds every partial. */
  ghost predicate Smooth<P>(s: State<P>, act: Action) {
    && Faultless(act) && act.w < |s.workers|
    && (act.Claim? ==> Claimable(s.status))
    && (act.FetchPartials? && s.workers[act.w].Fetching? ==> Fetched(s.partials, s.workers[act.w].job.shardCount).Some?)
    && (act.RecordTotal? ==> !s.spent)
    && !s.workers[act.w].Failing?
  }

  lemma StepIsSmooth<P>(a: Analysis<P>, s: State<P>, act: Action)
    requires Clean(a, s) && Faultless(act) && Step(a, s, act).Some?
    ensures Smooth(s, act)
  {
    var w := act.w;
    assert PhaseFits(a, s, s.workers[w]);
    if act.Claim? {
      NotYetDone(a, s, w);
    } else if act.FetchPartials? {
      FetchSucceeds(a, s, w);
    } else if act.RecordTotal? {
      TallyMember(s.workers, w, ReduceHolder<P>);
    }
  }

  lemma StepLosesNothing<P>(a: Analysis<P>, s: State<P>, act: Action)
    requires Smooth(s, act) && Step(a, s, act).Some?
    requires s.lost == {} && s.status != Failed && forall w :: 0 <= w < |s.workers| ==> !s.workers[w].Failing?
    ensures var t := Step(a, s, act).value;
      t.lost == {} && t.status != Failed && forall w :: 0 <= w < |t.workers| ==> !t.workers[w].Failing?
  {}

  lemma TriggersMove<P>(a: Analysis<P>, s: State<P>, act: Action, t: State<P>)
    requires Smooth(s, act) && Step(a, s, act) == Some(t)
    requires s.issued + TriggerTokens(s) == One(AllCounted(a, s))
    requires act.CountDown? ==> !AllCounted(a, s) && (t.workers[act.w].Enqueueing? <==> AllCounted(a, t))
    ensures t.issued + TriggerTokens(t) == One(AllCounted(a, t))
  {
    hide Tally, Fetched;
    var w := act.w;
    TallyPut(s.workers, w, t.workers[w], Triggers<P>);
    assert t.workers == s.workers[w := t.workers[w]];
  }

  lemma StepTriggers<P>(a: Analysis<P>, s: State<P>, act: Action)
    requires Clean(a, s) && Smooth(s, act) && Step(a, s, act).Some?
    ensures var t := Step(a, s, act).value; t.issued + TriggerTokens(t) == One(AllCounted(a, t))
  {
    var t, w := Step(a, s, act).value, act.w;
    if act.CountDown? {
      CountingHolds(a, s, w);
      CountReachesZero(a, s.counted, s.workers[w].job.shard);
    }
    TriggersMove(a, s, act, t);
  }

  /** There is one save for each reduce that got that far. */
  lemma StepSaves<P>(a: Analysis<P>, s: State<P>, act: Action, t: State<P>)
    requires Smooth(s, act) && Step(a, s, act) == Some(t)
    requires |s.saves| == Tally(s.workers, Saved<P>) + One(s.spent)
    ensures |t.saves| == Tally(t.workers, Saved<P>) + One(t.spent)
  {
    hide Tally;
    var w := act.w;
    TallyPut(s.workers, w, t.workers[w], Saved<P>);
    assert t.workers == s.workers[w := t.workers[w]];
  }

  /** The status is `done` exactly from the reduce's `finish` on. */
  lemma StepFinishes<P>(a: Analysis<P>, s: State<P>, act: Action, t: State<P>)
    requires Smooth(s, act) && Step(a, s, act) == Some(t)
    requires s.status == Done <==> Tally(s.workers, Finished<P>) + One(s.spent) > 0
    ensures t.status == Done <==> Tally(t.workers, Finished<P>) + One(t.spent) > 0
  {
    hide Tally;
    var w := act.w;
    TallyPut(s.workers, w, t.workers[w], Finished<P>);
    assert t.workers == s.workers[w := t.workers[w]];
    if act.Claim? {
      TallyMember(s.workers, w, Finished<P>);
    }
  }

  lemma StepClean<P>(a: Analysis<P>, s: State<P>, act: Action)
    requires Clean(a, s) && Faultless(act) && Step(a, s, act).Some?
    ensures Clean(a, Step(a, s, act).value)
  {
    StepExact(a, s, act);
    StepBalanced(a, s, act);
    StepKeeps(a, s, act);
    StepIsSmooth(a, s, act);
    StepLosesNothing(a, s, act);
    StepTriggers(a, s, act);
    StepSaves(a, s, act, Step(a, s, act).value);
    StepFinishes(a, s, act, Step(a, s, act).value);
  }

  lemma {:induction false} RunClean<P>(a: Analysis<P>, workers: nat, acts: seq<Action>)
    requires a.shards > 0 && Run(a, workers, acts).Some? && forall i :: 0 <= i < |acts| ==> Faultless(acts[i])
    ensures Clean(a, Run(a, workers, acts).value)
  {
    if |acts| == 0 {
      StartClean(a, workers);
    } else {
      var front := acts[..|acts| - 1];
      RunClean(a, workers, front);
      StepClean(a, Run(a, workers, front).value, acts[|acts| - 1]);
    }
  }

  // --- The end ---

  ghost predicate Stuck<P>(a: Analysis<P>, s: State<P>) {
    forall act :: Faultless(act) ==> Step(a, s, act).None?
  }

  /** The step a busy worker takes next. */
  function NextOf<P>(phase: Phase<P>, w: nat): Action
    requires !phase.Idle?
  {
    match phase
    case Claiming(_) => Claim(w)
    case Loading(_) => LoadShard(w)
    case Storing(_, _) => PutPartial(w)
    case Counting(_) => CountDown(w)
    case Enqueueing(_) => EnqueueReduce(w)
    case Fetching(_) => FetchPartials(w)
    case Saving(_, _) => SaveAnomalies(w)
    case Finishing(_) => Finish(w)
    case Dropping(_) => DropPartials(w)
    case Recording(_) => RecordTotal(w)
    case Failing(_, _) => RecordFailure(w)
  }

  lemma BusyCanStep<P>(a: Analysis<P>, s: State<P>, w: nat)
    requires Shaped(a, s) && w < |s.workers| && !s.workers[w].Idle?
    ensures Faultless(NextOf(s.workers[w], w)) && Step(a, s, NextOf(s.workers[w], w)).Some?
  {
    assert PhaseFits(a, s, s.workers[w]);
  }

  lemma StuckIsIdle<P>(a: Analysis<P>, s: State<P>)
    requires Shaped(a, s) && Stuck(a, s) && |s.workers| > 0
    ensures s.queue == [] && forall w :: 0 <= w < |s.workers| ==> s.workers[w].Idle?
  {
    forall w | 0 <= w < |s.workers| ensures s.workers[w].Idle? {
      if !s.workers[w].Idle? {
        BusyCanStep(a, s, w);
      }
    }
    assert Step(a, s, Reserve(0)).None?;
  }

  /** Any fault-free run can be carried on, without faults, until no step is left. */
  lemma {:induction false} RunToEnd<P>(a: Analysis<P>, workers: nat, acts: seq<Action>) returns (longer: seq<Action>)
    requires Run(a, workers, acts).Some? && forall i :: 0 <= i < |acts| ==> Faultless(acts[i])
    ensures Run(a, workers, longer).Some? && forall i :: 0 <= i < |longer| ==> Faultless(longer[i])
    ensures Stuck(a, Run(a, workers, longer).value)
    decreases Budget(Run(a, workers, acts).value)
  {
    var s := Run(a, workers, acts).value;
    if Stuck(a, s) {
      longer := acts;
    } else {
      var act :| Faultless(act) && Step(a, s, act).Some?;
      StepSpends(a, s, act);
      assert (acts + [act])[..|acts|] == acts;
      longer := RunToEnd(a, workers, acts + [act]);
    }
  }

  lemma IdleTokens<P>(s: State<P>)
    requires s.queue == [] && forall w :: 0 <= w < |s.workers| ==> s.workers[w].Idle?
    ensures ReduceTokens(s) == 0 && TriggerTokens(s) == 0
    ensures Tally(s.workers, Saved<P>) == 0 && Tally(s.workers, Finished<P>) == 0
  {
    TallyZero(s.workers, ReduceHolder<P>);
    TallyZero(s.workers, Triggers<P>);
    TallyZero(s.workers, Saved<P>);
    TallyZero(s.workers, Finished<P>);
  }

  lemma StuckIsDone<P>(a: Analysis<P>, s: State<P>)
    requires Clean(a, s) && Stuck(a, s) && |s.workers| > 0
    ensures s.status == Done && s.issued == 1 && s.saves == [AllSlices(a)] && s.partials == map[] && s.counter == None
  {
    StuckIsIdle(a, s);
    IdleTokens(s);
    forall k: nat | k < a.shards ensures k in s.counted {
      TallyZero(s.workers, MapHolder<P>(k));
      assert MapTokens(s, k) == 0;
    }
    assert AllCounted(a, s);
  }

  lemma StepSameWorkers<P>(a: Analysis<P>, s: State<P>, act: Action)
    requires Step(a, s, act).Some?
    ensures |Step(a, s, act).value.workers| == |s.workers|
  {
    hide WorkerStep;
    if ByWorker(act) {
      OneWorkerMoves(a, s, act);
    }
  }

  lemma {:induction false} SameWorkers<P>(a: Analysis<P>, workers: nat, acts: seq<Action>)
    requires Run(a, workers, acts).Some?
    ensures |Run(a, workers, acts).value.workers| == workers
  {
    if |acts| > 0 {
      var front := acts[..|acts| - 1];
      SameWorkers(a, workers, front);
      StepSameWorkers(a, Run(a, workers, front).value, acts[|acts| - 1]);
    }
  }

  /** When nothing is left to do without faults, the analysis is done, one reduce ran, and its one save holds
      the aggregates of all shards. */
  lemma EndsDone<P>(a: Analysis<P>, workers: nat, acts: seq<Action>)
    requires a.shards > 0 && workers > 0
    requires Run(a, workers, acts).Some? && forall i :: 0 <= i < |acts| ==> Faultless(acts[i])
    requires Stuck(a, Run(a, workers, acts).value)
    ensures var s := Run(a, workers, acts).value;
      s.status == Done && s.issued == 1 && s.saves == [AllSlices(a)] && s.partials == map[] && s.counter == None
  {
    RunClean(a, workers, acts);
    SameWorkers(a, workers, acts);
    StuckIsDone(a, Run(a, workers, acts).value);
  }
}
