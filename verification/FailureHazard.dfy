/** When failure is not final. `finish` and `fail` both write the status without looking at it, so a reduce that is under way
    can finish an analysis that another job has just failed. That takes two jobs that can overlap the reduce: without the
    reaper, an expired counter and at least two shards; with the reaper, any analysis. */
module FailureHazard {
  import opened Common
  import opened Tallies
  import opened Protocol
  import opened Worker
  import opened Scenarios
  import opened ExpiryHazard
  import ReaperHazard

  // --- One job at a time ---

  function Busy<P>(phase: Phase<P>): nat {
    One(!phase.Idle?)
  }

  function Jobs<P>(s: State<P>): nat {
    |s.queue| + Tally(s.workers, Busy<P>)
  }

  /** At most one job exists, and a failed analysis has none left. */
  ghost predicate Lonely<P>(s: State<P>) {
    Jobs(s) <= 1 && (s.status == Failed ==> Jobs(s) == 0)
  }

  lemma BusyMoves<P>(s: State<P>, w: nat, t: State<P>)
    requires w < |s.workers| == |t.workers| && t.workers == s.workers[w := t.workers[w]]
    ensures Tally(t.workers, Busy<P>) + Busy(s.workers[w]) == Tally(s.workers, Busy<P>) + Busy(t.workers[w])
    ensures Busy(s.workers[w]) <= Tally(s.workers, Busy<P>)
  {
    TallyPut(s.workers, w, t.workers[w], Busy<P>);
    TallyMember(s.workers, w, Busy<P>);
  }

  /** What a worker's step does to the number of jobs: nothing, or it ends one. */
  lemma StepJobs<P>(a: Analysis<P>, s: State<P>, act: Action)
    requires ByWorker(act) && Step(a, s, act).Some?
    ensures Jobs(Step(a, s, act).value) <= Jobs(s) && Jobs(s) > 0
    ensures act.RecordFailure? ==> Jobs(Step(a, s, act).value) < Jobs(s)
    ensures Step(a, s, act).value.status == Failed ==> s.status == Failed || act.RecordFailure?
  {
    hide Tally;
    BusyMoves(s, act.w, Step(a, s, act).value);
  }

  lemma StepLonely<P>(a: Analysis<P>, s: State<P>, act: Action)
    requires Lonely(s) && Step(a, s, act).Some? && !ByReaper(act)
    ensures Lonely(Step(a, s, act).value)
    ensures s.status == Failed ==> Step(a, s, act).value.status == Failed
  {
    if ByWorker(act) {
      StepJobs(a, s, act);
    }
  }

  lemma {:induction false} OneShardLonely<P>(a: Analysis<P>, workers: nat, acts: seq<Action>)
    requires a.shards <= 1 && Run(a, workers, acts).Some? && forall i :: 0 <= i < |acts| ==> !ByReaper(acts[i])
    ensures Lonely(Run(a, workers, acts).value)
  {
    if |acts| == 0 {
      TallyZero(Start(a, workers).workers, Busy<P>);
    } else {
      var front := acts[..|acts| - 1];
      OneShardLonely(a, workers, front);
      StepLonely(a, Run(a, workers, front).value, acts[|acts| - 1]);
    }
  }

  /** With one shard failure is final even if the counter expires. */
  lemma {:induction false} OneShardFails<P>(a: Analysis<P>, workers: nat, acts: seq<Action>, early: nat)
    requires a.shards <= 1 && early <= |acts| && Run(a, workers, acts).Some? && forall i :: 0 <= i < |acts| ==> !ByReaper(acts[i])
    ensures Run(a, workers, acts[..early]).Some?
    ensures Run(a, workers, acts[..early]).value.status == Failed ==> Run(a, workers, acts).value.status == Failed
  {
    if early == |acts| {
      assert acts[..early] == acts;
    } else {
      var front := acts[..|acts| - 1];
      assert front[..early] == acts[..early];
      OneShardFails(a, workers, front, early);
      OneShardLonely(a, workers, front);
      StepLonely(a, Run(a, workers, front).value, acts[|acts| - 1]);
    }
  }

  // --- Failed, then done ---

  /** Worker 1 raises and records the failure. */
  lemma RaiseAndFail<P>(faults: set<Fault>, a: Analysis<P>, acts: seq<Action>, s: State<P>) returns (longer: seq<Action>, t: State<P>)
    requires Leads(faults, a, acts, s) && Exception in faults && |s.workers| == 2
    requires !s.workers[1].Idle? && !s.workers[1].Claiming? && !s.workers[1].Failing?
    ensures Leads(faults, a, longer, t)
    ensures t.status == Failed && |t.workers| == 2 && t.workers[0] == s.workers[0] && t.saves == s.saves
  {
    var phase := s.workers[1];
    var raised := Put(s, 1, Failing(phase.job, CauseOf(phase)));
    longer := Go(faults, a, acts, s, Raise(1), raised);
    t := Put(Abandon(raised.(status := Failed), raised.workers[1]), 1, Idle);
    longer := Go(faults, a, longer, raised, RecordFailure(1), t);
  }

  /** Worker 0, which was about to save, saves and finishes. */
  lemma SaveAndFinish<P>(faults: set<Fault>, a: Analysis<P>, acts: seq<Action>, s: State<P>) returns (longer: seq<Action>, t: State<P>)
    requires Leads(faults, a, acts, s) && |s.workers| == 2 && s.workers[0].Saving?
    ensures Leads(faults, a, longer, t) && t.status == Done && |longer| >= |acts| && longer[..|acts|] == acts
  {
    var phase := s.workers[0];
    var saved := Put(s.(saves := s.saves + [phase.parts]), 0, Finishing(phase.job));
    var middle := Go(faults, a, acts, s, SaveAnomalies(0), saved);
    t := Put(saved.(status := Done), 0, Dropping(phase.job));
    longer := Go(faults, a, middle, saved, Finish(0), t);
  }

  /** A run that fails and then is done, with no faults but the named ones. */
  ghost predicate Undone<P>(faults: set<Fault>, a: Analysis<P>, acts: seq<Action>, early: nat) {
    && early <= |acts| && (forall i :: 0 <= i < |acts| ==> Allowed(faults, acts[i]))
    && Run(a, 2, acts[..early]).Some? && Run(a, 2, acts[..early]).value.status == Failed
    && Run(a, 2, acts).Some? && Run(a, 2, acts).value.status == Done
  }

  /** One worker is about to save while the other fails: the analysis ends done. */
  lemma FailThenFinish<P>(faults: set<Fault>, a: Analysis<P>, acts: seq<Action>, s: State<P>) returns (longer: seq<Action>, early: nat)
    requires Leads(faults, a, acts, s) && Exception in faults && |s.workers| == 2 && s.workers[0].Saving?
    requires !s.workers[1].Idle? && !s.workers[1].Claiming? && !s.workers[1].Failing?
    ensures Undone(faults, a, longer, early)
  {
    var failed, t, done;
    failed, t := RaiseAndFail(faults, a, acts, s);
    longer, done := SaveAndFinish(faults, a, failed, t);
    early := |failed|;
    RunIsExec(a, 2, failed);
    RunIsExec(a, 2, longer);
  }

  lemma MoreFaults<P>(few: set<Fault>, many: set<Fault>, a: Analysis<P>, acts: seq<Action>, s: State<P>)
    requires Leads(few, a, acts, s) && few <= many
    ensures Leads(many, a, acts, s)
  {}

  /** With an expired counter and two shards or more there are two reduces, and one can fail while the other is about to save. */
  lemma ExpiryUndoesFailure<P>(a: Analysis<P>) returns (acts: seq<Action>, early: nat)
    requires a.shards >= 2
    ensures Undone({CounterExpiry, Exception}, a, acts, early)
  {
    var faults, job := {CounterExpiry, Exception}, ReduceJob(a.shards);
    var s, s1, s2;
    acts, s := EveryCountPushes(a, a.shards);
    MoreFaults({CounterExpiry}, faults, a, acts, s);
    FetchedAre(s.partials, AllSlices(a));
    assert s.queue == seq(a.shards, _ => job);
    acts, s1 := TakeAndFetch(faults, a, acts, s, 0, job, AllSlices(a));
    acts, s2 := TakeReduce(faults, a, acts, s1, 1, job);
    acts, early := FailThenFinish(faults, a, acts, s2);
  }

  /** After a reaper pass the worker of the last shard can fail while the reaper's job is about to be reduced. */
  lemma ReaperUndoesFailure<P>(a: Analysis<P>) returns (acts: seq<Action>, early: nat)
    requires a.shards > 0
    ensures Undone({ReaperPass, Exception}, a, acts, early)
  {
    var faults := {ReaperPass, Exception};
    var s, s1, s2;
    acts, s := ReaperHazard.ReapOnce(a);
    MoreFaults({ReaperPass}, faults, a, acts, s);
    acts, s1 := CountOff(faults, a, acts, s, 0, REAPER_JOB);
    FetchedAre(s1.partials, [a.slice(0, 10_000_000)]);
    assert s1.queue == [ReduceJob(1)];
    acts, s2 := TakeAndFetch(faults, a, acts, s1, 0, ReduceJob(1), [a.slice(0, 10_000_000)]);
    acts, early := FailThenFinish(faults, a, acts, s2);
  }

  // --- The exact condition ---

  ghost predicate Stays<P>(a: Analysis<P>, workers: nat, acts: seq<Action>, early: nat) {
    Run(a, workers, acts).Some? && (forall i :: 0 <= i < |acts| ==> !ByReaper(acts[i]))
      && early <= |acts| && Run(a, workers, acts[..early]).Some? && Run(a, workers, acts[..early]).value.status == Failed
    ==> Run(a, workers, acts).value.status == Failed
  }

  /** In every run without the reaper, counter expiry included, an analysis that has failed stays failed. */
  ghost predicate FailureStays<P>(a: Analysis<P>) {
    forall workers: nat, acts, early: nat :: Stays(a, workers, acts, early)
  }

  /** Failure stays failure, counter expiry or not, if and only if there is at most one shard. */
  lemma FailureStaysIff<P>(a: Analysis<P>)
    ensures FailureStays(a) <==> a.shards <= 1
  {
    if a.shards <= 1 {
      forall workers: nat, acts, early: nat ensures Stays(a, workers, acts, early) {
        if Run(a, workers, acts).Some? && early <= |acts| && forall i :: 0 <= i < |acts| ==> !ByReaper(acts[i]) {
          OneShardFails(a, workers, acts, early);
        }
      }
    } else {
      var acts, early := ExpiryUndoesFailure(a);
      assert !Stays(a, 2, acts, early);
    }
  }
}
