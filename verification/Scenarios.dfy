/** Building runs step by step: two workers on one analysis, and no faults but the ones named. */
module Scenarios {
  import opened Common
  import opened Protocol
  import opened Progress
  import opened Worker

  datatype Fault = ReaperPass | CounterExpiry | Exception

  predicate Allowed(faults: set<Fault>, act: Action) {
    || Faultless(act) || (ReaperPass in faults && ByReaper(act)) || (CounterExpiry in faults && act.ExpireCounter?)
    || (Exception in faults && act.Raise?)
  }

  /** `acts` runs from the start to `s`, and nothing but `faults` goes wrong on the way. */
  ghost predicate Leads<P>(faults: set<Fault>, a: Analysis<P>, acts: seq<Action>, s: State<P>) {
    Exec(a, Start(a, 2), acts) == Some(s) && forall i :: 0 <= i < |acts| ==> Allowed(faults, acts[i])
  }

  lemma Go<P>(faults: set<Fault>, a: Analysis<P>, acts: seq<Action>, s: State<P>, act: Action, t: State<P>) returns (longer: seq<Action>)
    requires Leads(faults, a, acts, s) && Allowed(faults, act) && Step(a, s, act) == Some(t)
    ensures Leads(faults, a, longer, t) && longer == acts + [act]
  {
    longer := acts + [act];
    ExecSnoc(a, Start(a, 2), acts, act);
  }

  /** The state after worker `w` has taken the oldest job. */
  function Taken<P>(s: State<P>, w: nat, phase: Phase<P>): State<P>
    requires w < |s.workers| && |s.queue| > 0
  {
    Put(s.(queue := s.queue[..|s.queue| - 1], status := Running), w, phase)
  }

  /** A free worker takes the oldest job, a map, and gets as far as holding its aggregate. */
  lemma TakeAndMap<P>(faults: set<Fault>, a: Analysis<P>, acts: seq<Action>, s: State<P>, w: nat, job: Job)
    returns (longer: seq<Action>, t: State<P>)
    requires Leads(faults, a, acts, s) && w < |s.workers| && s.workers[w].Idle?
    requires |s.queue| > 0 && s.queue[|s.queue| - 1] == job && job.MapJob? && Claimable(s.status)
    ensures Leads(faults, a, longer, t) && t == Taken(s, w, Storing(job, a.slice(job.offset, job.limit)))
  {
    var s1 := Put(s.(queue := s.queue[..|s.queue| - 1]), w, Claiming(job));
    longer := Go(faults, a, acts, s, Reserve(w), s1);
    var s2 := Put(s1.(status := Running), w, Loading(job));
    longer := Go(faults, a, longer, s1, Claim(w), s2);
    t := Put(s2, w, Storing(job, a.slice(job.offset, job.limit)));
    longer := Go(faults, a, longer, s2, LoadShard(w), t);
  }

  /** The state after worker `w` has stored what it holds under its shard. */
  function Stored<P>(s: State<P>, w: nat, job: Job, payload: P): State<P>
    requires w < |s.workers| && job.MapJob?
  {
    Put(s.(partials := s.partials[job.shard := payload], stored := s.stored + {job.shard}), w, Counting(job))
  }

  lemma Store<P>(faults: set<Fault>, a: Analysis<P>, acts: seq<Action>, s: State<P>, w: nat, job: Job, payload: P)
    returns (longer: seq<Action>, t: State<P>)
    requires Leads(faults, a, acts, s) && w < |s.workers| && s.workers[w] == Storing(job, payload) && job.MapJob?
    ensures Leads(faults, a, longer, t) && t == Stored(s, w, job, payload)
  {
    t := Stored(s, w, job, payload);
    longer := Go(faults, a, acts, s, PutPartial(w), t);
  }

  function Remaining(counter: Option<int>): int {
    (if counter.Some? then counter.value else 0) - 1
  }

  /** The state after worker `w` has counted its shard, and pushed a reduce if it read zero or less. */
  function CountedOff<P>(s: State<P>, w: nat, job: Job): State<P>
    requires w < |s.workers| && job.MapJob?
  {
    var left := Remaining(s.counter);
    var t := Put(s.(counter := Some(left), counted := s.counted + {job.shard}), w, Idle);
    if left <= 0 then t.(queue := [ReduceJob(job.shardCount)] + s.queue, issued := s.issued + 1) else t
  }

  lemma CountOff<P>(faults: set<Fault>, a: Analysis<P>, acts: seq<Action>, s: State<P>, w: nat, job: Job)
    returns (longer: seq<Action>, t: State<P>)
    requires Leads(faults, a, acts, s) && w < |s.workers| && s.workers[w] == Counting(job) && job.MapJob?
    ensures Leads(faults, a, longer, t) && t == CountedOff(s, w, job)
  {
    var left := Remaining(s.counter);
    t := CountedOff(s, w, job);
    if left > 0 {
      longer := Go(faults, a, acts, s, CountDown(w), t);
    } else {
      var closed := Put(s.(counter := Some(left), counted := s.counted + {job.shard}), w, Enqueueing(job));
      assert s.workers[w := Enqueueing(job)][w := Idle] == s.workers[w := Idle];
      longer := Go(faults, a, acts, s, CountDown(w), closed);
      longer := Go(faults, a, longer, closed, EnqueueReduce(w), t);
    }
  }

  lemma TakeReduce<P>(faults: set<Fault>, a: Analysis<P>, acts: seq<Action>, s: State<P>, w: nat, job: Job)
    returns (longer: seq<Action>, t: State<P>)
    requires Leads(faults, a, acts, s) && w < |s.workers| && s.workers[w].Idle? && Claimable(s.status)
    requires |s.queue| > 0 && s.queue[|s.queue| - 1] == job && job.ReduceJob?
    ensures Leads(faults, a, longer, t) && t == Taken(s, w, Fetching(job))
  {
    var s1 := Put(s.(queue := s.queue[..|s.queue| - 1]), w, Claiming(job));
    longer := Go(faults, a, acts, s, Reserve(w), s1);
    t := Put(s1.(status := Running), w, Fetching(job));
    longer := Go(faults, a, longer, s1, Claim(w), t);
  }

  /** A free worker takes a reduce whose partials are all there, and is about to save. */
  lemma TakeAndFetch<P>(faults: set<Fault>, a: Analysis<P>, acts: seq<Action>, s: State<P>, w: nat, job: Job, parts: seq<P>)
    returns (longer: seq<Action>, t: State<P>)
    requires Leads(faults, a, acts, s) && w < |s.workers| && s.workers[w].Idle? && Claimable(s.status)
    requires |s.queue| > 0 && s.queue[|s.queue| - 1] == job && job.ReduceJob? && Fetched(s.partials, job.shardCount) == Some(parts)
    ensures Leads(faults, a, longer, t) && t == Taken(s, w, Saving(job, parts))
  {
    var s1;
    longer, s1 := TakeReduce(faults, a, acts, s, w, job);
    t := Put(s1, w, Saving(job, parts));
    longer := Go(faults, a, longer, s1, FetchPartials(w), t);
  }

  /** And saves. */
  lemma TakeAndReduce<P>(faults: set<Fault>, a: Analysis<P>, acts: seq<Action>, s: State<P>, w: nat, n: nat, parts: seq<P>)
    returns (longer: seq<Action>, t: State<P>)
    requires Leads(faults, a, acts, s) && w < |s.workers| && s.workers[w].Idle? && Claimable(s.status)
    requires s.queue == [ReduceJob(n)] && Fetched(s.partials, n) == Some(parts)
    ensures Leads(faults, a, longer, t) && t.saves == s.saves + [parts]
  {
    var s1;
    longer, s1 := TakeAndFetch(faults, a, acts, s, w, ReduceJob(n), parts);
    t := Put(s1.(saves := s1.saves + [parts]), w, Finishing(ReduceJob(n)));
    longer := Go(faults, a, longer, s1, SaveAnomalies(w), t);
  }

  lemma FetchedAre<P>(partials: map<nat, P>, parts: seq<P>)
    requires forall k: nat :: k < |parts| ==> k in partials && partials[k] == parts[k]
    ensures Fetched(partials, |parts|) == Some(parts)
  {
    assert Fetched(partials, |parts|).value == parts;
  }

  /** The jobs still waiting after the first `k`. */
  lemma NextPublished<P>(a: Analysis<P>, k: nat)
    requires k < a.shards
    ensures var left := Published(a)[..a.shards - k];
      left[|left| - 1] == JobOf(a, k) && left[..|left| - 1] == Published(a)[..a.shards - k - 1]
  {}

  /** One shard from the queue to its count, by worker 0. */
  lemma DoShard<P>(faults: set<Fault>, a: Analysis<P>, acts: seq<Action>, s: State<P>, job: Job)
    returns (longer: seq<Action>, t: State<P>)
    requires Leads(faults, a, acts, s) && s.workers == [Idle, Idle] && Claimable(s.status)
    requires |s.queue| > 0 && s.queue[|s.queue| - 1] == job && job.MapJob?
    ensures Leads(faults, a, longer, t) && t.workers == [Idle, Idle] && t.status == Running
    ensures t.partials == s.partials[job.shard := a.slice(job.offset, job.limit)] && t.counter == Some(Remaining(s.counter))
    ensures t.saves == s.saves && t.reaping == s.reaping && t.counted == s.counted + {job.shard}
    ensures var rest := s.queue[..|s.queue| - 1];
      if Remaining(s.counter) <= 0 then t.queue == [ReduceJob(job.shardCount)] + rest && t.issued == s.issued + 1
      else t.queue == rest && t.issued == s.issued
  {
    var payload := a.slice(job.offset, job.limit);
    var s1, s2;
    longer, s1 := TakeAndMap(faults, a, acts, s, 0, job);
    longer, s2 := Store(faults, a, longer, s1, 0, job, payload);
    longer, t := CountOff(faults, a, longer, s2, 0, job);
  }
}
