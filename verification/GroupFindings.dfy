/** What the detectors that judge one group at a time report, in terms of the rows: uploads, check-ins, threats and rare hosts. */
module GroupFindings {
  import opened Common
  import opened Dictionaries
  import opened LogEntries
  import opened Aggregates
  import opened Statistics
  import opened Candidates
  import opened GroupDetectors
  import opened Readings
  import opened Figures
  import opened ScoreBounds

  // --- Reports, in general ---

  ghost predicate Shows(out: seq<Candidate>, c: Candidate) {
    c in out || (|out| == 5 && forall x :: x in out ==> x.score > c.score || (x.score == c.score && StrLe(x.title, c.title)))
  }

  /** `out` reports what `finds` finds: at most five findings of at least 0.30, best first and none twice, and of the others
      none that ranks above one shown. */
  ghost predicate Reported(out: seq<Candidate>, finds: Candidate -> bool) {
    && NoDup(out) && |out| <= 5
    && (forall i, j :: 0 <= i < j < |out| ==> out[i].score > out[j].score || (out[i].score == out[j].score && StrLe(out[i].title, out[j].title)))
    && (forall c :: c in out ==> finds(c) && c.score >= 0.30)
    && (forall c :: finds(c) && c.score >= 0.30 ==> Shows(out, c))
  }

  lemma Twice<T>(xs: seq<T>, i: nat, j: nat)
    requires i < j < |xs| && xs[i] == xs[j]
    ensures multiset(xs)[xs[i]] >= 2
  {
    assert xs == xs[..j] + [xs[j]] + xs[j + 1..];
    assert xs[i] in xs[..j];
  }

  lemma SubBagNoDup<T>(xs: seq<T>, ys: seq<T>)
    requires multiset(xs) <= multiset(ys) && forall x :: multiset(ys)[x] <= 1
    ensures NoDup(xs)
  {
    forall i, j | 0 <= i < j < |xs| && xs[i] == xs[j] ensures multiset(xs)[xs[i]] >= 2 {
      Twice(xs, i, j);
    }
  }

  lemma KeptIff(cs: seq<Candidate>, c: Candidate)
    ensures c in Kept(cs) <==> c in cs && c.score >= 0.30
  {
    CollectMember(cs, Keep, c);
    assert c in Kept(cs) <==> c in Collect(cs, Keep);
    if c in cs && c.score >= 0.30 {
      var i :| 0 <= i < |cs| && cs[i] == c;
      assert Keep(cs[i]) == Some(c);
    }
  }

  lemma KeptSnoc(front: seq<Candidate>, c: Candidate)
    ensures Kept(front + [c]) == Kept(front) + multiset(OptionSeq(Keep(c)))
  {
    hide Collect;
    CollectSnoc(front, c, Keep);
  }

  lemma KeptNone()
    ensures Kept([]) == multiset{}
  {}

  lemma KeepsOne(c: Candidate)
    ensures multiset(OptionSeq(Keep(c))) <= multiset{c}
  {}

  lemma SumsWithin<T>(a: multiset<T>, b: multiset<T>, x: multiset<T>, y: multiset<T>)
    requires a <= b && x <= y
    ensures a + x <= b + y
  {}

  lemma {:induction false} KeptSub(cs: seq<Candidate>)
    ensures Kept(cs) <= multiset(cs)
  {
    hide Kept, Keep, OptionSeq;
    if |cs| == 0 {
      assert cs == [];
      KeptNone();
    } else {
      var front, c := cs[..|cs| - 1], cs[|cs| - 1];
      KeptSub(front);
      KeptSnoc(front, c);
      KeepsOne(c);
      assert cs == front + [c];
      SumsWithin(Kept(front), multiset(front), multiset(OptionSeq(Keep(c))), multiset{c});
    }
  }

  lemma LeftOutShows(out: seq<Candidate>, cs: seq<Candidate>, c: Candidate)
    requires Ranks(out, cs) && c in Kept(cs) && c !in out
    ensures Shows(out, c)
  {
    assert c !in multiset(out);
    assert c in Kept(cs) - multiset(out);
    assert |Kept(cs)| == |multiset(out)| + |Kept(cs) - multiset(out)|;
    assert |multiset(out)| == |out|;
    forall x | x in out ensures x.score > c.score || (x.score == c.score && StrLe(x.title, c.title)) {
      assert ByScoreTitle(x, c);
    }
  }

  /** A ranking of the candidates found reports them. */
  lemma RanksReport(out: seq<Candidate>, cs: seq<Candidate>, finds: Candidate -> bool)
    requires Ranks(out, cs) && NoDup(cs)
    requires forall c :: c in cs <==> finds(c)
    ensures Reported(out, finds)
  {
    KeptSub(cs);
    NoDupCount(cs);
    assert multiset(out) <= multiset(cs);
    SubBagNoDup(out, cs);
    forall c | c in out ensures finds(c) && c.score >= 0.30 {
      assert c in multiset(out);
      KeptIff(cs, c);
    }
    forall c | finds(c) && c.score >= 0.30 ensures Shows(out, c) {
      KeptIff(cs, c);
      if c !in out {
        LeftOutShows(out, cs, c);
      }
    }
    forall i, j | 0 <= i < j < |out|
      ensures out[i].score > out[j].score || (out[i].score == out[j].score && StrLe(out[i].title, out[j].title))
    {
      assert ByScoreTitle(out[i], out[j]);
    }
  }

  lemma {:induction false} CollectNoDup<A(!new), B>(xs: seq<A>, f: A -> Option<B>)
    requires NoDup(xs) && forall x, y :: x in xs && y in xs && f(x).Some? && f(x) == f(y) ==> x == y
    ensures NoDup(Collect(xs, f))
  {
    if |xs| > 0 {
      var front, x := xs[..|xs| - 1], xs[|xs| - 1];
      CollectNoDup(front, f);
      if f(x).Some? {
        forall i | 0 <= i < |front| ensures front[i] in xs && front[i] != x {
          assert xs[i] == front[i];
        }
        CollectMember(front, f, f(x).value);
      }
    }
  }

  lemma FoundMember<K(!new), V(!new)>(groups: map<K, V>, absent: V, judge: (K, V) -> Option<Candidate>, c: Candidate)
    ensures c in Found(groups, absent, judge) <==> exists k :: k in groups && judge(k, groups[k]) == Some(c)
  {
    var ks, f := Listing(groups.Keys), Over(groups, absent, judge);
    CollectMember(ks, f, c);
    if i :| 0 <= i < |ks| && f(ks[i]) == Some(c) {
      assert ks[i] in ks;
      OverAt(groups, absent, judge, ks[i]);
    }
    if k :| k in groups && judge(k, groups[k]) == Some(c) {
      assert k in ks;
      var i :| 0 <= i < |ks| && ks[i] == k;
      OverAt(groups, absent, judge, k);
      assert f(ks[i]) == Some(c);
    }
  }

  /** If `spec` says of each key what is found under it, the candidates found are those of `spec`; and no candidate is found
      twice if it tells the key it was found under. */
  lemma FoundIff<K(!new), V(!new)>(groups: map<K, V>, absent: V, judge: (K, V) -> Option<Candidate>, spec: (K, Candidate) -> bool)
    requires forall k, c :: spec(k, c) <==> k in groups && judge(k, groups[k]) == Some(c)
    requires forall k, l, c :: spec(k, c) && spec(l, c) ==> k == l
    ensures NoDup(Found(groups, absent, judge))
    ensures forall c :: c in Found(groups, absent, judge) <==> exists k :: spec(k, c)
  {
    var ks, f := Listing(groups.Keys), Over(groups, absent, judge);
    forall c ensures c in Found(groups, absent, judge) <==> exists k :: spec(k, c) {
      FoundMember(groups, absent, judge, c);
      if k :| k in groups && judge(k, groups[k]) == Some(c) {
        assert spec(k, c);
      }
    }
    forall x, y | x in ks && y in ks && f(x).Some? && f(x) == f(y) ensures x == y {
      OverAt(groups, absent, judge, x);
      OverAt(groups, absent, judge, y);
      assert spec(x, f(x).value) && spec(y, f(x).value);
    }
    CollectNoDup(ks, f);
  }

  // --- Lists of names ---

  /** The names a field holds in the rows that belong, in alphabetical order. */
  ghost predicate ListsNames(names: seq<string>, es: seq<LogEntry>, belongs: LogEntry -> bool, field: LogEntry -> Option<string>) {
    && NoDup(names) && Sorted(names, StrLe)
    && forall name :: name in names <==> exists i :: 0 <= i < |es| && belongs(es[i]) && Names(field(es[i]), name)
  }

  lemma SortedOnce(xs: seq<string>, s: set<string>)
    requires Enumerates(xs, s) && Sorted(xs, StrLe)
    ensures xs == SortedStrings(s)
  {
    StrLeOrder();
    EnumerationsPermute(xs, SortedStrings(s), s);
    SortedUnique(xs, SortedStrings(s), StrLe);
  }

  lemma ListsNamesIff(xs: seq<string>, names: set<string>, es: seq<LogEntry>, belongs: LogEntry -> bool, field: LogEntry -> Option<string>)
    requires NamesIn(names, es, belongs, field)
    ensures ListsNames(xs, es, belongs, field) <==> xs == SortedStrings(names)
  {
    if ListsNames(xs, es, belongs, field) {
      SortedOnce(xs, names);
    }
  }

  /** One strictly ascending list of a set. */
  lemma OnceAscending(xs: seq<int>, s: set<int>)
    ensures forall i, j :: 0 <= i < j < |SortedInts(s)| ==> SortedInts(s)[i] < SortedInts(s)[j]
    ensures (forall i, j :: 0 <= i < j < |xs| ==> xs[i] < xs[j]) && (forall x :: x in xs <==> x in SortedInts(s)) ==> xs == SortedInts(s)
  {
    var sorted := SortedInts(s);
    forall i, j | 0 <= i < j < |sorted| ensures sorted[i] < sorted[j] {
      assert IntLe(sorted[i], sorted[j]) && sorted[i] != sorted[j];
    }
    if (forall i, j :: 0 <= i < j < |xs| ==> xs[i] < xs[j]) && (forall x :: x in xs <==> x in sorted) {
      IntLeOrder();
      EnumerationsPermute(xs, sorted, s);
      SortedUnique(xs, sorted, IntLe);
    }
  }

  // --- Threats ---

  /** The proxy's verdict on a threat at a host, at fixed confidence, citing every row with that threat and host. */
  ghost predicate ThreatFinding(es: seq<LogEntry>, k: Pair, c: Candidate) {
    var threat, host := k.0, k.1;
    var rows := ThreatRows(threat, host);
    var ids := Through(es, rows, RowId);
    && AnyRow(es, rows)
    && exists users, actions ::
      && ListsNames(users, es, rows, TheUser) && ListsNames(actions, es, rows, TheAction)
      && c == Candidate("blocked_threat", threat + " at " + host, 0.95, ids, ThreatEvidence(threat, host, |ids|, users, actions))
  }

  ghost function ThreatSpec(es: seq<LogEntry>): (Pair, Candidate) -> bool {
    (k, c) => ThreatFinding(es, k, c)
  }

  ghost function FindsThreats(es: seq<LogEntry>): Candidate -> bool {
    c => exists k :: ThreatFinding(es, k, c)
  }

  lemma ThreatIff(p: Aggregate, es: seq<LogEntry>, k: Pair, c: Candidate)
    requires ThreatsRead(p.threats, es)
    ensures ThreatFinding(es, k, c) <==> k in p.threats && JudgeThreat(k, p.threats[k]) == Some(c)
  {
    var rows := ThreatRows(k.0, k.1);
    if (k.0, k.1) in p.threats {
      var g := p.threats[k];
      ListsNamesIff(SortedStrings(g.users), g.users, es, rows, TheUser);
      ListsNamesIff(SortedStrings(g.actions), g.actions, es, rows, TheAction);
      forall xs | ListsNames(xs, es, rows, TheUser) ensures xs == SortedStrings(g.users) {
        ListsNamesIff(xs, g.users, es, rows, TheUser);
      }
      forall xs | ListsNames(xs, es, rows, TheAction) ensures xs == SortedStrings(g.actions) {
        ListsNamesIff(xs, g.actions, es, rows, TheAction);
      }
    }
  }

  lemma ThreatsIff(p: Aggregate, es: seq<LogEntry>)
    requires ThreatsRead(p.threats, es)
    ensures NoDup(Threats(p)) && forall c :: c in Threats(p) <==> FindsThreats(es)(c)
  {
    var spec := ThreatSpec(es);
    forall k, c ensures spec(k, c) <==> k in p.threats && JudgeThreat(k, p.threats[k]) == Some(c) {
      ThreatIff(p, es, k, c);
    }
    FoundIff(p.threats, NO_THREAT, JudgeThreat, spec);
    forall c ensures (exists k :: spec(k, c)) <==> FindsThreats(es)(c) {
      assert forall k :: spec(k, c) <==> ThreatFinding(es, k, c);
    }
  }

  lemma ThreatScore(k: Pair, g: ThreatStats)
    ensures JudgeThreat(k, g).Some? && JudgeThreat(k, g).value.score == 0.95
  {}

  lemma ThreatsCertain(p: Aggregate)
    ensures |Collect(Threats(p), Keep)| == |p.threats|
  {
    hide Collect, Listing, JudgeThreat;
    var ks, f := Listing(p.threats.Keys), Over(p.threats, NO_THREAT, JudgeThreat);
    forall i | 0 <= i < |ks| ensures f(ks[i]).Some? && f(ks[i]).value.score == 0.95 {
      ThreatScore(ks[i], Get(p.threats, ks[i], NO_THREAT));
    }
    AllCollected(ks, f);
    EnumerationLength(ks, p.threats.Keys);
    KeptWhole(Threats(p));
  }

  /** Every threat is reported, with every row that has it, unless more than five were found; then five are. */
  lemma ThreatsReported(p: Aggregate, es: seq<LogEntry>, out: seq<Candidate>)
    requires ThreatsRead(p.threats, es) && Ranks(out, Threats(p))
    ensures Reported(out, FindsThreats(es)) && |out| == Min(|p.threats|, 5)
  {
    ThreatsIff(p, es);
    RanksReport(out, Threats(p), FindsThreats(es));
    ThreatsCertain(p);
  }

  // --- Uploads ---

  /** The finding of an upload: its largest request scores by how many spreads it lies above the median of `all`. */
  ghost predicate TransferBy(m: Maths, all: seq<real>, own: seq<real>, k: Pair, ids: seq<int>, total: int, c: Candidate,
                             peak: real, z: real, score: real, median: real) {
    && peak in own && (forall x :: x in own ==> x <= peak)
    && IsRobustZ(m, peak, all, z) && IsScore(z, 7.0, score) && IsMedian(all, median)
    && c == Candidate("data_exfil", "Large outbound transfer: " + k.0 + " \U{2192} " + k.1, score, ids,
                      TransferEvidence(k.0, k.1, total, |ids|, m.antilog(peak), m.antilog(median)))
  }

  ghost predicate TransferOf(m: Maths, all: seq<real>, own: seq<real>, k: Pair, ids: seq<int>, total: int, c: Candidate) {
    exists peak, z, score, median :: TransferBy(m, all, own, k, ids, total, c, peak, z, score, median)
  }

  /** An upload far above the others on a logarithmic scale. */
  ghost predicate TransferFinding(m: Maths, es: seq<LogEntry>, k: Pair, c: Candidate) {
    var rows := UploadRows(k.0, k.1);
    && AnyRow(es, rows)
    && TransferOf(m, Through(es, Sends, LogSent(m)), Through(es, rows, LogSent(m)), k,
                  Through(es, rows, RowId), Sum(Through(es, rows, Sent)), c)
  }

  ghost function TransferSpec(m: Maths, es: seq<LogEntry>): (Pair, Candidate) -> bool {
    (k, c) => TransferFinding(m, es, k, c)
  }

  /** Nothing is judged before ten requests have sent something. */
  ghost function FindsTransfers(m: Maths, es: seq<LogEntry>): Candidate -> bool {
    c => |Through(es, Sends, LogSent(m))| >= 10 && exists k :: TransferFinding(m, es, k, c)
  }

  lemma PeakIs(own: seq<real>, peak: real)
    requires peak in own && forall x :: x in own ==> x <= peak
    ensures peak == Largest(own)
  {}

  lemma TransferOnly(m: Maths, all: seq<real>, k: Pair, g: ByteStats, c: Candidate)
    requires |all| > 0 && |g.logValues| > 0 && TransferOf(m, all, g.logValues, k, g.ids, g.totalBytes, c)
    ensures JudgeTransfer(m, all, k, g) == Some(c)
  {
    hide IsRobustZ, IsScore, IsMedian, RobustZ, ScoreFromZ, Median;
    var peak, z, score, median :| TransferBy(m, all, g.logValues, k, g.ids, g.totalBytes, c, peak, z, score, median);
    PeakIs(g.logValues, peak);
    RobustZIff(m, peak, all, z);
    ScoreIff(z, 7.0, score);
    ScorePositive(z, 7.0);
    MedianIff(all, median);
  }

  lemma TransferJudged(m: Maths, all: seq<real>, k: Pair, g: ByteStats, c: Candidate)
    requires |all| > 0 && |g.logValues| > 0 && JudgeTransfer(m, all, k, g) == Some(c)
    ensures TransferOf(m, all, g.logValues, k, g.ids, g.totalBytes, c)
  {
    hide IsRobustZ, IsScore, IsMedian, RobustZ, ScoreFromZ, Median;
    var peak := Largest(g.logValues);
    var z := RobustZ(m, peak, all);
    RobustZIff(m, peak, all, z);
    ScorePositive(z, 7.0);
    ScoreIff(z, 7.0, ScoreFromZ(z, 3.0, 7.0));
    MedianIff(all, Median(all));
    assert TransferBy(m, all, g.logValues, k, g.ids, g.totalBytes, c, peak, z, ScoreFromZ(z, 3.0, 7.0), Median(all));
  }

  lemma TransferIff(m: Maths, p: Aggregate, es: seq<LogEntry>, k: Pair, c: Candidate)
    requires UploadsRead(m, p.userHost, es) && |Through(es, Sends, LogSent(m))| >= 10
    ensures TransferFinding(m, es, k, c)
       <==> k in p.userHost && JudgeTransfer(m, Through(es, Sends, LogSent(m)), k, p.userHost[k]) == Some(c)
  {
    hide TransferOf, JudgeTransfer;
    var rows, all := UploadRows(k.0, k.1), Through(es, Sends, LogSent(m));
    if (k.0, k.1) in p.userHost {
      ThroughSome(es, rows, LogSent(m));
      if TransferFinding(m, es, k, c) {
        TransferOnly(m, all, k, p.userHost[k], c);
      }
      if JudgeTransfer(m, all, k, p.userHost[k]) == Some(c) {
        TransferJudged(m, all, k, p.userHost[k], c);
      }
    }
  }

  lemma TransferTells(m: Maths, es: seq<LogEntry>, k: Pair, c: Candidate)
    requires TransferFinding(m, es, k, c)
    ensures c.evidence.TransferEvidence? && (c.evidence.username, c.evidence.host) == k
  {}

  lemma TransfersIff(m: Maths, p: Aggregate, es: seq<LogEntry>)
    requires UploadsRead(m, p.userHost, es) && p.reqByteLogs == Through(es, Sends, LogSent(m))
    ensures NoDup(Transfers(m, p)) && forall c :: c in Transfers(m, p) <==> FindsTransfers(m, es)(c)
  {
    hide JudgeTransfer, TransferOf;
    if |p.reqByteLogs| >= 10 {
      var spec := TransferSpec(m, es);
      forall k, c ensures spec(k, c) <==> k in p.userHost && TransferJudge(m, p.reqByteLogs)(k, p.userHost[k]) == Some(c) {
        TransferIff(m, p, es, k, c);
      }
      forall k, l, c | spec(k, c) && spec(l, c) ensures k == l {
        TransferTells(m, es, k, c);
        TransferTells(m, es, l, c);
      }
      FoundIff(p.userHost, NO_BYTES, TransferJudge(m, p.reqByteLogs), spec);
      forall c ensures (exists k :: spec(k, c)) <==> FindsTransfers(m, es)(c) {
        assert forall k :: spec(k, c) <==> TransferFinding(m, es, k, c);
      }
    }
  }

  /** What is reported of uploads. */
  lemma TransfersReported(m: Maths, p: Aggregate, es: seq<LogEntry>, out: seq<Candidate>)
    requires Reads(m, p, es) && Ranks(out, Transfers(m, p))
    ensures Reported(out, FindsTransfers(m, es))
  {
    hide Reported, FindsTransfers, Transfers, Ranks;
    TransfersIff(m, p, es);
    RanksReport(out, Transfers(m, p), FindsTransfers(m, es));
  }

  // --- Check-ins ---

  ghost predicate InTimeOrder(hits: seq<Hit>) {
    forall i, j :: 0 <= i < j < |hits| ==> hits[i].0 < hits[j].0 || (hits[i].0 == hits[j].0 && hits[i].1 <= hits[j].1)
  }

  /** The pauses between hits, leaving out those of no length. */
  function Pauses(hits: seq<Hit>): seq<real> {
    if |hits| < 2 then []
    else
      var n := |hits| - 1;
      var pause := hits[n].0 - hits[n - 1].0;
      if pause > 0.0 then Pauses(hits[..n]) + [pause] else Pauses(hits[..n])
  }

  /** Confidence in a check-in: regularity from 0.80 up to 0.98 scales to one. */
  ghost predicate ScalesRegularity(regularity: real, score: real) {
    regularity >= 0.80 && if regularity >= 0.98 then score == 1.0 else score * 0.18 == regularity - 0.80
  }

  function RowsOf(hits: seq<Hit>): seq<int> {
    seq(|hits|, i requires 0 <= i < |hits| => hits[i].1)
  }

  /** The finding of a flow's hits: pauses of five seconds to a day on average, and regular: one minus the deviation of the
      pauses as a share of their mean. */
  ghost predicate BeaconBy(m: Maths, flow: seq<Hit>, k: Pair, c: Candidate,
                           hits: seq<Hit>, mean: real, deviation: real, regularity: real, score: real) {
    && multiset(hits) == multiset(flow) && InTimeOrder(hits) && |hits| >= 12 && |Pauses(hits)| >= 11
    && IsMean(Pauses(hits), mean) && IsDeviation(m, Pauses(hits), deviation) && 5.0 <= mean <= 86400.0
    && regularity * mean == mean - deviation && ScalesRegularity(regularity, score)
    && c == Candidate("beaconing", "Periodic check-in: " + k.0 + " \U{2192} " + k.1, score,
                      RowsOf(hits),
                      BeaconEvidence(k.0, k.1, |hits|, mean, deviation, regularity, hits[0].0, hits[|hits| - 1].0))
  }

  ghost predicate BeaconOf(m: Maths, flow: seq<Hit>, k: Pair, c: Candidate) {
    exists hits, mean, deviation, regularity, score :: BeaconBy(m, flow, k, c, hits, mean, deviation, regularity, score)
  }

  ghost predicate BeaconFinding(m: Maths, es: seq<LogEntry>, k: Pair, c: Candidate) {
    AnyRow(es, FlowRows(k.0, k.1)) && BeaconOf(m, Through(es, FlowRows(k.0, k.1), When), k, c)
  }

  ghost function BeaconSpec(m: Maths, es: seq<LogEntry>): (Pair, Candidate) -> bool {
    (k, c) => BeaconFinding(m, es, k, c)
  }

  ghost function FindsBeacons(m: Maths, es: seq<LogEntry>): Candidate -> bool {
    c => exists k :: BeaconFinding(m, es, k, c)
  }

  lemma LastGap(hits: seq<Hit>)
    requires |hits| > 1
    ensures var n := |hits| - 1;
      Gaps(MapSeq(hits, TimeOf)) == Gaps(MapSeq(hits[..n], TimeOf)) + [hits[n].0 - hits[n - 1].0]
  {}

  lemma {:induction false} PausesAre(hits: seq<Hit>)
    requires |hits| > 0
    ensures Collect(Gaps(MapSeq(hits, TimeOf)), Positive) == Pauses(hits)
  {
    if |hits| > 1 {
      hide Collect, Gaps;
      var n := |hits| - 1;
      var pause := hits[n].0 - hits[n - 1].0;
      PausesAre(hits[..n]);
      LastGap(hits);
      CollectSnoc(Gaps(MapSeq(hits[..n], TimeOf)), pause, Positive);
    }
  }

  lemma HitOrder()
    ensures TotalOrder(HitLe)
  {}

  lemma OrderedOnce(hits: seq<Hit>, flow: seq<Hit>)
    ensures multiset(hits) == multiset(flow) && InTimeOrder(hits) <==> hits == Sort(flow, HitLe)
  {
    HitOrder();
    SortSorted(flow, HitLe);
    if multiset(hits) == multiset(flow) && InTimeOrder(hits) {
      assert Sorted(hits, HitLe);
      SortedUnique(hits, Sort(flow, HitLe), HitLe);
    }
    if hits == Sort(flow, HitLe) {
      forall i, j | 0 <= i < j < |hits| ensures hits[i].0 < hits[j].0 || (hits[i].0 == hits[j].0 && hits[i].1 <= hits[j].1) {
        assert HitLe(hits[i], hits[j]);
      }
    }
  }

  lemma RegularityIff(regularity: real, score: real)
    requires regularity >= 0.80
    ensures ScalesRegularity(regularity, score) <==> score == MinReal(1.0, (regularity - 0.80) / 0.18)
  {}

  lemma RegularIs(mean: real, deviation: real, regularity: real)
    requires mean >= 5.0
    ensures regularity * mean == mean - deviation <==> regularity == 1.0 - deviation / mean
  {
    QuotientIff(mean - deviation, mean, regularity);
    assert deviation / mean * mean == deviation;
    assert (1.0 - deviation / mean) * mean == mean - deviation;
    QuotientIff(mean - deviation, mean, 1.0 - deviation / mean);
  }

  lemma RegularAtLeast(regularity: real, score: real)
    requires ScalesRegularity(regularity, score)
    ensures regularity >= 0.80
  {}

  ghost predicate BeaconShape(m: Maths, k: Pair, hits: seq<Hit>, gaps: seq<real>, c: Candidate) {
    && |hits| >= 12 && |gaps| >= 11 && 5.0 <= Mean(gaps) <= 86400.0
    && var regularity := 1.0 - PStdev(m, gaps) / Mean(gaps);
       && regularity >= 0.80
       && c == Candidate("beaconing", "Periodic check-in: " + k.0 + " \U{2192} " + k.1, MinReal(1.0, (regularity - 0.80) / 0.18),
                         MapSeq(hits, HitId),
                         BeaconEvidence(k.0, k.1, |hits|, Mean(gaps), PStdev(m, gaps), regularity, hits[0].0, hits[|hits| - 1].0))
  }

  lemma BeaconUnfolds(m: Maths, k: Pair, hits: seq<Hit>, c: Candidate)
    requires |hits| > 0
    ensures BeaconFrom(m, k, hits) == Some(c) <==> BeaconShape(m, k, hits, Collect(Gaps(MapSeq(hits, TimeOf)), Positive), c)
  {
    hide Mean, PStdev, Gaps, Collect;
  }

  lemma BeaconOnly(m: Maths, flow: seq<Hit>, k: Pair, c: Candidate)
    requires BeaconOf(m, flow, k, c)
    ensures JudgeBeacon(m, k, flow) == Some(c)
  {
    hide IsMean, IsDeviation, Mean, PStdev, Sort, Gaps, ScalesRegularity, BeaconFrom, Collect, MinReal;
    var hits, mean, deviation, regularity, score :| BeaconBy(m, flow, k, c, hits, mean, deviation, regularity, score);
    OrderedOnce(hits, flow);
    PausesAre(hits);
    MeanIff(Pauses(hits), mean);
    DeviationIff(m, Pauses(hits), deviation);
    RegularIs(mean, deviation, regularity);
    RegularAtLeast(regularity, score);
    RegularityIff(regularity, score);
    assert MapSeq(hits, HitId) == RowsOf(hits);
    BeaconUnfolds(m, k, hits, c);
  }

  lemma BeaconJudged(m: Maths, flow: seq<Hit>, k: Pair, c: Candidate)
    requires JudgeBeacon(m, k, flow) == Some(c)
    ensures BeaconOf(m, flow, k, c)
  {
    hide IsMean, IsDeviation, Mean, PStdev, Sort, Gaps, ScalesRegularity, Collect, MinReal;
    var hits: seq<Hit> := Sort(flow, HitLe);
    OrderedOnce(hits, flow);
    BeaconUnfolds(m, k, hits, c);
    hide BeaconFrom;
    PausesAre(hits);
    var mean, deviation := Mean(Pauses(hits)), PStdev(m, Pauses(hits));
    MeanIff(Pauses(hits), mean);
    DeviationIff(m, Pauses(hits), deviation);
    var regularity := 1.0 - deviation / mean;
    RegularIs(mean, deviation, regularity);
    RegularityIff(regularity, c.score);
    assert MapSeq(hits, HitId) == RowsOf(hits);
    assert BeaconBy(m, flow, k, c, hits, mean, deviation, regularity, c.score);
  }

  lemma BeaconIff(m: Maths, p: Aggregate, es: seq<LogEntry>, k: Pair, c: Candidate)
    requires FlowsRead(p.ipHostTimes, es)
    ensures BeaconFinding(m, es, k, c) <==> k in p.ipHostTimes && JudgeBeacon(m, k, p.ipHostTimes[k]) == Some(c)
  {
    hide BeaconOf, JudgeBeacon;
    if (k.0, k.1) in p.ipHostTimes {
      if BeaconFinding(m, es, k, c) {
        BeaconOnly(m, p.ipHostTimes[k], k, c);
      }
      if JudgeBeacon(m, k, p.ipHostTimes[k]) == Some(c) {
        BeaconJudged(m, p.ipHostTimes[k], k, c);
      }
    }
  }

  lemma BeaconTells(m: Maths, es: seq<LogEntry>, k: Pair, c: Candidate)
    requires BeaconFinding(m, es, k, c)
    ensures c.evidence.BeaconEvidence? && (c.evidence.clientIp, c.evidence.host) == k
  {}

  lemma BeaconsIff(m: Maths, p: Aggregate, es: seq<LogEntry>)
    requires FlowsRead(p.ipHostTimes, es)
    ensures NoDup(Beacons(m, p)) && forall c :: c in Beacons(m, p) <==> FindsBeacons(m, es)(c)
  {
    hide JudgeBeacon, BeaconOf;
    var spec := BeaconSpec(m, es);
    forall k, c ensures spec(k, c) <==> k in p.ipHostTimes && BeaconJudge(m)(k, p.ipHostTimes[k]) == Some(c) {
      BeaconIff(m, p, es, k, c);
    }
    forall k, l, c | spec(k, c) && spec(l, c) ensures k == l {
      BeaconTells(m, es, k, c);
      BeaconTells(m, es, l, c);
    }
    FoundIff(p.ipHostTimes, [], BeaconJudge(m), spec);
    forall c ensures (exists k :: spec(k, c)) <==> FindsBeacons(m, es)(c) {
      assert forall k :: spec(k, c) <==> BeaconFinding(m, es, k, c);
    }
  }

  /** What is reported of check-ins. */
  lemma BeaconsReported(m: Maths, p: Aggregate, es: seq<LogEntry>, out: seq<Candidate>)
    requires Reads(m, p, es) && Ranks(out, Beacons(m, p))
    ensures Reported(out, FindsBeacons(m, es))
  {
    hide Reported, FindsBeacons, Beacons, Ranks;
    BeaconsIff(m, p, es);
    RanksReport(out, Beacons(m, p), FindsBeacons(m, es));
  }

  // --- Rare hosts ---

  ghost predicate AllRows(e: LogEntry) {
    true
  }

  /** No host is named by more rows than `busiest`, and one is named by that many. */
  ghost predicate IsBusiest(es: seq<LogEntry>, busiest: int) {
    && (exists host :: AnyRow(es, HostRows(host)) && |Through(es, HostRows(host), RowId)| == busiest)
    && (forall host :: |Through(es, HostRows(host), RowId)| <= busiest)
  }

  /** `x` over `y`, taken as nothing where there is no quotient. */
  ghost predicate IsRatio(x: real, y: real, r: real) {
    if y == 0.0 then r == 0.0 else r * y == x
  }

  ghost predicate RareBy(m: Maths, busiest: int, hits: nat, share: real, ratio: real, score: real) {
    && IsRatio(busiest as real, hits as real, share) && IsRatio(m.log10(share + 1.0), m.log10(busiest as real + 1.0), ratio)
    && IsRounded(if ratio < 1.0 then ratio else 1.0, score)
  }

  /** The more requests the busiest host has for each of this one's, on a logarithmic scale, the surer. */
  ghost predicate IsRarity(m: Maths, busiest: int, hits: nat, score: real) {
    exists share, ratio :: RareBy(m, busiest, hits, share, ratio, score)
  }

  lemma RatioIff(x: real, y: real, r: real)
    ensures IsRatio(x, y, r) <==> r == Ratio(x, y)
  {
    if y != 0.0 {
      QuotientIff(x, y, r);
    }
  }

  lemma RarityIff(m: Maths, busiest: int, hits: nat, score: real)
    ensures IsRarity(m, busiest, hits, score) <==> score == RareScore(m, busiest, hits)
  {
    hide IsRatio, Ratio, IsRounded, Round3;
    var b, n := busiest as real, hits as real;
    var share := Ratio(b, n);
    var ratio := Ratio(m.log10(share + 1.0), m.log10(b + 1.0));
    forall s, r, x ensures RareBy(m, busiest, hits, s, r, x) <==> s == share && r == ratio && x == RareScore(m, busiest, hits) {
      RatioIff(b, n, s);
      RatioIff(m.log10(share + 1.0), m.log10(b + 1.0), r);
      RoundedIff(if ratio < 1.0 then ratio else 1.0, x);
    }
    assert RareBy(m, busiest, hits, share, ratio, RareScore(m, busiest, hits));
  }

  /** A host that one user alone visited, at most three times: the rarer beside the busiest, the surer. All its urls are shown. */
  ghost predicate RareOf(m: Maths, es: seq<LogEntry>, host: string, ids: seq<int>, c: Candidate,
                         user: string, urls: seq<string>, busiest: int, score: real) {
    && ListsNames([user], es, HostRows(host), TheUser) && ListsNames(urls, es, HostRows(host), TheUrl) && IsBusiest(es, busiest)
    && IsRarity(m, busiest, |ids|, score)
    && c == Candidate("rare_destination", "Rarely-seen destination: " + host, score, ids,
                      RareEvidence(host, |ids|, 1, Some(user), busiest, urls))
  }

  ghost predicate RareFinding(m: Maths, es: seq<LogEntry>, host: string, c: Candidate) {
    var ids := Through(es, HostRows(host), RowId);
    && AnyRow(es, HostRows(host)) && |ids| <= 3
    && exists user, urls, busiest, score :: RareOf(m, es, host, ids, c, user, urls, busiest, score)
  }

  ghost function FindsRareHosts(m: Maths, es: seq<LogEntry>): Candidate -> bool {
    c => (exists hosts :: |hosts| >= 5 && NamesIn(hosts, es, AllRows, TheHost)) && exists host :: RareFinding(m, es, host, c)
  }

  function NameOf(field: Option<string>): set<string> {
    if field == None || field == Some("") then {} else {field.value}
  }

  ghost predicate Held(names: set<string>, es: seq<LogEntry>, belongs: LogEntry -> bool, field: LogEntry -> Option<string>) {
    forall name :: name in names ==> exists i :: 0 <= i < |es| && belongs(es[i]) && Names(field(es[i]), name)
  }

  lemma HeldBefore(names: set<string>, es: seq<LogEntry>, belongs: LogEntry -> bool, field: LogEntry -> Option<string>)
    requires |es| > 0 && Held(names, es, belongs, field)
    ensures var e := es[|es| - 1];
      Held(if belongs(e) then names - NameOf(field(e)) else names, es[..|es| - 1], belongs, field)
  {
    var front, e := es[..|es| - 1], es[|es| - 1];
    var rest := if belongs(e) then names - NameOf(field(e)) else names;
    forall name | name in rest ensures exists i :: 0 <= i < |front| && belongs(front[i]) && Names(field(front[i]), name) {
      var i :| 0 <= i < |es| && belongs(es[i]) && Names(field(es[i]), name);
      assert i < |front| && front[i] == es[i];
    }
  }

  /** No more names than rows. */
  lemma {:induction false} NamesFew(names: set<string>, es: seq<LogEntry>, belongs: LogEntry -> bool, field: LogEntry -> Option<string>)
    requires Held(names, es, belongs, field)
    ensures |names| <= |Through(es, belongs, RowId)|
  {
    if |es| > 0 {
      hide Held;
      var front, e := es[..|es| - 1], es[|es| - 1];
      HeldBefore(names, es, belongs, field);
      if belongs(e) {
        var rest, name := names - NameOf(field(e)), NameOf(field(e));
        NamesFew(rest, front, belongs, field);
        SubsetSize(names, rest + name);
        assert |rest + name| <= |rest| + |name|;
      } else {
        NamesFew(names, front, belongs, field);
      }
    } else {
      assert names == {};
    }
  }

  lemma FewUrls(g: HostStats, es: seq<LogEntry>, host: string)
    requires UpToEight(g.urls, es, HostRows(host), TheUrl) && |Through(es, HostRows(host), RowId)| <= 3
    ensures NamesIn(g.urls, es, HostRows(host), TheUrl) && |g.urls| <= 3
  {
    var all :| NamesIn(all, es, HostRows(host), TheUrl) && g.urls <= all && (|all| <= 8 ==> g.urls == all);
    assert Held(all, es, HostRows(host), TheUrl);
    NamesFew(all, es, HostRows(host), TheUrl);
  }

  lemma OneUser(users: set<string>, user: string)
    ensures [user] == SortedStrings(users) ==> |users| == 1 && SortedStrings(users)[0] == user
    ensures |users| == 1 ==> SortedStrings(users) == [SortedStrings(users)[0]]
  {}

  /** The busiest host of a dictionary has the most ids. */
  lemma BusiestOf(hosts: map<string, HostStats>) returns (host: string)
    requires |hosts| > 0
    ensures host in hosts && |hosts[host].ids| == Busiest(hosts)
    ensures forall h :: h in hosts ==> |hosts[h].ids| <= Busiest(hosts)
  {
    hide Collect, Listing;
    var ks, f := Listing(hosts.Keys), HitCount(hosts);
    AllCollected(ks, f);
    EnumerationLength(ks, hosts.Keys);
    var counts := Collect(ks, f);
    var i :| 0 <= i < |counts| && counts[i] == LargestInt(counts);
    host := ks[i];
    assert ks[i] in ks;
    forall h | h in hosts ensures |hosts[h].ids| <= Busiest(hosts) {
      assert h in ks;
      var j :| 0 <= j < |ks| && ks[j] == h;
      assert counts[j] == |hosts[h].ids|;
    }
  }

  lemma BusiestIff(hosts: map<string, HostStats>, es: seq<LogEntry>, b: int)
    requires HostsRead(hosts, es) && |hosts| > 0
    ensures IsBusiest(es, b) <==> b == Busiest(hosts)
  {
    hide Busiest, NamesIn, UpToEight;
    var most := BusiestOf(hosts);
    forall host ensures |Through(es, HostRows(host), RowId)| <= Busiest(hosts) {
      ThroughSome(es, HostRows(host), RowId);
    }
    assert AnyRow(es, HostRows(most)) && |Through(es, HostRows(most), RowId)| == Busiest(hosts);
  }

  ghost predicate RareShape(m: Maths, busiest: int, host: string, g: HostStats, c: Candidate) {
    && |g.users| == 1 && |g.ids| <= 3
    && var urls := SortedStrings(g.urls);
       c == Candidate("rare_destination", "Rarely-seen destination: " + host, RareScore(m, busiest, |g.ids|), g.ids,
                      RareEvidence(host, |g.ids|, 1, Some(SortedStrings(g.users)[0]), busiest, urls[..Min(|urls|, 3)]))
  }

  lemma RareUnfolds(m: Maths, busiest: int, host: string, g: HostStats, c: Candidate)
    ensures JudgeRare(m, busiest, host, g) == Some(c) <==> RareShape(m, busiest, host, g, c)
  {
    hide RareScore;
  }

  lemma RareOnly(m: Maths, p: Aggregate, es: seq<LogEntry>, host: string, c: Candidate)
    requires HostsRead(p.hosts, es) && RareFinding(m, es, host, c)
    ensures host in p.hosts && JudgeRare(m, Busiest(p.hosts), host, p.hosts[host]) == Some(c)
  {
    hide IsBusiest, IsRarity, RareScore, Busiest, ListsNames, NamesIn, UpToEight, AnyRow, JudgeRare;
    var g, ids := p.hosts[host], Through(es, HostRows(host), RowId);
    var user, urls, busiest, score :| RareOf(m, es, host, ids, c, user, urls, busiest, score);
    FewUrls(g, es, host);
    ListsNamesIff([user], g.users, es, HostRows(host), TheUser);
    ListsNamesIff(urls, g.urls, es, HostRows(host), TheUrl);
    OneUser(g.users, user);
    BusiestIff(p.hosts, es, busiest);
    RarityIff(m, busiest, |ids|, score);
    assert urls[..|urls|] == urls;
    RareUnfolds(m, busiest, host, g, c);
  }

  lemma RareJudged(m: Maths, p: Aggregate, es: seq<LogEntry>, host: string, c: Candidate)
    requires HostsRead(p.hosts, es) && host in p.hosts && JudgeRare(m, Busiest(p.hosts), host, p.hosts[host]) == Some(c)
    ensures RareFinding(m, es, host, c)
  {
    hide IsBusiest, IsRarity, RareScore, Busiest, ListsNames, NamesIn, UpToEight, AnyRow, JudgeRare;
    var g, ids := p.hosts[host], Through(es, HostRows(host), RowId);
    var busiest := Busiest(p.hosts);
    RareUnfolds(m, busiest, host, g, c);
    var user, urls := SortedStrings(g.users)[0], SortedStrings(g.urls);
    FewUrls(g, es, host);
    OneUser(g.users, user);
    ListsNamesIff([user], g.users, es, HostRows(host), TheUser);
    ListsNamesIff(urls, g.urls, es, HostRows(host), TheUrl);
    BusiestIff(p.hosts, es, busiest);
    RarityIff(m, busiest, |ids|, c.score);
    assert urls[..|urls|] == urls;
    assert RareOf(m, es, host, ids, c, user, urls, busiest, c.score);
  }

  ghost function RareSpec(m: Maths, es: seq<LogEntry>): (string, Candidate) -> bool {
    (host, c) => RareFinding(m, es, host, c)
  }

  lemma RareTells(m: Maths, es: seq<LogEntry>, host: string, c: Candidate)
    requires RareFinding(m, es, host, c)
    ensures c.evidence.RareEvidence? && c.evidence.host == host
  {}

  lemma HostSeen(es: seq<LogEntry>, name: string)
    ensures AnyRow(es, HostRows(name)) <==> exists i :: 0 <= i < |es| && AllRows(es[i]) && Names(TheHost(es[i]), name)
  {
    if i :| 0 <= i < |es| && Names(TheHost(es[i]), name) {
      assert HostRows(name)(es[i]);
    }
    if i :| 0 <= i < |es| && HostRows(name)(es[i]) {
      assert AllRows(es[i]) && Names(TheHost(es[i]), name);
    }
  }

  lemma SameNames(a: set<string>, b: set<string>, es: seq<LogEntry>, belongs: LogEntry -> bool, field: LogEntry -> Option<string>)
    requires NamesIn(a, es, belongs, field) && NamesIn(b, es, belongs, field)
    ensures a == b
  {}

  lemma HostsSeen(hosts: map<string, HostStats>, es: seq<LogEntry>)
    requires HostsRead(hosts, es)
    ensures |hosts| >= 5 <==> exists names :: |names| >= 5 && NamesIn(names, es, AllRows, TheHost)
  {
    forall name ensures name in hosts.Keys <==> exists i :: 0 <= i < |es| && AllRows(es[i]) && Names(TheHost(es[i]), name) {
      HostSeen(es, name);
    }
    assert NamesIn(hosts.Keys, es, AllRows, TheHost);
    forall names | NamesIn(names, es, AllRows, TheHost) ensures names == hosts.Keys {
      SameNames(names, hosts.Keys, es, AllRows, TheHost);
    }
    assert |hosts.Keys| == |hosts|;
  }

  lemma RareHostsIff(m: Maths, p: Aggregate, es: seq<LogEntry>)
    requires HostsRead(p.hosts, es)
    ensures NoDup(RareHosts(m, p)) && forall c :: c in RareHosts(m, p) <==> FindsRareHosts(m, es)(c)
  {
    hide JudgeRare, RareFinding, Busiest, HostsRead, NamesIn;
    HostsSeen(p.hosts, es);
    if |p.hosts| >= 5 {
      var spec, judge := RareSpec(m, es), RareJudge(m, Busiest(p.hosts));
      forall host, c ensures spec(host, c) <==> host in p.hosts && judge(host, p.hosts[host]) == Some(c) {
        if RareFinding(m, es, host, c) {
          RareOnly(m, p, es, host, c);
        }
        if host in p.hosts && JudgeRare(m, Busiest(p.hosts), host, p.hosts[host]) == Some(c) {
          RareJudged(m, p, es, host, c);
        }
      }
      forall k, l, c | spec(k, c) && spec(l, c) ensures k == l {
        RareTells(m, es, k, c);
        RareTells(m, es, l, c);
      }
      FoundIff(p.hosts, NO_HOST, judge, spec);
      forall c ensures (exists k :: spec(k, c)) <==> FindsRareHosts(m, es)(c) {
        assert forall k :: spec(k, c) <==> RareFinding(m, es, k, c);
      }
    }
  }

  /** What is reported of rare hosts. */
  lemma RareHostsReported(m: Maths, p: Aggregate, es: seq<LogEntry>, out: seq<Candidate>)
    requires Reads(m, p, es) && Ranks(out, RareHosts(m, p))
    ensures Reported(out, FindsRareHosts(m, es))
  {
    hide Reported, FindsRareHosts, RareHosts, Ranks;
    RareHostsIff(m, p, es);
    RanksReport(out, RareHosts(m, p), FindsRareHosts(m, es));
  }
}
