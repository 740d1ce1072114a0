/** Reported patterns, their ranking, and when two rankings agree. */
module Candidates {
  import opened Common

  const MIN_SCORE := 0.30
  const MAX_PER_DETECTOR := 5

  /** The figures behind a candidate. Display rounding is left out: it is a function of these values. */
  datatype Evidence =
    | BurstEvidence(clientIp: string, peak: int, medianPerMinute: real, minutes: int,
                    windowStart: int, windowEnd: int, total: int)
    | TransferEvidence(username: string, host: string, totalBytes: int, requests: int, largest: int, median: int)
    | BeaconEvidence(clientIp: string, host: string, requests: int, meanGap: real, gapStdev: real, regularity: real,
                     firstSeen: real, lastSeen: real)
    | ThreatEvidence(threat: string, host: string, hits: int, users: seq<string>, actions: seq<string>)
    | RareEvidence(host: string, hits: int, distinctUsers: int, soleUser: Option<string>, busiest: int, urls: seq<string>)
    | OffHoursEvidence(actor: string, requests: int, hours: seq<int>, medianVolume: real, hoursVolume: real,
                       hosts: seq<string>)

  datatype Candidate = Candidate(kind: string, title: string, score: real, entryIds: seq<int>, evidence: Evidence)

  function Keep(c: Candidate): Option<Candidate> {
    if c.score >= MIN_SCORE then Some(c) else None
  }

  predicate ByScoreTitle(a: Candidate, b: Candidate) {
    a.score > b.score || (a.score == b.score && StrLe(a.title, b.title))
  }

  predicate ByRank(a: Candidate, b: Candidate) {
    || a.score > b.score
    || (a.score == b.score && a.kind != b.kind && StrLe(a.kind, b.kind))
    || (a.score == b.score && a.kind == b.kind && StrLe(a.title, b.title))
  }

  /** What one detector reports: candidates worth showing, best first, at most five. */
  function Top(cs: seq<Candidate>): seq<Candidate> {
    var ranked := Sort(Collect(cs, Keep), ByScoreTitle);
    ranked[..Min(|ranked|, MAX_PER_DETECTOR)]
  }

  /** Python's round to three digits: nearest, ties to even. */
  function Round3(x: real): real {
    var scaled := x * 1000.0;
    var below := scaled.Floor;
    var over := scaled - below as real;
    var nearest := if over < 0.5 || (over == 0.5 && below % 2 == 0) then below else below + 1;
    nearest as real / 1000.0
  }

  lemma ByScoreTitlePreorder()
    ensures Preorder(ByScoreTitle)
  {
    StrLeOrder();
  }

  lemma ByRankPreorder()
    ensures Preorder(ByRank)
  {
    StrLeOrder();
    forall a, b, c | ByRank(a, b) && ByRank(b, c) ensures ByRank(a, c) {
      if a.score == b.score == c.score {
        if a.kind == b.kind == c.kind {
          StrLeTransitive(a.title, b.title, c.title);
        } else if a.kind != b.kind && b.kind != c.kind {
          StrLeTransitive(a.kind, b.kind, c.kind);
          StrLeTotal(a.kind, b.kind);
        }
      }
    }
  }

  // --- Comparing reports ---

  /** A relabelling that leaves alone everything the rankings look at. */
  ghost predicate KeepsRank(fp: Candidate -> Candidate) {
    forall c :: fp(c).kind == c.kind && fp(c).title == c.title && fp(c).score == c.score
  }

  /** What must survive sharding: everything, with the cited rows as a sorted list. */
  function Fingerprint(c: Candidate): Candidate {
    c.(entryIds := Sort(c.entryIds, IntLe))
  }

  /** The fingerprint without the sample of hosts an off-hours finding shows. */
  function LooseFingerprint(c: Candidate): Candidate {
    var f := Fingerprint(c);
    if f.evidence.OffHoursEvidence? then f.(evidence := f.evidence.(hosts := [])) else f
  }

  lemma FingerprintsKeepRank()
    ensures KeepsRank(Fingerprint) && KeepsRank(LooseFingerprint)
  {}

  /** Agreement under the full fingerprint implies agreement under the loose one. */
  lemma LooseFollows(a: seq<Candidate>, b: seq<Candidate>)
    requires MapSeq(a, Fingerprint) == MapSeq(b, Fingerprint)
    ensures MapSeq(a, LooseFingerprint) == MapSeq(b, LooseFingerprint)
  {
    assert |a| == |MapSeq(a, Fingerprint)| == |b|;
    forall i | 0 <= i < |a| ensures LooseFingerprint(a[i]) == LooseFingerprint(b[i]) {
      assert MapSeq(a, Fingerprint)[i] == Fingerprint(a[i]);
      assert MapSeq(b, Fingerprint)[i] == Fingerprint(b[i]);
    }
  }

  ghost predicate DistinctTitles(cs: seq<Candidate>) {
    forall i, j :: 0 <= i < j < |cs| ==> cs[i].title != cs[j].title
  }

  lemma TitleIdentifies(cs: seq<Candidate>, x: Candidate, y: Candidate)
    requires DistinctTitles(cs) && x in Collect(cs, Keep) && y in Collect(cs, Keep) && x.title == y.title
    ensures x == y
  {
    CollectMember(cs, Keep, x);
    CollectMember(cs, Keep, y);
    var i :| 0 <= i < |cs| && Keep(cs[i]) == Some(x);
    var j :| 0 <= j < |cs| && Keep(cs[j]) == Some(y);
    assert cs[i] == x && cs[j] == y;
  }

  // --- What ranking promises, stated without sorting ---

  ghost function Kept(cs: seq<Candidate>): multiset<Candidate> {
    multiset(Collect(cs, Keep))
  }

  /** `out` is a best-first list of at most five of the candidates worth showing, and no candidate left
      out ranks strictly above one shown. */
  ghost predicate Ranks(out: seq<Candidate>, cs: seq<Candidate>) {
    && Sorted(out, ByScoreTitle)
    && multiset(out) <= Kept(cs)
    && |out| == Min(|Kept(cs)|, MAX_PER_DETECTOR)
    && forall x, y :: x in out && y in Kept(cs) - multiset(out) ==> ByScoreTitle(x, y)
  }

  /** Whatever order the candidates were found in, `Top` ranks them. */
  lemma TopRanks(found: seq<Candidate>, cs: seq<Candidate>)
    requires multiset(found) == multiset(cs)
    ensures Ranks(Top(found), cs)
  {
    var kept := Collect(found, Keep);
    var ranked := Sort(kept, ByScoreTitle);
    CollectPermutes(found, cs, Keep);
    ByScoreTitlePreorder();
    SortSorted(kept, ByScoreTitle);
    SortedSplit(ranked, Min(|ranked|, MAX_PER_DETECTOR), ByScoreTitle);
    assert Kept(cs) == multiset(ranked);
    assert |Kept(cs)| == |ranked|;
  }

  lemma {:induction false} Listed<T>(bag: multiset<T>) returns (xs: seq<T>)
    ensures multiset(xs) == bag
  {
    if bag == multiset{} {
      xs := [];
    } else {
      var x :| x in bag;
      var rest := Listed(bag - multiset{x});
      xs := rest + [x];
    }
  }

  /** A ranking extends to a sorted list of everything kept. */
  lemma RankedPrefix(out: seq<Candidate>, cs: seq<Candidate>) returns (full: seq<Candidate>)
    requires Ranks(out, cs)
    ensures Sorted(full, ByScoreTitle) && multiset(full) == Kept(cs) && out <= full
  {
    hide Kept;
    var left := Listed(Kept(cs) - multiset(out));
    var rest := Sort(left, ByScoreTitle);
    ByScoreTitlePreorder();
    SortSorted(left, ByScoreTitle);
    full := out + rest;
    forall i, j | 0 <= i < j < |full| ensures ByScoreTitle(full[i], full[j]) {
      if i < |out| && j >= |out| {
        assert full[j] in multiset(rest);
      }
    }
  }

  lemma KeptUntied(cs: seq<Candidate>)
    requires DistinctTitles(cs)
    ensures NoTies(Kept(cs), ByScoreTitle)
  {
    forall c, d | c in Kept(cs) && d in Kept(cs) && ByScoreTitle(c, d) && ByScoreTitle(d, c) ensures c == d {
      StrLeTotal(c.title, d.title);
      TitleIdentifies(cs, c, d);
    }
  }

  /** Distinct titles leave nothing to choose: the ranking is unique. */
  lemma RanksUnique(a: seq<Candidate>, b: seq<Candidate>, cs: seq<Candidate>)
    requires Ranks(a, cs) && Ranks(b, cs) && DistinctTitles(cs)
    ensures a == b
  {
    hide NoTies;
    var x := RankedPrefix(a, cs);
    var y := RankedPrefix(b, cs);
    KeptUntied(cs);
    SortedUnique(x, y, ByScoreTitle);
    assert a == x[..|a|] && b == y[..|b|];
  }

  lemma {:induction false} KeepMaps(cs: seq<Candidate>, fp: Candidate -> Candidate)
    requires KeepsRank(fp)
    ensures Collect(MapSeq(cs, fp), Keep) == MapSeq(Collect(cs, Keep), fp)
  {
    if |cs| > 0 {
      var n := |cs| - 1;
      KeepMaps(cs[..n], fp);
      MapSeqSnoc(cs[..n], cs[n], fp);
      assert cs == cs[..n] + [cs[n]];
      CollectSnoc(MapSeq(cs[..n], fp), fp(cs[n]), Keep);
      if Keep(cs[n]).Some? {
        MapSeqSnoc(Collect(cs[..n], Keep), cs[n], fp);
      }
    }
  }

  lemma LeftOut(out: seq<Candidate>, cs: seq<Candidate>) returns (rest: seq<Candidate>)
    requires Ranks(out, cs)
    ensures Kept(cs) == multiset(out + rest) && |out| == Min(|out| + |rest|, MAX_PER_DETECTOR)
    ensures forall x, y :: x in out && y in multiset(rest) ==> ByScoreTitle(x, y)
  {
    rest := Listed(Kept(cs) - multiset(out));
    assert multiset(out + rest) == multiset(out) + multiset(rest);
    assert |multiset(out + rest)| == |out + rest|;
  }

  lemma MappedKept(out: seq<Candidate>, rest: seq<Candidate>, cs: seq<Candidate>, fp: Candidate -> Candidate)
    requires KeepsRank(fp) && Kept(cs) == multiset(out + rest)
    ensures Kept(MapSeq(cs, fp)) == multiset(MapSeq(out, fp) + MapSeq(rest, fp))
  {
    KeepMaps(cs, fp);
    MapSeqPermutes(Collect(cs, Keep), out + rest, fp);
    MapSeqAppend(out, rest, fp);
  }

  lemma RanksFrom(out: seq<Candidate>, rest: seq<Candidate>, cs: seq<Candidate>)
    requires Sorted(out, ByScoreTitle) && Kept(cs) == multiset(out + rest)
    requires |out| == Min(|out| + |rest|, MAX_PER_DETECTOR)
    requires forall x, y :: x in out && y in multiset(rest) ==> ByScoreTitle(x, y)
    ensures Ranks(out, cs)
  {
    assert multiset(out + rest) == multiset(out) + multiset(rest);
    assert Kept(cs) - multiset(out) == multiset(rest);
    assert |multiset(out + rest)| == |out + rest|;
  }

  lemma MappedBound(out: seq<Candidate>, rest: seq<Candidate>, fp: Candidate -> Candidate)
    requires KeepsRank(fp)
    requires forall x, y :: x in out && y in multiset(rest) ==> ByScoreTitle(x, y)
    ensures forall x, y :: x in MapSeq(out, fp) && y in multiset(MapSeq(rest, fp)) ==> ByScoreTitle(x, y)
  {
    forall x, y | x in MapSeq(out, fp) && y in multiset(MapSeq(rest, fp)) ensures ByScoreTitle(x, y) {
      var i :| 0 <= i < |out| && fp(out[i]) == x;
      assert y in MapSeq(rest, fp);
      var j :| 0 <= j < |rest| && fp(rest[j]) == y;
      assert rest[j] in multiset(rest);
      assert ByScoreTitle(out[i], rest[j]);
    }
  }

  /** Relabelling what the ranking does not look at keeps a ranking a ranking. */
  lemma RanksMaps(out: seq<Candidate>, cs: seq<Candidate>, fp: Candidate -> Candidate)
    requires Ranks(out, cs) && KeepsRank(fp)
    ensures Ranks(MapSeq(out, fp), MapSeq(cs, fp))
  {
    var rest := LeftOut(out, cs);
    MappedKept(out, rest, cs, fp);
    MappedBound(out, rest, fp);
    RanksFrom(MapSeq(out, fp), MapSeq(rest, fp), MapSeq(cs, fp));
  }

  /** `out` is a detector's report on the candidates `cs`, up to the relabelling `fp`. */
  ghost predicate Reports(fp: Candidate -> Candidate, out: seq<Candidate>, cs: seq<Candidate>) {
    Ranks(MapSeq(out, fp), MapSeq(cs, fp))
  }

  lemma MappedTitles(cs: seq<Candidate>, fp: Candidate -> Candidate)
    requires KeepsRank(fp) && DistinctTitles(cs)
    ensures DistinctTitles(MapSeq(cs, fp))
  {}

  /** Two reports on lists of candidates that agree up to `fp` agree up to `fp`. */
  lemma ReportsAgree(fp: Candidate -> Candidate, out1: seq<Candidate>, cs1: seq<Candidate>, out2: seq<Candidate>, cs2: seq<Candidate>)
    requires KeepsRank(fp) && DistinctTitles(cs1)
    requires Reports(fp, out1, cs1) && Reports(fp, out2, cs2)
    requires MapSeq(cs1, fp) == MapSeq(cs2, fp)
    ensures MapSeq(out1, fp) == MapSeq(out2, fp)
  {
    MappedTitles(cs1, fp);
    RanksUnique(MapSeq(out1, fp), MapSeq(out2, fp), MapSeq(cs1, fp));
  }

  predicate SameUpTo(fp: Candidate -> Candidate, a: Option<Candidate>, b: Option<Candidate>) {
    match (a, b)
    case (None, None) => true
    case (Some(x), Some(y)) => fp(x) == fp(y)
    case _ => false
  }

  lemma {:induction false} CollectMaps<K>(ks: seq<K>, f: K -> Option<Candidate>, g: K -> Option<Candidate>, fp: Candidate -> Candidate)
    requires forall i :: 0 <= i < |ks| ==> SameUpTo(fp, f(ks[i]), g(ks[i]))
    ensures MapSeq(Collect(ks, f), fp) == MapSeq(Collect(ks, g), fp)
  {
    if |ks| > 0 {
      CollectMaps(ks[..|ks| - 1], f, g, fp);
    }
  }

  /** Finding the candidates of `f` reports those of any `g` that agrees with `f` on every key. */
  lemma FoundReports<K>(fp: Candidate -> Candidate, found: seq<Candidate>, ks: seq<K>, f: K -> Option<Candidate>, g: K -> Option<Candidate>)
    requires KeepsRank(fp) && multiset(found) == multiset(Collect(ks, f))
    requires forall i :: 0 <= i < |ks| ==> SameUpTo(fp, f(ks[i]), g(ks[i]))
    ensures Reports(fp, Top(found), Collect(ks, g))
  {
    CollectMaps(ks, f, g, fp);
    TopRanks(found, Collect(ks, f));
    RanksMaps(Top(found), Collect(ks, f), fp);
  }
}
