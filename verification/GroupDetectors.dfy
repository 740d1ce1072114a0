/** The four detectors that judge one group at a time: transfers, check-ins, threats and rare hosts. */
module GroupDetectors {
  import opened Common
  import opened Dictionaries
  import opened LogEntries
  import opened Aggregates
  import opened Statistics
  import opened Candidates

  const MIN_BEACON_HITS := 12

  type Pair = (string, string)

  /** Applies a judgement to every group of a dictionary. */
  function Over<K(==), V>(groups: map<K, V>, absent: V, judge: (K, V) -> Option<Candidate>): K -> Option<Candidate> {
    k => judge(k, Get(groups, k, absent))
  }

  lemma OverAt<K(!new), V(!new)>(groups: map<K, V>, absent: V, judge: (K, V) -> Option<Candidate>, k: K)
    ensures Over(groups, absent, judge)(k) == judge(k, Get(groups, k, absent))
    ensures k in groups.Keys ==> Over(groups, absent, judge)(k) == judge(k, groups[k])
  {
    if k in groups.Keys {
      assert Get(groups, k, absent) == groups[k];
    }
  }

  /** What a detector finds in a dictionary, in one fixed order. */
  ghost function Found<K(!new), V>(groups: map<K, V>, absent: V, judge: (K, V) -> Option<Candidate>): seq<Candidate> {
    Collect(Listing(groups.Keys), Over(groups, absent, judge))
  }

  function MinReal(x: real, y: real): real {
    if y < x then y else x
  }

  /** A quotient. Python raises when `y` is zero; no aggregate of log entries leads there. */
  function Ratio(x: real, y: real): real {
    if y == 0.0 then 0.0 else x / y
  }

  // --- Outbound transfers ---

  function JudgeTransfer(m: Maths, logs: seq<real>, k: Pair, g: ByteStats): Option<Candidate> {
    if |g.logValues| == 0 || |logs| == 0 then None
    else
      var peak := Largest(g.logValues);
      var score := ScoreFromZ(RobustZ(m, peak, logs), 3.0, 7.0);
      if score <= 0.0 then None
      else Some(Candidate(
        "data_exfil",
        "Large outbound transfer: " + k.0 + " \U{2192} " + k.1,
        score,
        g.ids,
        TransferEvidence(k.0, k.1, g.totalBytes, |g.ids|, m.antilog(peak), m.antilog(Median(logs)))))
  }

  function TransferJudge(m: Maths, logs: seq<real>): (Pair, ByteStats) -> Option<Candidate> {
    (k, g) => JudgeTransfer(m, logs, k, g)
  }

  ghost function Transfers(m: Maths, p: Aggregate): seq<Candidate> {
    if |p.reqByteLogs| < 10 then [] else Found(p.userHost, NO_BYTES, TransferJudge(m, p.reqByteLogs))
  }

  /** Flows whose largest upload stands out among all uploads, on a logarithmic scale. */
  method ScoreDataExfil(m: Maths, p: Aggregate) returns (out: seq<Candidate>)
    ensures Ranks(out, Transfers(m, p))
  {
    if |p.reqByteLogs| < 10 {
      TopRanks([], Transfers(m, p));
      return Top([]);
    }
    var found := Scan(p.userHost.Keys, Over(p.userHost, NO_BYTES, TransferJudge(m, p.reqByteLogs)));
    TopRanks(found, Transfers(m, p));
    out := Top(found);
  }

  // --- Check-ins ---

  type Hit = (real, int)

  predicate HitLe(a: Hit, b: Hit) {
    a.0 < b.0 || (a.0 == b.0 && a.1 <= b.1)
  }

  function TimeOf(h: Hit): real {
    h.0
  }

  function HitId(h: Hit): int {
    h.1
  }

  function Gaps(times: seq<real>): seq<real>
    requires |times| > 0
  {
    seq(|times| - 1, i requires 0 <= i < |times| - 1 => times[i + 1] - times[i])
  }

  function Positive(gap: real): Option<real> {
    if gap > 0.0 then Some(gap) else None
  }

  /** Judges a flow on its hits in time order. */
  function BeaconFrom(m: Maths, k: Pair, ordered: seq<Hit>): Option<Candidate> {
    if |ordered| < MIN_BEACON_HITS then None
    else
      var times := MapSeq(ordered, TimeOf);
      var gaps := Collect(Gaps(times), Positive);
      if |gaps| < MIN_BEACON_HITS - 1 then None
      else
        var mean, stdev := Mean(gaps), PStdev(m, gaps);
        if !(5.0 <= mean <= 86400.0) then None
        else
          var regularity := 1.0 - stdev / mean;
          if regularity < 0.80 then None
          else Some(Candidate(
            "beaconing",
            "Periodic check-in: " + k.0 + " \U{2192} " + k.1,
            MinReal(1.0, (regularity - 0.80) / 0.18),
            MapSeq(ordered, HitId),
            BeaconEvidence(k.0, k.1, |ordered|, mean, stdev, regularity, times[0], times[|times| - 1])))
  }

  function JudgeBeacon(m: Maths, k: Pair, hits: seq<Hit>): Option<Candidate> {
    BeaconFrom(m, k, Sort(hits, HitLe))
  }

  function BeaconJudge(m: Maths): (Pair, seq<Hit>) -> Option<Candidate> {
    (k, hits) => JudgeBeacon(m, k, hits)
  }

  ghost function Beacons(m: Maths, p: Aggregate): seq<Candidate> {
    Found(p.ipHostTimes, [], BeaconJudge(m))
  }

  /** Flows whose requests keep an even pace. */
  method ScoreBeaconing(m: Maths, p: Aggregate) returns (out: seq<Candidate>)
    ensures Ranks(out, Beacons(m, p))
  {
    var found := Scan(p.ipHostTimes.Keys, Over(p.ipHostTimes, [], BeaconJudge(m)));
    TopRanks(found, Beacons(m, p));
    out := Top(found);
  }

  // --- Threats the proxy named ---

  function JudgeThreat(k: Pair, g: ThreatStats): Option<Candidate> {
    Some(Candidate(
      "blocked_threat",
      k.0 + " at " + k.1,
      0.95,
      g.ids,
      ThreatEvidence(k.0, k.1, |g.ids|, SortedStrings(g.users), SortedStrings(g.actions))))
  }

  ghost function Threats(p: Aggregate): seq<Candidate> {
    Found(p.threats, NO_THREAT, JudgeThreat)
  }

  method ScoreBlockedThreats(p: Aggregate) returns (out: seq<Candidate>)
    ensures Ranks(out, Threats(p))
  {
    var found := Scan(p.threats.Keys, Over(p.threats, NO_THREAT, JudgeThreat));
    TopRanks(found, Threats(p));
    out := Top(found);
  }

  // --- Rare destinations ---

  function HitCount(hosts: map<string, HostStats>): string -> Option<int> {
    host => Some(|Get(hosts, host, NO_HOST).ids|)
  }

  /** Requests to the host with the most of them. */
  ghost function Busiest(hosts: map<string, HostStats>): int {
    var counts := Collect(Listing(hosts.Keys), HitCount(hosts));
    if |counts| == 0 then 0 else LargestInt(counts)
  }

  function RareScore(m: Maths, busiest: int, hits: nat): real {
    Round3(MinReal(1.0, Ratio(m.log10(Ratio(busiest as real, hits as real) + 1.0), m.log10(busiest as real + 1.0))))
  }

  function JudgeRare(m: Maths, busiest: int, host: string, g: HostStats): Option<Candidate> {
    if |g.users| != 1 || |g.ids| > 3 then None
    else
      var urls := SortedStrings(g.urls);
      Some(Candidate(
        "rare_destination",
        "Rarely-seen destination: " + host,
        RareScore(m, busiest, |g.ids|),
        g.ids,
        RareEvidence(host, |g.ids|, |g.users|, Some(SortedStrings(g.users)[0]), busiest, urls[..Min(|urls|, 3)])))
  }

  function RareJudge(m: Maths, busiest: int): (string, HostStats) -> Option<Candidate> {
    (host, g) => JudgeRare(m, busiest, host, g)
  }

  ghost function RareHosts(m: Maths, p: Aggregate): seq<Candidate> {
    if |p.hosts| < 5 then [] else Found(p.hosts, NO_HOST, RareJudge(m, Busiest(p.hosts)))
  }

  /** Hosts that one user alone visited, three times at most. */
  method ScoreRareDestination(m: Maths, p: Aggregate) returns (out: seq<Candidate>)
    ensures Ranks(out, RareHosts(m, p))
  {
    if |p.hosts| < 5 {
      TopRanks([], RareHosts(m, p));
      return Top([]);
    }
    var counts := Scan(p.hosts.Keys, HitCount(p.hosts));
    ghost var whole := Collect(Listing(p.hosts.Keys), HitCount(p.hosts));
    AllCollected(Listing(p.hosts.Keys), HitCount(p.hosts));
    EnumerationLength(Listing(p.hosts.Keys), p.hosts.Keys);
    LargestIntPermutes(whole, counts);
    var found := Scan(p.hosts.Keys, Over(p.hosts, NO_HOST, RareJudge(m, LargestInt(counts))));
    TopRanks(found, RareHosts(m, p));
    out := Top(found);
  }
}
