/** What the model is shown, and how its answer becomes saved findings: the packet that is cut to size, the opaque
    candidate ids, and the mapping back to real candidates. */
module Reporting {
  import opened Common
  import opened Candidates
  import opened Wire
  import opened Figures

  const MAX_PACKET_CHARS := 14_000
  const MAX_LABEL := 120

  /** The handle the model sees for candidate `n`. */
  function Id(n: nat): string {
    "c" + Digits(n)
  }

  lemma IdsDiffer(a: nat, b: nat)
    requires Id(a) == Id(b)
    ensures a == b
  {
    DigitsParse(a);
    DigitsParse(b);
    assert Id(a)[1..] == Digits(a) && Id(b)[1..] == Digits(b);
  }

  /** The id names candidate `n`: the letter c and the number in base ten. */
  ghost predicate Named(id: string, n: nat) {
    |id| > 0 && id[0] == 'c' && IsDecimal(id[1..], n)
  }

  lemma NamedIff(id: string, n: nat)
    ensures Named(id, n) <==> id == Id(n)
  {
    if |id| > 0 {
      DecimalIff(id[1..], n);
      assert id == [id[0]] + id[1..];
    }
    assert Id(n)[1..] == Digits(n);
  }

  // --- The packet ---

  /** A candidate as rendered; `samples` are raw log lines. */
  datatype Shown = Shown(id: string, candidate: Candidate, samples: seq<string>)

  function Show(candidates: seq<Candidate>, sample: Candidate -> seq<string>): seq<Shown> {
    seq(|candidates|, n requires 0 <= n < |candidates| => Shown(Id(n), candidates[n], sample(candidates[n])))
  }

  function Bare(s: Shown): Shown {
    s.(samples := [])
  }

  predicate AnySamples(shown: seq<Shown>) {
    exists i :: 0 <= i < |shown| && shown[i].samples != []
  }

  /** The first `n` candidates without their samples. */
  function BareFirst(all: seq<Shown>, n: nat): seq<Shown>
    requires n <= |all|
  {
    MapSeq(all[..n], Bare)
  }

  /** Every candidate in order under its id, with its samples. */
  ghost predicate ShownFully(shown: seq<Shown>, candidates: seq<Candidate>, sample: Candidate -> seq<string>) {
    && |shown| == |candidates|
    && forall i :: 0 <= i < |shown| ==>
      Named(shown[i].id, i) && shown[i].candidate == candidates[i] && shown[i].samples == sample(candidates[i])
  }

  /** The first candidates in order under their ids, without samples. */
  ghost predicate ShownBarely(shown: seq<Shown>, candidates: seq<Candidate>) {
    && |shown| <= |candidates|
    && forall i :: 0 <= i < |shown| ==> Named(shown[i].id, i) && shown[i].candidate == candidates[i] && shown[i].samples == []
  }

  lemma ShownIff(shown: seq<Shown>, candidates: seq<Candidate>, sample: Candidate -> seq<string>)
    ensures ShownFully(shown, candidates, sample) <==> shown == Show(candidates, sample)
    ensures ShownBarely(shown, candidates) <==> |shown| <= |candidates| && shown == BareFirst(Show(candidates, sample), |shown|)
  {
    hide Named, Id;
    forall i: nat | i < |shown| ensures Named(shown[i].id, i) <==> shown[i].id == Id(i) {
      NamedIff(shown[i].id, i);
    }
  }

  /** As much as fits 14,000 characters: everything if that does, else the longest list without samples that does. */
  ghost predicate FittingMost(candidates: seq<Candidate>, sample: Candidate -> seq<string>, render: seq<Shown> -> string, shown: seq<Shown>) {
    && (ShownFully(shown, candidates, sample) || ShownBarely(shown, candidates))
    && (|render(shown)| <= 14_000 || shown == [])
    && (forall full :: ShownFully(full, candidates, sample) && |render(full)| <= 14_000 ==> shown == full)
    && (forall more :: ShownBarely(more, candidates) && |more| == |shown| + 1 ==> |render(more)| > 14_000)
  }

  lemma FitsMost(candidates: seq<Candidate>, sample: Candidate -> seq<string>, render: seq<Shown> -> string, shown: seq<Shown>)
    requires |shown| <= |candidates| && (|render(shown)| <= MAX_PACKET_CHARS || shown == [])
    requires shown == Show(candidates, sample) || shown == BareFirst(Show(candidates, sample), |shown|)
    requires shown != Show(candidates, sample) ==> |render(Show(candidates, sample))| > MAX_PACKET_CHARS
    requires |shown| < |candidates| ==> |render(BareFirst(Show(candidates, sample), |shown| + 1))| > MAX_PACKET_CHARS
    ensures FittingMost(candidates, sample, render, shown)
  {
    hide ShownFully, ShownBarely, BareFirst;
    var all := Show(candidates, sample);
    ShownIff(shown, candidates, sample);
    forall full | ShownFully(full, candidates, sample) ensures full == all {
      ShownIff(full, candidates, sample);
    }
    forall more | ShownBarely(more, candidates) && |more| == |shown| + 1
      ensures |more| <= |candidates| && more == BareFirst(all, |shown| + 1)
    {
      ShownIff(more, candidates, sample);
    }
  }

  lemma Unsampled(all: seq<Shown>)
    requires !AnySamples(all)
    ensures BareFirst(all, |all|) == all
  {
    assert all[..|all|] == all;
    forall i | 0 <= i < |all| ensures Bare(all[i]) == all[i] {}
  }

  /** Render, shedding all samples first and then candidates from the end, until the text fits. `render` is the JSON
      text of the packet, overview and baseline included. What is shown is as much as fits: everything, or everything
      without samples, or the longest prefix without samples. */
  method BuildPacket(candidates: seq<Candidate>, sample: Candidate -> seq<string>, render: seq<Shown> -> string)
    returns (text: string, shown: seq<Shown>)
    ensures text == render(shown) && (|text| <= MAX_PACKET_CHARS || shown == [])
    ensures FittingMost(candidates, sample, render, shown)
    ensures |shown| <= |candidates|
    ensures forall i :: 0 <= i < |shown| ==> shown[i].id == Id(i) && shown[i].candidate == candidates[i]
    ensures shown == Show(candidates, sample) || shown == BareFirst(Show(candidates, sample), |shown|)
    ensures shown != Show(candidates, sample) ==> |render(Show(candidates, sample))| > MAX_PACKET_CHARS
    ensures |shown| < |candidates| ==> |render(BareFirst(Show(candidates, sample), |shown| + 1))| > MAX_PACKET_CHARS
  {
    hide FittingMost;
    ghost var all := Show(candidates, sample);
    shown := Show(candidates, sample);
    text := render(shown);
    while |text| > MAX_PACKET_CHARS && |shown| > 0
      invariant text == render(shown) && |shown| <= |all|
      invariant shown == all || (shown == BareFirst(all, |shown|) && !AnySamples(shown))
      invariant shown != all ==> |render(all)| > MAX_PACKET_CHARS
      invariant |shown| < |all| ==> |render(BareFirst(all, |shown| + 1))| > MAX_PACKET_CHARS
      decreases |shown|, AnySamples(shown)
    {
      if AnySamples(shown) {
        assert all[..|all|] == all;
        shown := MapSeq(shown, Bare);
      } else {
        ghost var was := shown;
        if shown == all {
          Unsampled(all);
        }
        assert was == BareFirst(all, |was|);
        shown := shown[..|shown| - 1];
        assert shown == BareFirst(all, |shown|);
        assert BareFirst(all, |shown| + 1) == was;
      }
      text := render(shown);
    }
    FitsMost(candidates, sample, render, shown);
  }

  // --- Reports ---

  datatype Severity = Critical | High | Medium | Low

  datatype Item = Item(candidateId: string, title: string, severity: Severity, confidence: real,
                       explanation: string, recommendation: string)

  datatype Finding = Finding(
    kind: string, severity: Severity, urgency: string, actionRequired: bool, actionLabel: Option<string>,
    confidence: real, explanation: string, recommendation: string, entryIds: seq<int>)

  function SeverityFor(score: real): Severity {
    if score >= 0.9 then Critical else if score >= 0.7 then High else if score >= 0.5 then Medium else Low
  }

  function UrgencyFor(kind: string): string {
    if kind in ["data_exfil", "beaconing"] then "immediate"
    else if kind in ["volume_spike", "off_hours"] then "today"
    else if kind == "blocked_threat" then "monitor"
    else "this_week"
  }

  /** Which of `n` candidates an id names. */
  function IndexOf(id: string, n: nat): (index: Option<nat>)
    ensures index.Some? ==> index.value < n && Id(index.value) == id
    ensures index.None? ==> forall k: nat :: k < n ==> Id(k) != id
  {
    if n == 0 then None else if Id(n - 1) == id then Some(n - 1) else IndexOf(id, n - 1)
  }

  function FindingFrom(item: Item, c: Candidate): Finding {
    var urgency := UrgencyFor(c.kind);
    var action := item.recommendation[..Min(|item.recommendation|, MAX_LABEL)];
    Finding(c.kind, item.severity, urgency, urgency in ["immediate", "today"], if action == "" then None else Some(action),
            item.confidence, item.explanation, item.recommendation, c.entryIds)
  }

  /** What is saved of an item about a candidate: its kind and rows are the candidate's, what is urgent depends on the kind
      alone, the rest is the report's, and the label is what 120 characters hold of the recommendation. */
  ghost predicate Saves(row: Finding, item: Item, c: Candidate) {
    && row.kind == c.kind && row.entryIds == c.entryIds
    && row.severity == item.severity && row.confidence == item.confidence
    && row.explanation == item.explanation && row.recommendation == item.recommendation
    && row.urgency == (match c.kind
                       case "data_exfil" => "immediate"
                       case "beaconing" => "immediate"
                       case "volume_spike" => "today"
                       case "off_hours" => "today"
                       case "blocked_threat" => "monitor"
                       case _ => "this_week")
    && (row.actionRequired <==> c.kind == "data_exfil" || c.kind == "beaconing" || c.kind == "volume_spike" || c.kind == "off_hours")
    && (row.actionLabel.None? <==> item.recommendation == "")
    && (row.actionLabel.Some? ==> row.actionLabel.value <= item.recommendation
                                  && (row.actionLabel.value == item.recommendation || |row.actionLabel.value| == 120 < |item.recommendation|))
  }

  lemma FindingSaves(item: Item, c: Candidate)
    ensures Saves(FindingFrom(item, c), item, c)
  {
    assert item.recommendation[..|item.recommendation|] == item.recommendation;
  }

  ghost predicate Known(id: string, candidates: seq<Candidate>) {
    exists k :: 0 <= k < |candidates| && Named(id, k)
  }

  ghost predicate SavedAbout(row: Finding, item: Item, candidates: seq<Candidate>) {
    exists k :: 0 <= k < |candidates| && Named(item.candidateId, k) && Saves(row, item, candidates[k])
  }

  /** The items that name a candidate, in order, each saved as a finding about it; the others are dropped. */
  ghost predicate MapsBack(items: seq<Item>, candidates: seq<Candidate>, rows: seq<Finding>) {
    if |items| == 0 then rows == []
    else
      var front, item := items[..|items| - 1], items[|items| - 1];
      if Known(item.candidateId, candidates) then
        |rows| > 0 && SavedAbout(rows[|rows| - 1], item, candidates) && MapsBack(front, candidates, rows[..|rows| - 1])
      else MapsBack(front, candidates, rows)
  }

  /** The finding an item stands for; none if its id names no candidate. */
  function Resolved(candidates: seq<Candidate>): Item -> Option<Finding> {
    (item: Item) =>
      var index := IndexOf(item.candidateId, |candidates|);
      if index.None? then None else Some(FindingFrom(item, candidates[index.value]))
  }

  lemma ResolvedSaves(item: Item, candidates: seq<Candidate>)
    ensures Known(item.candidateId, candidates) <==> Resolved(candidates)(item).Some?
    ensures Resolved(candidates)(item).Some? ==> SavedAbout(Resolved(candidates)(item).value, item, candidates)
  {
    hide Saves, Named, FindingFrom, Id;
    var index := IndexOf(item.candidateId, |candidates|);
    forall k: nat | k < |candidates| ensures Named(item.candidateId, k) <==> item.candidateId == Id(k) {
      NamedIff(item.candidateId, k);
    }
    if index.Some? {
      FindingSaves(item, candidates[index.value]);
      assert Named(item.candidateId, index.value);
    }
  }

  lemma {:induction false} ResolvedMapBack(items: seq<Item>, candidates: seq<Candidate>)
    ensures MapsBack(items, candidates, Collect(items, Resolved(candidates)))
  {
    if |items| > 0 {
      hide Known, SavedAbout, Resolved;
      var front, item := items[..|items| - 1], items[|items| - 1];
      var rows, before := Collect(items, Resolved(candidates)), Collect(front, Resolved(candidates));
      ResolvedMapBack(front, candidates);
      ResolvedSaves(item, candidates);
      assert rows == before + OptionSeq(Resolved(candidates)(item));
      if Resolved(candidates)(item).Some? {
        assert rows[..|rows| - 1] == before;
      } else {
        assert rows == before;
      }
    }
  }

  /** Map the model's items back onto real candidates, in order, dropping what does not resolve. */
  method ToRows(items: seq<Item>, candidates: seq<Candidate>) returns (rows: seq<Finding>)
    ensures MapsBack(items, candidates, rows)
    ensures rows == Collect(items, Resolved(candidates))
  {
    hide MapsBack, FindingFrom, Collect, IndexOf;
    ResolvedMapBack(items, candidates);
    rows := [];
    for i := 0 to |items|
      invariant rows == Collect(items[..i], Resolved(candidates))
    {
      assert items[..i + 1] == items[..i] + [items[i]];
      CollectSnoc(items[..i], items[i], Resolved(candidates));
      var index := IndexOf(items[i].candidateId, |candidates|);
      if index.Some? {
        rows := rows + [FindingFrom(items[i], candidates[index.value])];
      }
    }
    assert items[..|items|] == items;
  }

  /** Whatever the report, every saved row carries the kind and the rows of a real candidate. */
  lemma RowsAreReal(items: seq<Item>, candidates: seq<Candidate>, row: Finding)
    requires row in Collect(items, Resolved(candidates))
    ensures exists k :: 0 <= k < |candidates| && row.kind == candidates[k].kind && row.entryIds == candidates[k].entryIds
  {
    CollectMember(items, Resolved(candidates), row);
    var i :| 0 <= i < |items| && Resolved(candidates)(items[i]) == Some(row);
    var k := IndexOf(items[i].candidateId, |candidates|).value;
    assert row.kind == candidates[k].kind;
  }

  function IfKnown(n: nat): Item -> Option<Item> {
    (item: Item) => if IndexOf(item.candidateId, n).Some? then Some(item) else None
  }

  /** A filter that only drops what a later pass drops anyway makes no difference to it. */
  lemma {:induction false} CollectThrough<A, B>(xs: seq<A>, filter: A -> Option<A>, f: A -> Option<B>)
    requires forall i :: 0 <= i < |xs| ==> filter(xs[i]) == Some(xs[i]) || (filter(xs[i]).None? && f(xs[i]).None?)
    ensures Collect(Collect(xs, filter), f) == Collect(xs, f)
  {
    if |xs| > 0 {
      var front, x := xs[..|xs| - 1], xs[|xs| - 1];
      CollectThrough(front, filter, f);
      if filter(x).Some? {
        CollectSnoc(Collect(front, filter), x, f);
      } else {
        assert Collect(front, filter) + [] == Collect(front, filter);
      }
    }
  }

  /** Dropping unknown ids beforehand changes nothing that is saved. */
  lemma FilterIsRedundant(items: seq<Item>, candidates: seq<Candidate>)
    ensures Collect(Collect(items, IfKnown(|candidates|)), Resolved(candidates)) == Collect(items, Resolved(candidates))
  {
    CollectThrough(items, IfKnown(|candidates|), Resolved(candidates));
  }

  function FallbackItem(candidates: seq<Candidate>, explain: Candidate -> string): nat -> Item {
    (n: nat) =>
      if n >= |candidates| then Item("", "", Low, 0.0, "", "")
      else Item(Id(n), candidates[n].title, SeverityFor(candidates[n].score), Round3(candidates[n].score),
                explain(candidates[n]), "Review the highlighted entries.")
  }

  /** The deterministic report: one item a candidate, in order. */
  function FallbackReport(candidates: seq<Candidate>, explain: Candidate -> string): seq<Item> {
    seq(|candidates|, n requires 0 <= n < |candidates| => FallbackItem(candidates, explain)(n))
  }

  /** The fallback's finding about a candidate: its score to three digits, graded at 0.5, 0.7 and 0.9. */
  ghost predicate StandsFor(row: Finding, c: Candidate, explanation: string) {
    && row.kind == c.kind && row.entryIds == c.entryIds && row.explanation == explanation && IsRounded(c.score, row.confidence)
    && (row.severity.Critical? <==> c.score >= 0.9)
    && (row.severity.High? <==> 0.7 <= c.score < 0.9)
    && (row.severity.Medium? <==> 0.5 <= c.score < 0.7)
    && row.recommendation == "Review the highlighted entries."
  }

  lemma FallbackResolves(candidates: seq<Candidate>, explain: Candidate -> string, n: nat)
    requires n < |candidates|
    ensures Resolved(candidates)(FallbackItem(candidates, explain)(n))
         == Some(FindingFrom(FallbackItem(candidates, explain)(n), candidates[n]))
    ensures StandsFor(FindingFrom(FallbackItem(candidates, explain)(n), candidates[n]), candidates[n], explain(candidates[n]))
  {
    hide IsRounded, Round3;
    var index := IndexOf(Id(n), |candidates|);
    IdsDiffer(index.value, n);
    RoundedIff(candidates[n].score, Round3(candidates[n].score));
  }

  /** The fallback report maps back to one row a candidate, in order, each with its own kind, rows and rounded score. */
  lemma FallbackMapsBack(candidates: seq<Candidate>, explain: Candidate -> string)
    ensures var rows := Collect(FallbackReport(candidates, explain), Resolved(candidates));
      |rows| == |candidates| && forall i :: 0 <= i < |rows| ==> StandsFor(rows[i], candidates[i], explain(candidates[i]))
  {
    var items := FallbackReport(candidates, explain);
    forall i | 0 <= i < |items|
      ensures Resolved(candidates)(items[i]).Some?
              && StandsFor(Resolved(candidates)(items[i]).value, candidates[i], explain(candidates[i]))
    {
      FallbackResolves(candidates, explain, i);
    }
    AllCollected(items, Resolved(candidates));
  }
}
