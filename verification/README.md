# Log monitor: a verified model

A Dafny model of a log-analysis service and proofs about it. The service ingests proxy logs, analyses each upload
in shards spread over workers, and shows findings and dashboards. The model follows the worker's Python and the
gateway's Go, function by function; floats are reals, integers are unbounded, and dictionaries are visited in an
arbitrary order, since no result may depend on it; where the order of insertion matters it is modelled beside them.

The parts, each a few modules:

- **Detection** (`LogEntries`, `Aggregates`, `Partials`, `Describing`, `Statistics`, `Candidates`, `VolumeSpikes`,
  `GroupDetectors`, `OffHours`, `Detection`): mapping a shard to partial aggregates, merging partials, and the six
  detectors that score the merged aggregate. `Sharding`, `SameReports` and `Exactness` prove that sharding never
  changes the answer, and `InsertionOrder` that ties between equal titles fall the same way too; `KeptEvidence` says
  exactly when capped evidence survives it, and `ShownHosts` gives an upload whose findings show the split;
  `ScoreBounds`, `LoneBurst` and `Detectability` prove what the scores can be and what the detectors cannot miss;
  `Citations` proves that findings cite existing rows only.
- **Reports in terms of rows** (`Figures`, `Readings`, `GroupFindings`, `BurstFindings`, `HourFindings`,
  `ResultFindings`): the statistics as relations with one solution, the groups of an aggregate read off the fields of
  the rows, and for each detector an account of what there is to find in a log that mentions neither aggregates nor how
  anything is computed. The end result is that an analysis, however it was sharded and whatever happened to its workers,
  reports exactly that.
- **Jobs** (`Publishing`, `Protocol`, `Worker`, `FanIn`, `Progress`, `Pipeline`, `Scenarios`, `ReaperHazard`,
  `ExpiryHazard`, `FailureHazard`): the fan-out, the pending counter, and the reduce as a state machine over Redis
  commands and SQL transactions, with crashes, exceptions, key expiry and the reaper as steps of their own; the worker's
  code as methods proved to be runs of it; the end-to-end theorem that saved findings are those of a single process; and
  exactly when the reaper and an expired counter break it.
- **Wire** (`Wire`, `Serialize`, `Wired`): the string keys and lists a partial becomes in transit, and the end-to-end
  theorem with partials in that form.
- **Ingest** (`NssFields`, `Zscaler`, `Partitions`, `Ingesting`, `UploadFlow`, `Rollups`, `Handover`): what an entry is in
  terms of the header and its record and the parser that builds it, streaming COPY with partitions created ahead of it,
  rollups against raw rows, and the jobs published for the rows stored.
- **Sign-in and access** (`RateLimit`, `LoginRuns`, `Mfa`, `Access`): the login limiter, one-time codes, and the
  access resolver against the list query.
- **Reports** (`Reporting`): cutting the evidence packet to size and mapping the model's answer back to candidates.

`Common`, `Dictionaries`, `Tallies` and `Texts` hold shared vocabulary: filtered maps, permutations, stable sorting, loops
over dictionaries, weighted sums along sequences, and what filtering and trimming a text leave.

How to read the hypotheses:

- A `Fingerprint` of a finding is everything it shows, with the cited row ids as a sorted list; a `LooseFingerprint`
  leaves out the sample of hosts in an off-hours finding, which is capped at eight and so may depend on the split.
- `SeparateTitles` says that no two (user, host), (address, host) or (threat, host) pairs among the rows read the
  same once written as a title. Ranking breaks ties by title, so where dictionaries are visited in an arbitrary order
  equal titles may be cut or ordered either way. Python visits them in insertion order; in that order the sharding
  theorems hold without this hypothesis (`ShardingInOrderIsExact`, `SavedReportsAreExact`, `WiredReportsAreExact`).
  Titles built from one name never collide, which is proved.
- `ChoosesEight` is Python's choice of the first eight members of a set: any choice, and a different one each run.
- `log10` and `sqrt` are parameters; `LawfulLogs` and `LawfulRoots` state the laws a result needs.

Where the code and its comments disagree, the model follows the code:

- Merging is described as order independent. For the shards of an upload it is, evidence included (`MergeOrderKeeps`):
  no shard holds more than eight values. But the split shows: shards may keep more between them than one process does,
  which happens exactly when a merged set outgrows eight (`SameHostsIff`; `NineHosts` is such an upload, and
  `ShownHostsDiffer` one whose off-hours finding then lists other hosts). Sets that have
  outgrown it, as the off-hours detector merges once more, do depend on order and choice (`EitherOrderIff`).
- The wire format's comment says the separator cannot occur in a name. Nothing enforces it: a key part that holds it
  makes loading raise (`WireRoundTrip`; a row whose user name holds it is `OddNameRaises`), and that is the only thing it
  can do (`WiredFindingsAreExact`). On the rows, an upload loads exactly when no name entering a joined key holds the
  separator (`RowsSurviveIff`).
- The counter's comment says one worker sees zero; the code tests for zero or less, so that a missing counter triggers a
  reduce at every shard that is counted. Without the reaper, a second reduce is impossible in all runs if and only if
  there is at most one shard (`OneReduceIff`); while the counter lives it is always impossible (`OneReduce`). Either way
  what is saved is exact (`SavesAreExact`).
- Neither `finish` nor `fail` looks at the status. While the counter lives failure is final (`FailedIsFinal`); once it may
  expire, failure is final in all runs if and only if there is at most one shard (`FailureStaysIff`), and after
  a reaper pass an analysis of any number of shards can fail and then finish (`ReaperUndoesFailure`).
- The reaper requeues one shard of everything and leaves the counter and the other partials alone. Every save of every
  run stays exact if and only if the upload fits one shard and ten million rows (`ReaperExactIff`); otherwise one reaper
  pass, with no other fault, is enough.
- Partition names print years without their era. No partition is ever refused all the same, but a row goes to DEFAULT
  when its month's name is taken: by the same month of the other era, earlier on or earlier in the span (`Flush` says
  exactly when, `IngestTwoEras` gives two rows that do it).

## Model

| member | source | states |
|---|---|---|
| Partials.Table.Update | backend/worker/worker/detection/stats.py:139-148 | setdefault then an in-place update changes one group and no other, whatever the table held |
| Partials.Table.MergeFrom | backend/worker/worker/detection/partial.py:87-91 | folding a dictionary of groups into another equals the pointwise join and leaves the argument as it was, groups included |
| Partials.Partial.Add | backend/worker/worker/detection/stats.py:134-173 | one pass of the mapping loop updates the group objects of six dictionaries, two lists of figures and a counter in place, as specified, and shares no object between dictionaries |
| Partials.MapShard | backend/worker/worker/detection/stats.py:120-175 | what the mapping loop leaves, group by group and in terms of the rows' fields: per address and whole minute the ids of the rows of that minute, per user and host the uploads with their bytes and logarithms, per address and host the times, per threat and host the rows, users and actions, per host its rows, users and urls, per hour of day its number of rows and per actor in it the rows and hosts |
| Describing.MapDescribes | backend/worker/worker/detection/stats.py:130-175 | the aggregate of a shard is, for every group, what the rows of its key amount to: ids, sums, logarithms, hits, and complete or capped evidence |
| Readings.DescribesReads | backend/worker/worker/detection/stats.py:120-175 | an aggregate that describes some rows, mapped at once or merged from shards, holds what the rows' fields say: a minute is sixty seconds from a multiple of sixty, an hour of day lies between 0 and 23 of some day, a missing or empty user, host or actor is "unknown", an actor is the user or else the address |
| Readings.MapReads | backend/worker/worker/detection/stats.py:130-175 | the same of the map of a shard |
| Figures.MedianMiddle | backend/worker/worker/detection/stats.py:79-93 | the median of an odd number of values is the middle of their sorted list, of an even number half the sum of the two middle ones |
| Figures.MedianReflects | backend/worker/worker/detection/stats.py:79-93 | mirroring the values mirrors the median |
| Figures.RobustZIff | backend/worker/worker/detection/stats.py:86-100 | the score of a value is how many spreads it lies above the median, the spread being 1.4826 times the median distance from it, or the standard deviation when that is zero; 50 above equal values |
| Partials.Partial.Merge | backend/worker/worker/detection/partial.py:124-137 | folding another partial in group by group gives the joined aggregates; the other keeps its value and its objects, and the two share none afterwards |
| Partials.MergeAll | backend/worker/worker/detection/partial.py:140-145 | folding a list of partials into a fresh one gives the merge of their values, leaves each as it was, and shares no object with any, even if one occurs twice |
| Describing.MergeDescribes | backend/worker/worker/detection/partial.py:40-84 | merged aggregates describe the concatenation of the rows, whichever eight evidence values are kept |
| Describing.MergeAllDescribes | backend/worker/worker/detection/partial.py:140-145 | folding shard aggregates together describes all shards laid end to end |
| Statistics.ScoreFromZ | backend/worker/worker/detection/stats.py:103-111 | zero up to the flag threshold, one from the certainty threshold, linear in between |
| Statistics.MajorityMedian | backend/worker/worker/detection/stats.py:86-93 | if a strict majority of values lies in an interval, so does the median |
| Statistics.RobustBaseline | backend/worker/worker/detection/stats.py:79-93 | the median stays in the majority's interval and the MAD within 1.4826 times its width, whatever the minority is |
| Statistics.OutlierIsCertain | backend/worker/worker/detection/stats.py:86-111 | while the MAD is not zero, a value twelve scaled widths above the majority scores full marks: an outlier cannot hide itself |
| Statistics.RobustZPermutes | backend/worker/worker/detection/stats.py:86-100 | the score of a value does not depend on the order of the observations |
| Candidates.TopRanks | backend/worker/worker/detection/stats.py:114-117 | the top list is a best-first choice of at most five reportable candidates that nothing left out beats, in whatever order they were found |
| Candidates.RanksUnique | backend/worker/worker/detection/stats.py:114-117 | with distinct titles there is exactly one such list |
| VolumeSpikes.ScoreVolumeSpike | backend/worker/worker/detection/stats.py:180-219 | reports exactly the flagged bursts, per address, with windows in time order |
| BurstFindings.BurstsReported | backend/worker/worker/detection/stats.py:180-219 | on an aggregate of some rows, what is reported of bursts is what the rows hold: with five pairs of an address and a minute or more, each address with minutes of twenty rows that lie more than three spreads above the median of all sizes, scored by the worst, citing its rows of those minutes in time order, with peak, median, minutes, first and last of them and total |
| VolumeSpikes.WindowsSort | backend/worker/worker/detection/stats.py:202-203 | an address's windows come out in minute order however the dictionary was visited |
| GroupDetectors.ScoreDataExfil | backend/worker/worker/detection/stats.py:222-254 | reports exactly the uploads whose peak scores against all logarithms |
| GroupFindings.TransfersReported | backend/worker/worker/detection/stats.py:222-254 | in terms of the rows: with ten uploads or more, each user and host whose largest upload lies more than three spreads above the median on a logarithmic scale, certain from seven, citing every upload between them, with total, number, largest and median |
| GroupDetectors.ScoreBeaconing | backend/worker/worker/detection/stats.py:257-302 | reports exactly the flows whose sorted gaps are regular enough |
| GroupFindings.BeaconsReported | backend/worker/worker/detection/stats.py:257-302 | in terms of the rows: each address and host with twelve rows and eleven pauses of some length, of five seconds to a day on average, whose deviation is at most a fifth of the mean, scored from 0.80 to 0.98, with the figures and the first and last time |
| GroupDetectors.ScoreBlockedThreats | backend/worker/worker/detection/stats.py:305-326 | ranks one candidate a threat and host |
| GroupFindings.ThreatsReported | backend/worker/worker/detection/stats.py:305-326 | in terms of the rows: every threat and host that some row names is reported at 0.95, titled with both and citing every row with both, its users and actions listed; only when there are more than five are others left out, and then five are shown |
| GroupDetectors.ScoreRareDestination | backend/worker/worker/detection/stats.py:329-360 | reports exactly the hosts with one user and at most three rows, against the busiest host |
| GroupFindings.RareHostsReported | backend/worker/worker/detection/stats.py:329-360 | in terms of the rows: with five hosts or more, each host of at most three rows that name one user between them, scored by the logarithms of the busiest host's rows for each of its own, to three digits, with all its urls |
| OffHours.ScoreOffHours | backend/worker/worker/detection/stats.py:363-417 | reports exactly the quiet-hour actors; once a set was capped the host sample may vary, but it is at most five hosts the actor met in the hours shown |
| HourFindings.QuietByMiddle | backend/worker/worker/detection/stats.py:374-380 | the quiet hours are those with rows, but fewer than 15 percent of the middle hour's, or of the mean of the two middle hours', in the sorted traffic of the hours seen |
| HourFindings.OffHoursReported | backend/worker/worker/detection/stats.py:363-417 | in terms of the rows: with four hours of day or more, each actor with five rows or more in quiet hours, citing all of them, the hours in order, scored by how quiet they are beside the median and by the number of rows up to ten, to three digits |
| HourFindings.HostsExactlyShown | backend/worker/worker/detection/stats.py:384-416 | where no actor met more than eight hosts in an hour of day, the hosts shown are the first five in alphabetical order of those met in the hours named, however the log was split |
| OffHours.JudgeSlotsAgrees | backend/worker/worker/detection/stats.py:384-396 | neither the order in which an actor's hours are merged nor the choice of capped hosts shows beyond that sample |
| Detection.Score | backend/worker/worker/detection/stats.py:420-436 | runs all six detectors and ranks their reports by confidence, kind and title |
| ResultFindings.ResultTells | backend/worker/worker/detection/stats.py:180-436 | the result on an aggregate of some rows is the six reports on the rows, at most five findings of at least 0.30 each and none that ranks below one left out, put in order of score, kind and title |
| ResultFindings.ReduceTells | backend/worker/worker/detection/stats.py:439-441 | so is the result of a reduce, however the rows were split into shards |
| Detection.ReducePartials | backend/worker/worker/detection/stats.py:439-441 | scores the merge of its partials, once |
| Detection.DetectAll | backend/worker/worker/detection/stats.py:449-450 | the single-process answer is the score of one merged map |
| Sharding.DescribeSame | backend/worker/worker/detection/partial.py:94-137 | two aggregates of the same rows in any order hold the same groups, with capped urls equal for hosts of at most eight rows |
| SameReports.RareHostsAlike | backend/worker/worker/detection/stats.py:329-360 | rare hosts are reported identically, urls included: a reported host has at most three rows, so the cap never shows |
| SameReports.BurstsAlike | backend/worker/worker/detection/stats.py:180-219 | bursts are reported identically up to the order of cited rows |
| SameReports.BeaconsAlike | backend/worker/worker/detection/stats.py:257-302 | check-ins are reported identically |
| SameReports.TransfersAlike | backend/worker/worker/detection/stats.py:222-254 | transfers are reported identically up to the order of cited rows |
| SameReports.ThreatsAlike | backend/worker/worker/detection/stats.py:305-326 | threats are reported identically up to the order of cited rows |
| SameReports.OffHoursAlike | backend/worker/worker/detection/stats.py:363-417 | off-hours findings agree but for the host sample, and fully when no slot was capped |
| Exactness.TitlesDistinct | backend/worker/worker/detection/stats.py:205-207 | no detector finds two candidates with one title when pairs read apart |
| Exactness.ShardingIsExact | backend/worker/worker/detection/stats.py:420-450 | for any split of the rows and any merge order, the sharded report equals the single-process one: kinds, titles, scores, rows and evidence |
| InsertionOrder.FirstSeenOrder | backend/worker/worker/detection/stats.py:139-148 | the keys of a dictionary filled row by row come in the order in which they were first met |
| InsertionOrder.ShardsKeepOrder | backend/worker/worker/detection/partial.py:87-91 | merging shards in order leaves every dictionary's keys in the order in which one process would first have met them |
| InsertionOrder.InOrderIsResult | backend/worker/worker/detection/stats.py:420-436 | visiting dictionaries in insertion order is one of the ways the detectors may visit them, so the report in that order is one of theirs |
| InsertionOrder.ShardingInOrderIsExact | backend/worker/worker/detection/stats.py:439-450 | rows split and merged in order give the same report as one process, whatever the names: equal titles are cut and ordered alike |
| KeptEvidence.MapKeepsFirst | backend/worker/worker/detection/stats.py:159-171 | a name is in a shard's evidence for a host or an actor's hour if and only if a row of theirs holds it before which fewer than eight different names were met |
| KeptEvidence.MergeOrderKeeps | backend/worker/worker/detection/partial.py:71-84 | the merged evidence of shards depends neither on their order nor on which eight members a set yields first |
| KeptEvidence.SplitShowsIff | backend/worker/worker/detection/partial.py:28-30 | shards keep what one process keeps if and only if they keep at most eight values between them |
| KeptEvidence.SameHostsIff | backend/worker/worker/detection/partial.py:76-84 | one process and the merged shards hold the same hosts everywhere if and only if no merged set outgrew the cap |
| KeptEvidence.NineHosts | backend/worker/worker/detection/partial.py:18-20 | nine visits to nine hosts: one process keeps eight, two shards keep nine |
| ShownHosts.ShownHostsDiffer | backend/worker/worker/detection/stats.py:384-416 | an upload of 309 rows analysed in shards of 308: for one choice of eight, the only off-hours finding shows a host that the single process's does not |
| KeptEvidence.EitherOrderIff | backend/worker/worker/detection/partial.py:82-84 | two sets merge alike both ways round, whatever eight are chosen, if and only if neither outgrew the cap or they are equal |
| KeptEvidence.ShardingIsExactInFull | backend/worker/worker/detection/stats.py:439-450 | rows split in order give the same report, host samples included, whenever no merged set outgrew the cap |
| ScoreBounds.ResultInRange | backend/worker/worker/detection/stats.py:103-117 | every reported score lies in [0.30, 1], at most five a detector, best first |
| ScoreBounds.RareAtLeastHalf | backend/worker/worker/detection/stats.py:346-352 | a rare destination scores at least one half, from the laws of logarithms |
| ScoreBounds.RareHostsKept | backend/worker/worker/detection/stats.py:341-360 | so the reporting bar never drops one |
| ScoreBounds.OffHoursKept | backend/worker/worker/detection/stats.py:398-417 | every off-hours finding scores at least 0.425, so the bar never drops one |
| LoneBurst.LoneZ | backend/worker/worker/detection/stats.py:86-100 | the z-score of a lone value among n-1 equal ones is n over the root of n-1, whatever the values, so it reaches 5.1 exactly from n = 25 on |
| LoneBurst.LoneBurstReported | backend/worker/worker/detection/stats.py:180-219 | a lone burst of twenty or more requests is reported exactly when there are at least 25 buckets, whatever its size |
| Detectability.SteadyFlowFound | backend/worker/worker/detection/stats.py:257-302 | twelve or more hits whose gaps differ by at most a share of the shortest are always found, and score more the smaller the share |
| Detectability.OffPaceIgnored | backend/worker/worker/detection/stats.py:277-279 | a flow whose gaps are all under five seconds or all over a day is never a check-in |
| Detectability.HugeTransferIsCertain | backend/worker/worker/detection/stats.py:222-240 | an upload far enough above the majority of uploads makes its flow score full marks |
| Detectability.HugeBurstIsCertain | backend/worker/worker/detection/stats.py:180-219 | a minute far enough above the majority of minutes makes its address score full marks |
| Citations.DetectedCite | backend/worker/worker/detection/stats.py:180-417 | no detector cites a row that is not in the log it was given |
| Citations.ResultCites | backend/worker/worker/detection/stats.py:420-436 | nor does the ranked result |
| Citations.SavedFindingsCite | backend/worker/worker/pipeline.py:217-247 | whatever the model answers, a saved finding cites rows of the upload only |
| Citations.ShownHostsWereMet | backend/worker/worker/detection/stats.py:384-416 | the hosts an off-hours finding shows are at most five, each from a row of that actor in one of the hours shown |
| Wire.JoinedSplits | backend/worker/worker/serialize.py:19-24 | a joined key splits back into its parts exactly when neither holds the separator |
| Wire.NumeralParses | backend/worker/worker/serialize.py:59-60 | decimal numerals, negative ones included, parse back |
| Serialize.DumpMap | backend/worker/worker/serialize.py:28-50 | a dictionary becomes string-keyed entries, one for each joined key |
| Serialize.LoadMap | backend/worker/worker/serialize.py:57-85 | loading splits every key and fails if one does not split |
| Serialize.Dumps | backend/worker/worker/serialize.py:27-50 | the tree of a partial, sets as sorted lists |
| Serialize.Loads | backend/worker/worker/serialize.py:53-88 | the partial of a tree, or the error of its first bad key |
| Serialize.WireRoundTrip | backend/worker/worker/serialize.py:27-88 | a partial comes back unchanged if and only if no part of a joined key holds the separator; otherwise loading raises, and it never comes back altered |
| Serialize.DumpsStable | backend/worker/worker/serialize.py:27-50 | dumping again what was loaded gives the same tree |
| Serialize.PlainRowsSurvive | backend/worker/worker/serialize.py:16-20 | rows whose names hold no separator map to partials that survive |
| Serialize.RowsSurviveIff | backend/worker/worker/serialize.py:16-88 | the partial of some rows survives the wire if and only if no name that a row puts into a joined key holds the separator |
| Serialize.OddNameRaises | backend/worker/worker/serialize.py:16 | one row whose user name holds the separator makes a partial that does not load |
| Publishing.Redis.PublishAnalysis | backend/gateway/internal/queue/queue.go:65-98 | sets the counter to the number of shards, the least that reach every row and one at least, and pushes shard 0 to n-1 with their offsets and limits, of 25,000 rows unless told otherwise |
| Publishing.SlicesCover | backend/gateway/internal/queue/queue.go:69-87 | the published slices laid end to end are the upload |
| Publishing.OneSlice | backend/gateway/internal/queue/queue.go:79-87 | row i is in slice i / size, at position i % size, and in no other |
| Publishing.NoEmptySlice | backend/gateway/internal/queue/queue.go:69-74 | no slice is empty unless the upload is |
| Protocol.StepExact | backend/worker/worker/pipeline.py:70-112 | every step keeps every stored partial the map of its own slice, and every reduce that scores at all scores all of them |
| Protocol.SavesAreExact | backend/worker/worker/pipeline.py:70-151 | in every run, under crashes, exceptions and expiry, every save rests on the aggregates of all shards; with the reaper too when there is one shard |
| Worker.Backend.Reserve | backend/worker/worker/queue.py:91-94 | takes the oldest job |
| Worker.Backend.PutPartial | backend/worker/worker/queue.py:96-98 | stores one partial under its shard |
| Worker.Backend.CompleteShard | backend/worker/worker/queue.py:110-117 | decrements, counting a missing counter as zero, and tells the caller whether it closed the group |
| Worker.Backend.GetPartials | backend/worker/worker/queue.py:100-103 | returns all partials in shard order, or fewer than asked for |
| Worker.Backend.Drop | backend/worker/worker/queue.py:105-108 | forgets the partials and the counter |
| Worker.Backend.Claim | backend/worker/worker/db.py:125-137 | succeeds exactly for queued and running analyses |
| Worker.Backend.SaveAnomalies | backend/worker/worker/db.py:176-199 | the stored findings are replaced by the new ones, and the save is recorded |
| Worker.Backend.RunMap | backend/worker/worker/pipeline.py:70-96 | stores the map of its slice and pushes a reduce exactly when it closed the group; it is a run of the protocol |
| Worker.Backend.RunReduce | backend/worker/worker/pipeline.py:99-151 | raises exactly when a partial is missing, and otherwise saves all of them; it is a run of the protocol |
| Worker.Backend.Handle | backend/worker/worker/main.py:33-52 | runs or skips one job and records failure; it is a run of the protocol |
| FanIn.StepBalanced | backend/worker/worker/pipeline.py:88-96 | every step keeps the books: each shard is in one place, the reduce in one place once all are counted, the counter right |
| FanIn.OneReduce | backend/worker/worker/queue.py:110-117 | without the reaper and with a live counter, at most one reduce is pushed, only after every shard was stored and counted, and the counter is the number of shards left |
| FanIn.FailedIsFinal | backend/worker/worker/db.py:146-174 | in those runs failure is final although neither write looks at the status |
| FailureHazard.FailureStaysIff | backend/worker/worker/db.py:146-174 | without the reaper but with counter expiry, failure is final in all runs if and only if there is at most one shard |
| FailureHazard.ExpiryUndoesFailure | backend/worker/worker/main.py:46-52 | for any two or more shards an expired counter and one exception can turn a failed analysis into a finished one |
| FailureHazard.ReaperUndoesFailure | backend/worker/worker/main.py:55-69 | for any number of shards one reaper pass and one exception can do so |
| Progress.RunIsShort | backend/worker/worker/main.py:33-52 | without faults a run takes at most thirteen steps a shard |
| Progress.EndsDone | backend/worker/worker/pipeline.py:88-151 | when no step is left the analysis is done, one reduce ran, and its one save holds all shards |
| Progress.RunToEnd | backend/worker/worker/main.py:33-52 | any run without faults can be carried on, without faults, until no step is left |
| ReaperHazard.ReaperMixesShards | backend/worker/worker/main.py:55-69 | for any number of shards from two on, one reaper pass can make a reduce merge the reaper's partial with all other shards |
| ReaperHazard.ReaperReducesAlone | backend/worker/worker/main.py:61-67 | for any number of shards, one reaper pass can make a reduce of the first ten million rows alone |
| ReaperHazard.ReaperExactIff | backend/worker/worker/main.py:55-69 | with the reaper, every save of every run is an aggregate of exactly the upload's rows if and only if they fit one shard and ten million rows |
| ExpiryHazard.ReducesBounded | backend/worker/worker/queue.py:110-117 | without the reaper no run pushes more reduces than there are shards, whatever crashes or expires |
| ExpiryHazard.EveryCountPushes | backend/worker/worker/queue.py:110-117 | once the counter has expired every shard counted pushes a reduce: the first while all others are still to do, and one for each shard in the end |
| ExpiryHazard.OneReduceIff | backend/worker/worker/pipeline.py:88-96 | at most one reduce in every run without the reaper, expiry included, if and only if there is at most one shard |
| Pipeline.SavedFindingsAreExact | backend/worker/worker/pipeline.py:99-151 | whatever happens to workers, jobs and keys, every saved set of findings is what one process finds in all rows of the upload |
| InsertionOrder.SavedReportsAreExact | backend/worker/worker/pipeline.py:99-151 | the same in insertion order, for rows of any names: every save is reported as one process reports all rows |
| Pipeline.SavedFindingsTell | backend/worker/worker/pipeline.py:99-151 | whatever happens to workers, jobs and keys, every saved set of findings is the six reports on the upload's rows |
| Pipeline.OneShardIsReaperSafe | backend/worker/worker/main.py:61-67 | an upload of one shard and at most ten million rows is mapped whole by the reaper's job |
| Pipeline.StoredPartialSurvives | backend/worker/worker/pipeline.py:76-112 | partials reach the reduce as they left the map |
| Wired.WiredMerge | backend/worker/worker/pipeline.py:110-112 | merging partials that came over the wire is merging the originals |
| Wired.LoadsIff | backend/worker/worker/serialize.py:53-88 | a list of dumped partials loads if and only if no part of their joined keys holds the separator |
| Wired.WiredFindingsAreExact | backend/worker/worker/pipeline.py:70-151 | end to end with dumped partials and any names: findings saved from partials that loaded are those of one process |
| Wired.WiredReportsAreExact | backend/worker/worker/pipeline.py:70-151 | the same in insertion order, with no condition on names but that the partials loaded |
| Wired.PlainRunEndsLoaded | backend/worker/worker/pipeline.py:70-151 | without faults and with plain keys a run that has no step left is done, and its one save was read from partials that all loaded |
| Wired.PlainRunExists | backend/worker/worker/pipeline.py:70-151 | there is such a run for any upload of plain keys, and a dump of partials for it |
| Zscaler.BuildColumnMap | backend/gateway/internal/parser/zscaler/zscaler.go:159-181 | each field reads the first column named by the earliest of its aliases that the header has |
| Zscaler.Parse | backend/gateway/internal/parser/zscaler/zscaler.go:105-219 | one entry a record after the header, readable or not, and the two counts; each field of an entry is what the cell means that stands in the first column titled with the earliest of the field's names, and the host is otherwise taken from the url |
| Zscaler.EntryIff | backend/gateway/internal/parser/zscaler/zscaler.go:184-299 | there is exactly one entry whose fields are those of a record, and it is the one built |
| Zscaler.OtherCellsIgnored | backend/gateway/internal/parser/zscaler/zscaler.go:187-193 | a field does not see the cells of other columns |
| Zscaler.BlankIsAbsent | backend/gateway/internal/parser/zscaler/zscaler.go:222-229 | nothing is read of a cell that is blank or holds a mark for an absent value |
| Zscaler.LineNumbers | backend/gateway/internal/parser/zscaler/zscaler.go:131-155 | entries are numbered 2, 3, 4 and so on |
| Zscaler.ColumnOrderIrrelevant | backend/gateway/internal/parser/zscaler/zscaler.go:159-219 | permuting distinct headers and full-width rows together changes nothing but the raw text |
| Zscaler.HostIff | backend/gateway/internal/parser/zscaler/zscaler.go:288-299 | the host of a url is what stands between the first "://" and the next path or port |
| Zscaler.Before | backend/gateway/internal/parser/zscaler/zscaler.go:288-299 | cutting at a character gives the longest prefix without it |
| Partitions.LogTable.EnsurePartitions | backend/gateway/internal/migrations/sql/000002_uploads_and_log_entries.up.sql:69-90 | a month of the span has its own partition afterwards exactly when no other month holds or takes its name first; existing partitions stay; refusal means DEFAULT holds a row of that month |
| Partitions.LogTable.CopyRows | backend/gateway/internal/store/ingest.go:30-62 | appends every row, each in its month's partition or DEFAULT |
| Partitions.NamePrints | backend/gateway/internal/migrations/sql/000002_uploads_and_log_entries.up.sql:80 | a month's partition is named by its year as printed, without the era, and its month |
| Partitions.SpanCovered | backend/gateway/internal/migrations/sql/000002_uploads_and_log_entries.up.sql:79-88 | for years of our era every month of a span gets its own partition |
| Partitions.PlaceableUnlessMirrored | backend/gateway/internal/migrations/sql/000002_uploads_and_log_entries.up.sql:79-88 | a month whose name is free gets its own partition exactly when the month of the other era with that name is not earlier in the span |
| Ingesting.IngestTwoEras | backend/gateway/internal/migrations/sql/000002_uploads_and_log_entries.up.sql:80 | ingesting a row of March 44 AD and one of March 44 BC leaves a timestamped row in DEFAULT |
| Ingesting.BeforeChristPlaceable | backend/gateway/internal/migrations/sql/000002_uploads_and_log_entries.up.sql:79-88 | entries from before Christ alone go home too, while none of their months' names is taken |
| Ingesting.Ingest.Flush | backend/gateway/internal/handlers/uploads.go:277-290 | creates partitions for the span so far, then copies what is pending; never refused while the names of stored months are taken; every row goes home if and only if each pending month's name is its own or free of earlier months of the span |
| Ingesting.Ingest.Emit | backend/gateway/internal/handlers/uploads.go:292-308 | widens the span, holds the row, flushes at five thousand and not before, and keeps copied plus pending equal to emitted |
| Ingesting.Ingest.Run | backend/gateway/internal/handlers/uploads.go:272-324 | every entry is copied once, in order, and counted; no partition is refused; over any number of batches all rows go home if and only if, flush by flush, each pending month's name is its own or free of earlier months of the span so far |
| Ingesting.IngestAll | backend/gateway/internal/handlers/uploads.go:272-324 | over any sequence of uploads no partition is ever refused and every row is stored once; while they are of our era DEFAULT holds only rows without a timestamp |
| UploadFlow.IngestUpload | backend/gateway/internal/handlers/uploads.go:292-353 | unreadable, empty and successful files are told apart exactly; on success the reported entries are the line count less the header, and what is stored, in file order, are the entries the file's records hold |
| Handover.IngestAndPublish | backend/gateway/internal/handlers/analyses.go:52-79 | the jobs published for an ingested file are those of the analysis of exactly the stored rows, in line order; every column a worker loads is the entry's own, and the entries are those the file's records hold |
| Handover.RollupsCountIngested | backend/gateway/internal/store/ingest.go:94-134 | either rollup is made from the entries' own columns, cut to seconds, and counts exactly the ingested entries that have a timestamp |
| Rollups.GroupingConserves | backend/gateway/internal/store/ingest.go:94-134 | any sum over groups is the sum over the rows of those groups |
| Rollups.TotalsAgree | backend/gateway/internal/store/ingest.go:94-134 | both rollups carry exactly the figures of the timestamped rows: their number, those with codes from 400 up, response bytes as bytes in and request bytes as bytes out, those with a cache status and those that hit |
| Rollups.BucketsHaveFigures | backend/gateway/internal/store/ingest.go:94-134 | there is a bucket for exactly the whole minutes and hours and the hosts that have a row, no host counting as the empty one, and it holds the figures of those rows |
| Rollups.BuiltReplaces | backend/gateway/internal/store/ingest.go:124-130 | building an upload's rollups replaces the buckets its rows fall in and leaves the others alone |
| Rollups.HourIsItsMinutes | backend/gateway/internal/store/ingest.go:95-134 | an hour bucket of a host is the sum of its minute buckets |
| Rollups.RebuildIdempotent | backend/gateway/internal/store/ingest.go:124-130 | building the rollups again, from the same rows in any order, changes nothing |
| Rollups.SummaryExactIffAligned | backend/gateway/internal/store/dashboard.go:72-88 | the headline figures, bytes and cache counts included, are those of the window's rows for every upload if and only if the window is empty or cut on the hour |
| Rollups.SummaryDiffers | backend/gateway/internal/store/dashboard.go:72-88 | any other window misreads a row at one of its ends |
| Rollups.StatusCounts | backend/gateway/internal/store/ingest.go:144-164 | the status rollup counts the rows of each hour and status code |
| Rollups.ErrorsAddUp | backend/gateway/internal/store/ingest.go:144-164 | per hour the error codes of the status rollup add up to the errors of the entry rollup |
| RateLimit.Limiter.Check | backend/gateway/internal/ratelimit/ratelimit.go:79-101 | throttles an address at twenty, then refuses a locked account |
| RateLimit.Limiter.RecordFailure | backend/gateway/internal/ratelimit/ratelimit.go:104-128 | counts in windows of five and thirty minutes anchored to the first failure and locks for fifteen at ten |
| RateLimit.Limiter.Reset | backend/gateway/internal/ratelimit/ratelimit.go:133-138 | clears the account and leaves the address |
| RateLimit.Limiter.Consume | backend/gateway/internal/ratelimit/ratelimit.go:143-145 | true for the first caller while the key lives |
| LoginRuns.Serve | backend/gateway/internal/handlers/auth.go:105-208 | the handlers' order of check, verify, record and reset, on the limiter object, which each kind of request leaves as `ServedServes` says; a replayed second factor is turned away and counts for nothing |
| LoginRuns.ServedServes | backend/gateway/internal/handlers/auth.go:105-208 | what each kind of request does to counters, locks and the record of failed checks: barred at twenty failures in five minutes or while locked, one more for both on a failure and a quarter-hour lock from the tenth, and after a right password or second factor the account is forgotten and the address keeps its own |
| LoginRuns.ServedSound | backend/gateway/internal/handlers/auth.go:105-208 | every request keeps the windows disjoint and their counts bounded |
| LoginRuns.ThirtyNinePerAddress | backend/gateway/internal/ratelimit/ratelimit.go:79-138 | in any run, any half-open five minutes hold at most 39 failed password checks from one address: they meet two windows of twenty, the earlier of which started before them with a failure |
| LoginRuns.ThirtyNineReached | backend/gateway/internal/ratelimit/ratelimit.go:79-138 | a run with 39 failures of one address within five minutes |
| LoginRuns.ElevenPerAccountWindow | backend/gateway/internal/ratelimit/ratelimit.go:104-138 | in any run, one thirty-minute window of an account holds at most 11 between resets, wrong second factors counted in between or not |
| LoginRuns.ElevenReached | backend/gateway/internal/ratelimit/ratelimit.go:104-138 | a run with eleven: ten lock the account for half its window, and one more comes when the lock ends |
| Mfa.NormalIff | backend/gateway/internal/mfa/mfa.go:52-53 | a code is compared without blanks anywhere and other white space at its ends |
| Mfa.Validate | backend/gateway/internal/mfa/mfa.go:52-61 | accepts exactly the normalised codes of the current thirty seconds and of those before and after |
| Mfa.AcceptCode | backend/gateway/internal/handlers/mfa.go:72-85 | validates, then consumes the user's code for ninety seconds; a replay is refused |
| Mfa.AcceptedUnlessUsed | backend/gateway/internal/handlers/mfa.go:140-151 | after any run an attempt is accepted if and only if its code is valid and was not accepted under the same key, of user and code, in the ninety seconds before |
| Mfa.AcceptedOnce | backend/gateway/internal/handlers/mfa.go:140-151 | in any run over both endpoints a user's code is accepted at most once within the span of any step |
| Reporting.BuildPacket | backend/worker/worker/ai/evidence.py:65-105 | the text fits 14,000 characters or nothing is left; what is shown is everything with its samples if that fits, otherwise the most candidates that fit without, each under its original id |
| Reporting.IdsDiffer | backend/worker/worker/ai/evidence.py:75-77 | candidate ids are distinct |
| Reporting.ToRows | backend/worker/worker/pipeline.py:217-247 | the items whose id is c and a candidate's number become findings in order, the others are dropped: kind, rows and urgency are the candidate's, the prose, severity and confidence the item's, and the label at most 120 characters of the recommendation |
| Reporting.RowsAreReal | backend/worker/worker/pipeline.py:217-247 | whatever the report, every saved row carries a real candidate's kind and rows |
| Reporting.FilterIsRedundant | backend/worker/worker/ai/analyze.py:192-201 | dropping unknown ids beforehand changes nothing that is saved |
| Reporting.FallbackMapsBack | backend/worker/worker/ai/analyze.py:95-127 | the fallback report maps back to one row a candidate, in order, with its kind, rows, its score to three digits and a severity graded at 0.5, 0.7 and 0.9 |
| Access.Store.BestGrantFor | backend/gateway/internal/store/grants.go:40-57 | the highest live grant, per upload or standing: full before dashboard before summary |
| Access.Store.Resolve | backend/gateway/internal/authz/authz.go:75-112 | resolves exactly the uploads the list query returns, with the tier of ownership, role or grant |
| Access.Store.Require | backend/gateway/internal/authz/authz.go:120-153 | a caller whose tier suffices, a full one for everything, a dashboard one for all but the raw log and a summary one for the summary alone, gets that tier and nothing is recorded; above it only admins pass, each time with one audit record of their own naming the tier they had, and never when it cannot be written; otherwise access is refused |
| Access.GranteeTable | backend/gateway/internal/authz/authz.go:23-28 | what each tier of grant opens to someone who neither owns the upload nor administers the organization, without any record |
| Access.AdminTable | backend/gateway/internal/authz/authz.go:101-153 | an admin without a grant sees summary and dashboard unrecorded, and the raw log with one record or not at all |
| Access.Store.UpsertGrant | backend/gateway/internal/store/grants.go:60-83 | one grant a slot afterwards, with the new level and expiry, others untouched |
| Access.Store.DeleteGrant | backend/gateway/internal/store/grants.go:113-123 | removes exactly the grant of that id in the caller's organization |
| Access.ExpiryHides | backend/gateway/internal/store/grants.go:43-50 | an upload stays listed for a grantee exactly until the last of their grants over it expires |

## Left out

- Partials.Partial.Merge: a group is one object; the lists and sets inside it are values of that object, so sharing a list
  between two groups is not modelled.
- Detection.Score: evidence is kept unrounded; display rounding and ISO time strings are functions of what is kept.
- Exactness.ShardingIsExact: titles are assumed to tell pairs apart, because it allows any merge order and dictionaries visited
  in any order; `ShardingInOrderIsExact` does without, for shards merged in order.
- Floating point: sums and quotients are exact reals, so rounding differences between merge orders are not modelled.
- Protocol.WorkerStep: a command that raises has no effect (no lost acknowledgements); timings, embeddings and the model
  call raise or do nothing; queue order is kept per analysis only.
- Protocol.SavesAreExact: under the reaper it is stated where the reaper's slice is the only shard's; `ReaperExactIff` says when
  that is and that it fails otherwise.
- Serialize.Loads: the JSON text of a tree and its reading are JSON's; Python's `int` accepts more spellings than the
  canonical ones a dump contains.
- Zscaler.Parse: CSV reading, delimiter detection, time layouts, IP and float syntax are library functions; the parser's
  callback is modelled by handing over the entries in order.
- Ingesting.Ingest.Run: object storage, compression and size limits; a refused partition rolls the transaction back.
- Rollups.TotalsAgree: percentiles and the reason column, which are not sums; tenancy columns are fixed, and the test for a hit on a
  cache status is a parameter.
- RateLimit.Limiter.Check: Redis failures, which let an attempt through, and the switch that turns the limiter off.
- Mfa.AcceptedOnce: disabling MFA, which does not consume a code, and recovery codes.
- Reporting.ToRows: prose, timeline, model metadata and the handling of a failed model call.
- Access.Store.Require: HTTP responses and logging.
- Upload deletion, member invitation, search, alerts, metrics and the frontend, which would only add easy members.
