# Verified model of the PBS exporter

A Dafny model of a Prometheus exporter for PBS clusters, with proofs about what
it publishes. `dafny verify dfyconfig.toml` checks the whole project.

The modules follow the data from the PBS answers to a scrape:

- **Texts** (`Text`, `Scalars`, `NamedCounts`, `BucketConfig`): the string
  functions, walltimes, byte sizes, `Key:n` counts and bucket lists, with their
  round trips.
- **Aggregates** (`Bags`, `Jobs`, `QueueWaits`, `Inspection`, `Nodes`, `Queues`,
  `Client`): folds over payload maps. A Go map has no iteration order, so each
  loop picks its next key freely and the contracts speak of every order at once:
  `Delivers(m, order, records)` says that `records` is what one enumeration of
  `m` yields, and results hold for all deliveries. The waiting times of a queue
  are compared with the per-job waits of the separately written inspection path.
- **State** (`Histograms`, `Store`, `Runs`): the accumulators, the store and the
  worker as classes updated in place; each method is tied to a step of a value
  history, and the theorems are about all finite runs of that history.
- **Scrapes** (`Scrapes`, `Collector`, `Identities`, `Exposition`): a scrape takes
  the store's lock three times. `Scrapes` lets any number of scrapes and the
  worker interleave at those sections; `Exposition.Collect` is the sequential code
  with the worker running between the reads. `Identities` says which of the series
  sent share their metric and labels.
- **What is shown** (`SeriesMeaning`, `NodeMeaning`, `QueueMeaning`,
  `InspectionMeaning`): for every scrape and metric, exactly which labels and values
  are sent, written out in terms of the payload: numbers of jobs or nodes with a
  property, times in nanoseconds, sums over the nodes.

Assumptions. Numbers are exact (`real` for `float64`, unbounded integers, no
NaN, no infinity, no overflow of counters or of `Atoi`); strings are ASCII, also
for case folding and trimming; instants are nanoseconds since Go's zero time,
which is 0. `strconv.ParseFloat`, `strconv.FormatFloat`, `time.Parse` and the
Unix conversion are function parameters, restricted only where a property needs
it (`ReadsDecimals`, `PrintsDecimals`, and that the empty text is no timestamp).
`sort.Strings` is a parameter too: an enumeration of the keys; no property needs
more of it.

Four findings.

1. README.md line 116 of the exporter says the owner label loses the text after
   the last `@`, so that `foo@bar@host` becomes `foo@bar`. The owner is stripped
   when it is parsed and again when it is emitted, and the label is `foo`.
   `Inspection.EmittedOwnerExactly` gives the exact condition under which the
   documented value comes out, `Inspection.TwoHostsLoseTwo` the example.
2. A scrape can report `pbs_exporter_up 1` beside no cluster series, or the
   reverse. `Scrapes.TornScrapesExactly` gives the exact condition on the writes,
   `Scrapes.TornScrapeExists` an interleaving for each kind.
3. `job_inspection_up` tells whether per-job data is stored for results of the
   real client; for an arbitrary collector it does so except for results that
   carry data beside a missing or failed inspection (`Runs.InspectionUpExactly`,
   example `Runs.StrayDataMisleads`).
4. Two jobs whose ids share their first number, such as two members of a job
   array, get the same `job_id`. If queue, project, owner and state agree too, the
   scrape sends the same series twice, which a Prometheus registry does not
   accept. `Exposition.PayloadAcceptedExactly` gives the exact condition,
   `Exposition.ArrayMembersCollide` the example. All other series are always distinct.

## Model

| member | source | states |
|---|---|---|
| Store.Store.UpdateSuccess | internal/exporter/store.go:41-55 | the whole new state after a success: snapshot, status, inspection status and histograms |
| Store.Store.Clear | internal/exporter/store.go:57-71 | the whole new state after a failure; the histograms stay |
| Store.Store.ApplyJobInspectionResult | internal/exporter/store.go:73-89 | only the three inspection fields change, by the three outcomes of an inspection |
| Store.Store.ApplyJobSampleHistograms | internal/exporter/store.go:91-100 | the histograms change exactly for results inspected without error |
| Store.Store.ConfigureJobSampleHistograms | internal/exporter/store.go:34-39 | installs empty histograms, or none when disabled |
| Store.Store.ReadJobSampleHistograms | internal/exporter/store.go:114-121 | a copy of the current histogram contents |
| Store.Worker.RunOnce | internal/exporter/worker.go:59-86 | one attempt is one step of the history; the error returned is the failure's own, or none |
| Store.Worker.Run | internal/exporter/worker.go:43-57 | any number of attempts is a run of the history; a failure does not stop it |
| Store.SuccessStored | internal/exporter/worker.go:72-83 | a success stores the collector's own snapshot, dated by itself or else by the start, and sets every status field as written out |
| Store.FailureStored | internal/exporter/worker.go:63-76 | a failure stores no snapshot, its own text and one more error, and leaves the rest |
| Histograms.HistogramAccumulator.Observe | internal/exporter/job_sample_histograms.go:53-61 | the in-place update of counts, count and sum |
| Histograms.HistogramAccumulator.Snapshot | internal/exporter/job_sample_histograms.go:63-74 | the exported map form of the contents |
| Histograms.JobSampleHistograms.Observe | internal/exporter/job_sample_histograms.go:100-117 | six accumulators that share nothing are each updated for every running job with the value set |
| Histograms.BatchSnoc | internal/exporter/job_sample_histograms.go:53-61 | one incremental update turns the statistics of a list into those of the longer list |
| Histograms.JobsObservedIsBatch | internal/exporter/job_sample_histograms.go:100-117 | observing any jobs on top of any batch yields the batch of all of them, for all six |
| Histograms.OtherStatesUnsampled | internal/exporter/job_sample_histograms.go:105-108 | a job in any state but "R" or "r" leaves all six unchanged |
| Histograms.ExportedBatch | internal/exporter/job_sample_histograms.go:63-74 | every exported bound carries its number of observations, repeated bounds included |
| Histograms.ExportSize | internal/exporter/job_sample_histograms.go:63-74 | the map keeps one key per bound exactly when no bound is repeated |
| Histograms.ValidBucketsExportLosslessly | internal/config/job_sample_buckets.go:122-139 | for validated buckets the counts can be read back from the map, whatever they are |
| Histograms.BatchesAreCumulative | internal/exporter/job_sample_histograms.go:53-74 | exports are non-decreasing in the bound and never exceed the count |
| Runs.UnsampledStepsKeepHistograms | internal/exporter/store.go:91-100 | an attempt that samples no job leaves all six unchanged |
| Runs.HistogramsAreBatches | README.md:150-196 | after any run each exported histogram is the batch histogram of the requested values of the running jobs of exactly the inspected attempts |
| Runs.AttemptGains | internal/exporter/job_sample_histograms.go:100-117 | an inspected attempt adds to each of the six exactly the values of its documented resource field in the payload's running jobs |
| Runs.ValidatedBucketsExport | internal/config/config.go:286-303 | with validated buckets the export is lossless and cumulative after any run |
| Runs.CountersNeverDecrease | README.md:196 | no extension of a run, failures included, lowers a histogram count, a bucket or an error counter |
| Runs.StatusIsHistory | internal/exporter/store.go:41-89 | the status after any run, field by field, as a function of the list of attempts: counters count failures, timestamps are those of the last success and last inspection |
| Runs.RunIsHistory | internal/exporter/worker.go:59-86 | status, snapshot and histograms of every reachable state in closed form |
| Runs.UpInvariant | internal/exporter/store.go:41-71 | up iff a snapshot is held iff the snapshot time is non-zero, and then it is the snapshot's own |
| Runs.TimesInvariant | internal/exporter/worker.go:59-86 | last inspection success, last success and last attempt are ordered; up means the last two agree |
| Runs.InspectionUpExactly | internal/exporter/store.go:73-89 | for any collector, the inspection gauge matches the stored data after a step iff the result carries no stray data |
| Runs.StrayDataMisleads | internal/exporter/store.go:73-77 | a result with data beside an inspection that was not tried leaves the gauge down above the stored data |
| Runs.InspectionInvariant | internal/pbs/client_collection.go:38-58 | with the client's results the gauge matches in every reachable state |
| Runs.FailedInspectionKeepsBase | README.md:104 | for two answers of the client to the same base payloads, one of them a failed inspection, the stored states differ in the inspection data, the sampling and the inspection fields, and in nothing else |
| Scrapes.ScrapeReads | internal/exporter/collector_collect.go:68-103 | in every interleaving the three reads of every scrape are states of the history at ordered positions |
| Scrapes.QuietScrapeIsCoherent | internal/exporter/collector_collect.go:68-103 | a scrape with no write in its window saw one state |
| Scrapes.TornScrapesExactly | internal/exporter/collector_collect.go:68-103 | a scrape is up without a snapshot, or the reverse, exactly when writes fall in its window and the last of them differs in success from the last before it |
| Scrapes.TornScrapeExists | internal/exporter/collector_collect.go:68-90 | any two attempts of different outcome can produce it: up without a snapshot, and a snapshot without up |
| Scrapes.LaterScrapesNeverFallBehind | README.md:196 | a scrape that starts after another ended never shows a smaller counter |
| Scrapes.TornInspectionExactly | internal/exporter/store.go:85-88 | for the real client, in any scrape the inspection gauge disagrees with the stored per-job data exactly when the last write in the window and the last before it differ in carrying such data |
| Jobs.ParseJobs | internal/pbs/snapshot_json.go:90-122 | in every iteration order each counter is the multiplicity of its key among the records |
| Jobs.FunctionOfRecords | internal/pbs/snapshot_json.go:102-119 | equal multisets of records give equal counts, whatever the ids and the order |
| Jobs.JobsConserved | internal/pbs/snapshot_json.go:102-105 | status counts and queue totals both sum to the number of jobs |
| Jobs.UserlessJobsAreTheGap | internal/pbs/snapshot_json.go:107-113 | user counts fall short of running counts by exactly the running jobs without a user |
| Jobs.LabelReached | internal/pbs/client.go:210-227 | each documented label is reached by its letter in either case or by spelling it out, and by nothing else |
| Jobs.StatusCountExactly | internal/pbs/client.go:210-227 | a status count is the jobs with its letter plus the jobs whose raw state already spells the label |
| Jobs.RunningStatusCount | internal/pbs/client.go:210-227 | the running status exceeds the running jobs by exactly the states already spelled "running" |
| Jobs.JobCountsMeaning | internal/pbs/snapshot_json.go:102-119 | each of the five counters holds, under every key, a number of jobs of the payload, and no entry for none |
| Jobs.OtherStatusesLowered | internal/pbs/client.go:224-226 | any other status is its own label, in lower case |
| QueueWaits.QueueWaitData.AddQueueWait | internal/pbs/client.go:188-208 | the queue's entry becomes the statistics of its waits with the new one; other queues stay |
| QueueWaits.ParseQueueWaits | internal/pbs/snapshot_json.go:124-148 | in every iteration order each queue's entry is the batch statistics of its eligible waits |
| QueueWaits.FunctionOfRecords | internal/pbs/snapshot_json.go:130-145 | equal multisets of records give equal tables |
| QueueWaits.EntriesAreDistributions | internal/pbs/client.go:76-87 | ten thresholds, non-decreasing counts, +Inf equal to the count, an attained maximum, a bounded sum, a full bucket iff the maximum fits |
| QueueWaits.QueueNeverOvercounted | internal/pbs/snapshot_json.go:102-145 | running plus wait-counted jobs of a queue never exceed its total, nor its waits the queued status |
| QueueWaits.CountMeaning | internal/pbs/snapshot_json.go:130-145 | a queue's entry counts the jobs of the payload that wait in it since a readable time |
| QueueWaits.BucketMeaning | internal/pbs/client.go:202-206 | each bucket counts those that have waited no longer than its threshold |
| QueueWaits.SumMeaning | internal/pbs/snapshot_json.go:140-144 | the sum is the total time from queueing to collection, future times counting as none |
| QueueWaits.OldestMeaning | internal/pbs/client.go:199-201 | the oldest wait is reached by a waiting job and exceeded by none |
| QueueWaits.LoneWait | internal/pbs/snapshot_json.go:135-144 | one job alone gives count one and exactly its own time, or zero |
| Inspection.ParseJobInspection | internal/pbs/job_inspection.go:196-251 | each job is the typed form of its record, in id order: usage only while running, waits only while queued |
| Inspection.InspectedTimes | internal/pbs/job_inspection.go:269-282 | an inspected job shows exactly the time since it was queued while queued, and since it started while running |
| Inspection.AggregateMatchesInspection | internal/pbs/job_inspection.go:243-282 | the map-walked aggregate equals the statistics of the inspected waits in every named queue, and in the unnamed one iff it has none |
| Inspection.JobIDIdempotent | internal/pbs/job_inspection.go:253-259 | normalising an id again changes nothing |
| Inspection.JobIDIsItsNumber | internal/pbs/job_inspection.go:253-259 | an id is the first number of the text, whatever stands around it |
| Inspection.OwnerLosesHost | internal/pbs/job_inspection.go:261-268 | an owner loses the last "@" and what follows it |
| Inspection.OwnerFixedPoints | internal/pbs/job_inspection.go:261-268 | owners left alone are exactly the unpadded ones without an "@" after the first character |
| Inspection.EmittedOwnerExactly | README.md:116 | the emitted owner is the documented single strip exactly for owners with at most one host suffix, no space before it |
| Inspection.TwoHostsLoseTwo | README.md:116 | the documented example is emitted as `foo` |
| Nodes.ParseNodes | internal/pbs/snapshot_json.go:204-251 | exactly the records with a known state are stored, and each counter is the number stored in its state |
| Nodes.StatesPartition | internal/pbs/snapshot_json.go:210-227 | the four counters add up to the records that are not state-unknown |
| Nodes.CountersMeaning | internal/pbs/snapshot_json.go:210-227 | each counter is the number of nodes of the payload that report its state, mixtures counting as busy and anything else as down |
| Nodes.StateMeaning | internal/pbs/client.go:229-239 | the stored state, from the reported text |
| Nodes.JobsMeaning | internal/pbs/snapshot_json.go:233-236 | the job count is the first positive of four fields, or else the number of listed jobs |
| Nodes.RecordsChosen | internal/pbs/snapshot_json.go:307-312 | the lower-case key wins unless it is empty |
| Nodes.FractionRoundTrip | internal/pbs/client.go:305-316 | printed free/total pairs read back |
| Nodes.NodeReadsBack | internal/pbs/snapshot_json.go:229-249 | printed CPU, GPU and memory pairs are read back, each number into its own field, whether they stand in the plain fields or in the "f/t" fields beside empty ones |
| Nodes.FirstTextWins | internal/pbs/snapshot_json.go:365-372 | blank candidates are passed over, the next one wins, whatever follows |
| Nodes.FirstPositiveIntWins | internal/pbs/snapshot_json.go:383-394 | unset and non-positive counts are passed over, the next one wins, else zero |
| Queues.ParseQueues | internal/pbs/snapshot_json.go:150-169 | one entry per record, as its count text, flags and first usable walltime say |
| Queues.ReportReadsBack | internal/pbs/snapshot_json.go:159-163 | running and queued are the last printed entries under their names |
| Queues.FlagsMeaning | internal/pbs/job_inspection.go:145-152 | the flags hold for five spellings, however padded and cased |
| Queues.WalltimeMeaning | internal/pbs/snapshot_json.go:164 | the first usable of maximum, default and available walltime, else zero |
| Queues.RecordsChosen | internal/pbs/snapshot_json.go:281-286 | the singular key wins unless it is empty |
| Queues.SummarizeQueues | internal/pbs/snapshot_json.go:267-279 | the summary is the sum over the queues in every iteration order |
| Queues.SummaryMeaning | internal/pbs/snapshot_json.go:267-279 | as whole numbers, the sums of running and of queued jobs |
| Client.Collect | internal/pbs/client_collection.go:15-59 | a base error fails; otherwise every part of the snapshot reflects one set of payloads, and inspection data is there iff inspection was tried without error |
| Client.SnapshotsAgree | internal/pbs/client_collection.go:21-36 | apart from the inspection data a snapshot is a function of the payloads, whatever orders the maps were walked in |
| Client.DetailsOnlyAddInspection | internal/pbs/client_collection.go:38-58 | whatever the detailed command answers, or if it is not run, only the inspection data can differ |
| Client.SnapshotAddsUp | internal/pbs/client_collection.go:21-36 | every snapshot conserves jobs, never overcounts a queue, publishes for each queue the distribution of its own records' waits, and counts exactly the nodes that are not state-unknown |
| NamedCounts.ParseNamedCounts | internal/pbs/snapshot_json.go:326-342 | the loop computes the meaning of the text |
| NamedCounts.CountsHomomorphism | internal/pbs/snapshot_json.go:326-342 | parsing texts joined by a separator overlays their maps |
| NamedCounts.MalformedFieldsAreInert | internal/pbs/snapshot_json.go:331-338 | unreadable text between two others has no effect |
| NamedCounts.RoundTripExactly | internal/pbs/snapshot_json.go:326-342 | printing pairs and parsing gives the last-wins map exactly when all keys are clean |
| Scalars.WalltimeRoundTrip | internal/pbs/client.go:241-259 | every zero-padded HH:MM:SS reads as set, to its exact seconds |
| Scalars.WalltimeRecovered | internal/pbs/job_inspection.go:170-181 | hours, minutes and seconds can be recovered from what is read |
| Scalars.MinutesRoundTrip | internal/pbs/client.go:253-257 | the shorter MM:SS form reads as set, to its exact seconds |
| Scalars.DurationSetExactly | internal/pbs/job_inspection.go:170-181 | a duration is set iff it is not zero or is one of three spellings of zero |
| Scalars.OtherPartsReadZero | internal/pbs/client.go:258 | any other number of parts reads as zero |
| Scalars.NumbersRead | internal/pbs/job_inspection.go:132-143 | digit texts are numbers; unset and empty scalars are none |
| Scalars.FirstDurationIsFirstUsable | internal/pbs/snapshot_json.go:344-355 | the first scalar set to a non-negative duration wins, else zero |
| Scalars.MemoryText | internal/pbs/client.go:261-294 | digits with any suffix, any letter case and padding, are number times factor |
| Scalars.MemoryFactors | internal/pbs/client.go:272-278 | the factors are the powers of 1024, written out |
| Scalars.MemoryAcceptedExactly | internal/pbs/client.go:296-303 | a digit text with any suffix, letter case and padding is accepted iff it is non-zero or spelled with the single digit 0 |
| Scalars.ReadersAgree | internal/pbs/job_inspection.go:183-194 | both byte readers accept the same texts with the same value |
| BucketConfig.ParseBucketCSV | internal/config/job_sample_buckets.go:158-175 | the list a text denotes, or none if any piece is blank or unreadable |
| BucketConfig.FormatBuckets | internal/config/job_sample_buckets.go:201-207 | the element texts in order, joined by commas |
| BucketConfig.ListRoundTrip | internal/config/job_sample_buckets.go:158-207 | formatting and parsing returns the list iff it is non-empty, when its element texts read back |
| BucketConfig.DefaultFlagsRoundTrip | internal/config/config.go:141-185 | holds for positive whole bounds as numbers and as byte sizes, the latter through the suffix-free branch |
| BucketConfig.ValidateBucketValues | internal/config/job_sample_buckets.go:122-139 | accepts exactly non-empty, positive, globally strictly increasing lists, and otherwise names the first offending position |
| Collector.CollectNodes | internal/exporter/collector_collect.go:131-194 | one block per node in some order; in every order the cluster totals are the sums, and used plus available is total |
| Collector.NodeAmountsAddUp | internal/exporter/collector_collect.go:149-162 | each node's emitted available, used and total amounts are labelled rightly and add up |
| Collector.HealthyCluster | internal/exporter/collector_collect.go:174-193 | if each node has 0 <= available <= total, cluster usage lies between 0 and the total |
| Collector.HealthyUtilization | internal/exporter/collector_collect.go:164-172 | and each emitted utilization lies in [0, 1] |
| Collector.CollectQueueWait | internal/exporter/collector_collect.go:218-236 | the series shown are the distribution of the queue's waits |
| Collector.QueueShowsItsWaits | internal/exporter/collector_collect.go:218-236 | from records to series: each queue shows its own waits, all zeros when it has none |
| Collector.QueueTotalMeaning | internal/exporter/collector_collect.go:204-210 | the emitted total counts the queue's job records, and falls back on its state counts only without any |
| Collector.CollectJobs | internal/exporter/collector_collect.go:106-129 | one series per counter key, the per-user ones only when enabled |
| Collector.FieldsShown | internal/exporter/job_inspection.go:170-205 | a per-job metric appears iff its field is set, with that value |
| Collector.FieldsFromPayload | internal/pbs/job_inspection.go:212-245 | from payload to series: each metric of an inspected job shows exactly what its documented payload field holds |
| Collector.RealUsageMeaning | internal/exporter/job_inspection.go:207-213 | real usage counts cores where PBS counts percent |
| Collector.EmittedLabels | internal/exporter/job_inspection.go:215-223 | the emitted id is one normalisation of the raw id; the owner only for single-host owners |
| Exposition.Collect | internal/exporter/collector_collect.go:68-103 | with the worker running between the reads, the series sent are those of the three states read |
| SeriesMeaning.StatusSeries | internal/exporter/collector_collect.go:68-84 | in every scrape each of the nine status series has exactly the value of its field |
| SeriesMeaning.HistogramSeries | internal/exporter/job_sample_histograms.go:197-209 | each metric carries exactly its own resource's histogram |
| SeriesMeaning.RunHistogramSeries | internal/exporter/job_sample_histograms.go:197-209 | after any run, the batch of the values requested of its own resource over its own buckets |
| SeriesMeaning.VersionSeries | internal/exporter/collector_collect.go:91-93 | the version is shown as a label unless empty |
| SeriesMeaning.JobCountSeries | internal/exporter/collector_collect.go:106-129 | from payload to scrape: the five job counts are numbers of jobs of the payload, shown only when positive, the per-user ones only when enabled |
| NodeMeaning.StateSeries | internal/exporter/collector_collect.go:136-139 | from payload to scrape: the nodes by reported state |
| NodeMeaning.NodeSeries | internal/exporter/collector_collect.go:145-172 | under each name exactly that node's state, jobs, nine amounts and used shares, and nothing for others |
| NodeMeaning.ClusterSeries | internal/exporter/collector_collect.go:185-193 | the nine cluster amounts are the sums over the nodes, in any order, each under its label |
| QueueMeaning.QueueSeries | internal/exporter/collector_collect.go:201-213 | under each queue exactly its counts, its total from the payload's jobs, its flags and its walltime |
| QueueMeaning.WaitSeries | internal/exporter/collector_collect.go:218-233 | from payload to scrape: every bucket is the number of jobs waiting no longer than its label says, the last bucket and the count are all of them |
| QueueMeaning.WaitSumSeries | internal/exporter/collector_collect.go:234 | the sum series is the total time waited |
| QueueMeaning.OldestWaitSeries | internal/exporter/collector_collect.go:235 | the oldest-wait series is the wait of a waiting job, exceeded by none |
| InspectionMeaning.JobValueSeries | internal/exporter/job_inspection.go:170-205 | from payload to scrape: a per-job series is sent iff a job of the payload has its labels and its value in the documented field |
| InspectionMeaning.JobInfoSeries | internal/exporter/job_inspection.go:177 | every job shown has one info series of value one, and no other labels do |
| Exposition.SeriesSplit | internal/exporter/collector_collect.go:96-103 | per-job series are exactly those of the snapshot read, and no other series depends on them |
| Exposition.InspectionLossIsLocal | README.md:104 | had the detailed command failed, the same series without the per-job ones would be a complete scrape |
| Exposition.InspectionGaugeTellsSeries | README.md:99-104 | for the real client, in any scrape per-job series appear iff enabled, there are jobs, and the gauge is up, or down in a scrape whose window tore the inspection data |
| Exposition.OtherSeriesDistinct | internal/exporter/collector_collect.go:68-94 | whatever was read, no two series outside the per-job ones share metric and labels |
| Identities.JobSeriesDistinct | internal/exporter/job_inspection.go:170-205 | per-job series are distinct iff no two jobs carry the same five labels |
| Exposition.ScrapeAcceptedExactly | internal/exporter/collector_collect.go:68-103 | a whole scrape repeats no series iff the jobs it shows differ in their labels |
| Exposition.PayloadAcceptedExactly | internal/pbs/job_inspection.go:212-218 | and iff no two jobs of the payload normalise to the same labels |
| Exposition.ArrayMembersCollide | internal/pbs/job_inspection.go:253-259 | two members of a job array that agree in queue, project, owner and state do |

## Left out

- The server payload and its metrics: one record copied field by field.
- Build information and the version command: constants and text from outside.
- Running PBS commands, timeouts, contexts, the ticker and logging: input and output; each attempt's outcome, start and duration are parameters.
- JSON and YAML decoding, flags and files: library behaviour; the model starts from decoded records and bucket texts.
- Duration buckets: `time.Duration` printing and parsing are library code; `BucketConfig.ListRoundTrip` covers them under its element hypothesis.
- Prometheus descriptors and the metric channel: emitted metrics are a sequence of values.
- Aliasing of snapshots: a snapshot is a value, so the worker's filling in of its collection time updates a copy, and later changes through another pointer cannot be expressed.
- The mutex: each locked section is one step of `Scrapes`, or one method call of the store; the lock itself is not modelled.
- Store.Worker.Run: covers finite prefixes of the ticker loop only, because the loop never ends on its own.
- Inspection.ParseJobInspection: the order of the ids is a parameter, because sorting is library code.
- BucketConfig.DefaultFlagsRoundTrip: leaves the duration flag to the element hypothesis of `BucketConfig.ListRoundTrip`, because duration texts are library code.
- Client.Collect: without the server record, which is copied field by field; the version text is a parameter.
- Exposition.Collect: without the build information and server series, which are one constant and one copied record.
