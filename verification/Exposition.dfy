/** One whole scrape: three reads of the store, the worker possibly running in between, and the series sent. */
module Exposition {
  import opened Wrappers
  import opened Bags
  import opened Text
  import opened Scalars
  import opened Jobs
  import opened QueueWaits
  import opened Nodes
  import opened Queues
  import opened Inspection
  import opened Histograms
  import opened Client
  import opened Store
  import opened Runs
  import opened Scrapes
  import opened Collector
  import opened Identities

  function StatusSamples(s: Status, unix: Time -> real): seq<Sample> {
    [Gauge(ExporterUp, [], BoolFloat(s.up)),
     Gauge(CollectErrorsTotal, [], s.collectErrorsTotal as real),
     Gauge(LastCollectDuration, [], Seconds(s.lastCollectDuration)),
     Gauge(LastCollectTimestamp, [], UnixOrZero(s.lastCollect, unix)),
     Gauge(LastCollectSuccessTimestamp, [], UnixOrZero(s.lastCollectSuccess, unix)),
     Gauge(SnapshotTimestamp, [], UnixOrZero(s.snapshotTimestamp, unix)),
     Gauge(Metric.JobInspectionUp, [], BoolFloat(s.jobInspectionUp)),
     Gauge(Metric.JobInspectionErrorsTotal, [], s.jobInspectionErrorsTotal as real),
     Gauge(JobInspectionLastSuccess, [], UnixOrZero(s.jobInspectionLastSuccess, unix))]
  }

  function HistogramSamples(snapshots: Option<SampleSnapshots>): seq<Sample> {
    match snapshots
    case None => []
    case Some(s) =>
      [Distribution(SampleDistribution(CPU), s.cpu), Distribution(SampleDistribution(Memory), s.memory),
       Distribution(SampleDistribution(Walltime), s.walltime), Distribution(SampleDistribution(MPI), s.mpi),
       Distribution(SampleDistribution(Resource.Nodes), s.nodes), Distribution(SampleDistribution(GPU), s.gpu)]
  }

  /** The aggregate blocks of a snapshot. */
  datatype Base = Base(version: seq<Sample>, jobs: JobParts, nodes: seq<Sample>, cluster: Cluster, queues: seq<Sample>) {
    function All(): seq<Sample> {
      version + jobs.All() + nodes + queues
    }
  }

  const NOTHING := Base([], JobParts([], [], [], [], []), [], Cluster(0, 0, 0, 0, 0, 0, 0.0, 0.0, 0.0), [])

  ghost predicate IsBase(base: Base, s: Snapshot, options: Options) {
    && base.version == (if s.version != "" then [Gauge(ServerVersionInfo, [s.version], 1.0)] else [])
    && (s.jobs.None? ==> base.jobs == NOTHING.jobs)
    && (s.jobs.Some? ==> IsJobExposition(base.jobs, s.jobs.value, options))
    && (s.nodes.None? ==> base.nodes == [])
    && (s.nodes.Some? ==>
         && IsNodeExposition(base.nodes, s.nodes.value, base.cluster)
         && forall order, infos :: Delivers(s.nodes.value.nodes, order, infos) ==> IsCluster(base.cluster, infos))
    && (s.queues.None? ==> base.queues == [])
    && (s.queues.Some? ==> Covers(base.queues, s.queues.value, QueueSamples(s.jobs, s.queueWaits)))
  }

  /** The jobs a scrape of this snapshot shows one by one. */
  function ShownJobs(s: Option<Snapshot>, options: Options): seq<InspectedJob> {
    if options.includeJobInspectionMetrics && CarriesJobs(s) then s.value.jobInspection.value else []
  }

  /** The per-job series a snapshot gives rise to. */
  function PerJobSeries(s: Option<Snapshot>, options: Options): seq<Sample> {
    JobSeries(ShownJobs(s, options))
  }

  /** What a scrape that read these three values sends. */
  ghost predicate IsExposition(
      samples: seq<Sample>, base: Base, status: Status, histograms: Option<SampleSnapshots>, snapshot: Option<Snapshot>,
      options: Options, unix: Time -> real)
  {
    && (snapshot.None? ==> base == NOTHING)
    && (snapshot.Some? ==> IsBase(base, snapshot.value, options))
    && samples == StatusSamples(status, unix) + HistogramSamples(histograms) + base.All() + PerJobSeries(snapshot, options)
  }

  method CollectBase(s: Snapshot, options: Options) returns (base: Base)
    ensures IsBase(base, s, options)
  {
    base := NOTHING;
    if s.version != "" {
      base := base.(version := [Gauge(ServerVersionInfo, [s.version], 1.0)]);
    }
    if s.jobs.Some? {
      var parts := CollectJobs(s.jobs.value, options);
      base := base.(jobs := parts);
    }
    if s.nodes.Some? {
      var nodes, cluster := CollectNodes(s.nodes.value);
      base := base.(nodes := nodes, cluster := cluster);
    }
    if s.queues.Some? {
      var queues := CollectQueues(s.queues.value, s.jobs, s.queueWaits);
      base := base.(queues := queues);
    }
  }

  /** Everything after the scrape's last read. */
  method CollectSnapshot(snapshot: Option<Snapshot>, options: Options) returns (samples: seq<Sample>, base: Base)
    ensures snapshot.None? ==> base == NOTHING
    ensures snapshot.Some? ==> IsBase(base, snapshot.value, options)
    ensures samples == base.All() + PerJobSeries(snapshot, options)
  {
    if snapshot.None? {
      return [], NOTHING;
    }
    base := CollectBase(snapshot.value, options);
    samples := base.All();
    if !options.includeJobInspectionMetrics || snapshot.value.jobInspection.None? {
      return;
    }
    var perJob := CollectJobInspection(snapshot.value.jobInspection.value);
    samples := samples + perJob;
  }

  /** `first` and `second` are the attempts the worker completes between the scrape's reads. */
  method Collect(worker: Worker, first: seq<Tick>, second: seq<Tick>, options: Options, unix: Time -> real)
    returns (samples: seq<Sample>, base: Base)
    requires worker.store.Valid()
    modifies worker.store.Footprint()
    ensures worker.store.Valid()
    ensures var s := old(worker.store.View());
      IsExposition(samples, base, s.status, ExportedSamples(RunFrom(s, first)), RunFrom(s, first + second).snapshot, options, unix)
  {
    ghost var s := worker.store.View();
    var status := worker.store.ReadStatus();
    worker.Run(first);
    var histograms := worker.store.ReadJobSampleHistograms();
    worker.Run(second);
    RunAppend(s, first, second);
    var snapshot := worker.store.ReadSnapshot();
    var rest;
    rest, base := CollectSnapshot(snapshot, options);
    Assembled(rest, base, status, histograms, snapshot, options, unix);
    samples := StatusSamples(status, unix) + HistogramSamples(histograms) + rest;
  }

  lemma Assembled(
      rest: seq<Sample>, base: Base, status: Status, histograms: Option<SampleSnapshots>, snapshot: Option<Snapshot>,
      options: Options, unix: Time -> real)
    requires snapshot.None? ==> base == NOTHING
    requires snapshot.Some? ==> IsBase(base, snapshot.value, options)
    requires rest == base.All() + PerJobSeries(snapshot, options)
    ensures IsExposition(
      StatusSamples(status, unix) + HistogramSamples(histograms) + rest, base, status, histograms, snapshot, options, unix)
  {
    var front := StatusSamples(status, unix) + HistogramSamples(histograms);
    assert front + rest == front + base.All() + PerJobSeries(snapshot, options);
  }

  // ----- which series appear -----

  predicate NoPerJob(samples: seq<Sample>) {
    forall i :: 0 <= i < |samples| ==> !samples[i].metric.PerJob()
  }

  predicate OnlyPerJob(samples: seq<Sample>) {
    forall i :: 0 <= i < |samples| ==> samples[i].metric.PerJob()
  }

  lemma StatusBlock(status: Status, unix: Time -> real, histograms: Option<SampleSnapshots>)
    ensures IsBlock(StatusSamples(status, unix) + HistogramSamples(histograms), [], 0, 10)
  {
    NineBlock(StatusSamples(status, unix));
    DistributionsBlock(histograms);
    Chain(StatusSamples(status, unix), HistogramSamples(histograms), [], 0, 9, 10);
  }

  lemma NineBlock(samples: seq<Sample>)
    requires |samples| == 9 && forall i :: 0 <= i < 9 ==> Rank(samples[i].metric) == i
    ensures IsBlock(samples, [], 0, 9)
  {
    forall i, j | 0 <= i < j < 9 ensures !SameSeries(samples[i], samples[j]) {
      assert Rank(samples[i].metric) != Rank(samples[j].metric);
    }
  }

  lemma DistributionsBlock(histograms: Option<SampleSnapshots>)
    ensures IsBlock(HistogramSamples(histograms), [], 9, 10)
  {
  }

  lemma BaseBlock(base: Base, s: Snapshot, options: Options)
    requires IsBase(base, s, options)
    ensures IsBlock(base.All(), [], 10, PER_JOB)
  {
    VersionBlock(s.version);
    if s.jobs.Some? {
      JobCountsBlock(base.jobs, s.jobs.value, options);
    }
    if s.nodes.Some? {
      NodesBlock(base.nodes, s.nodes.value, base.cluster);
    }
    if s.queues.Some? {
      QueuesBlock(base.queues, s.queues.value, s.jobs, s.queueWaits);
    }
    FourBlocks(base.version, base.jobs.All(), base.nodes, base.queues);
  }

  lemma VersionBlock(version: string)
    ensures IsBlock(if version != "" then [Gauge(ServerVersionInfo, [version], 1.0)] else [], [], 10, 11)
  {
  }

  lemma FourBlocks(version: seq<Sample>, jobs: seq<Sample>, nodes: seq<Sample>, queues: seq<Sample>)
    requires IsBlock(version, [], 10, 11) && IsBlock(jobs, [], 11, 16)
    requires IsBlock(nodes, [], 16, 28) && IsBlock(queues, [], 28, PER_JOB)
    ensures IsBlock(version + jobs + nodes + queues, [], 10, PER_JOB)
  {
    ChainThree(version, jobs, nodes, [], 10, 11, 16, 28);
    Chain(version + jobs + nodes, queues, [], 10, 28, PER_JOB);
  }

  lemma FrontBlock(
      base: Base, status: Status, histograms: Option<SampleSnapshots>, snapshot: Option<Snapshot>,
      options: Options, unix: Time -> real)
    requires snapshot.None? ==> base == NOTHING
    requires snapshot.Some? ==> IsBase(base, snapshot.value, options)
    ensures IsBlock(StatusSamples(status, unix) + HistogramSamples(histograms) + base.All(), [], 0, PER_JOB)
  {
    StatusBlock(status, unix, histograms);
    if snapshot.Some? {
      BaseBlock(base, snapshot.value, options);
    }
    Chain(StatusSamples(status, unix) + HistogramSamples(histograms), base.All(), [], 0, 10, PER_JOB);
  }

  lemma BlockFamily(samples: seq<Sample>, prefix: seq<string>, low: nat, high: nat)
    requires IsBlock(samples, prefix, low, high)
    ensures high <= PER_JOB ==> NoPerJob(samples)
    ensures PER_JOB <= low ==> OnlyPerJob(samples)
  {
    forall i | 0 <= i < |samples| ensures low <= Rank(samples[i].metric) < high {
    }
  }

  lemma {:induction false} JobSeriesOnlyPerJob(jobs: seq<InspectedJob>)
    ensures OnlyPerJob(JobSeries(jobs)) && |JobSeries(jobs)| >= |jobs|
  {
    if jobs != [] {
      var job := jobs[|jobs| - 1];
      JobSeriesOnlyPerJob(jobs[..|jobs| - 1]);
      JobBlock(job);
      InfoComesFirst(job);
      BlockFamily(JobSamples(job), JobLabels(job), PER_JOB, TOP);
    }
  }

  function PerJobOnly(s: Sample): Option<Sample> {
    if s.metric.PerJob() then Some(s) else None
  }

  function OtherOnly(s: Sample): Option<Sample> {
    if s.metric.PerJob() then None else Some(s)
  }

  lemma {:induction false} FilterPerJob(samples: seq<Sample>)
    ensures NoPerJob(samples) ==> FilterMap(samples, PerJobOnly) == [] && FilterMap(samples, OtherOnly) == samples
    ensures OnlyPerJob(samples) ==> FilterMap(samples, PerJobOnly) == samples && FilterMap(samples, OtherOnly) == []
  {
    if samples != [] {
      FilterPerJob(samples[1..]);
      assert samples == [samples[0]] + samples[1..];
    }
  }

  /** The per-job series of a scrape are exactly those of the snapshot it read; everything else is independent of them. */
  lemma SeriesSplit(
      samples: seq<Sample>, base: Base, status: Status, histograms: Option<SampleSnapshots>, snapshot: Option<Snapshot>,
      options: Options, unix: Time -> real)
    requires IsExposition(samples, base, status, histograms, snapshot, options, unix)
    ensures FilterMap(samples, PerJobOnly) == PerJobSeries(snapshot, options)
    ensures FilterMap(samples, OtherOnly) == StatusSamples(status, unix) + HistogramSamples(histograms) + base.All()
  {
    var front := StatusSamples(status, unix) + HistogramSamples(histograms) + base.All();
    FrontBlock(base, status, histograms, snapshot, options, unix);
    BlockFamily(front, [], 0, PER_JOB);
    JobSeriesOnlyPerJob(ShownJobs(snapshot, options));
    FilterPerJob(front);
    FilterPerJob(PerJobSeries(snapshot, options));
    FilterMapAppend(front, PerJobSeries(snapshot, options), PerJobOnly);
    FilterMapAppend(front, PerJobSeries(snapshot, options), OtherOnly);
  }

  /** What remains of a scrape without its per-job series is a complete exposition of the same snapshot without jobs. */
  lemma RestIsComplete(
      samples: seq<Sample>, base: Base, status: Status, histograms: Option<SampleSnapshots>, snapshot: Snapshot,
      options: Options, unix: Time -> real)
    requires IsExposition(samples, base, status, histograms, Some(snapshot), options, unix)
    ensures IsExposition(FilterMap(samples, OtherOnly), base, status, histograms,
                         Some(snapshot.(jobInspection := None)), options, unix)
  {
    SeriesSplit(samples, base, status, histograms, Some(snapshot), options, unix);
    BaseIgnoresInspection(base, snapshot, options);
  }

  lemma BaseIgnoresInspection(base: Base, s: Snapshot, options: Options)
    requires IsBase(base, s, options)
    ensures IsBase(base, s.(jobInspection := None), options)
  {
  }

  /**
   Take any scrape of the snapshot stored after an attempt. Had the detailed command failed in that
   attempt, the same series without the per-job ones would be a complete scrape.
   */
  lemma InspectionLossIsLocal(
      s: StoreState, good: Tick, bad: Tick, i: Inputs, tried: bool, detail: DetailAnswer, cause: string,
      samples: seq<Sample>, base: Base, status: Status, histograms: Option<SampleSnapshots>,
      options: Options, unix: Time -> real)
    requires Answers(good.outcome, i, tried, detail) && Answers(bad.outcome, i, true, DetailError(cause))
    requires i.base.BasePayloads? && good.started == bad.started && good.duration == bad.duration
    requires IsExposition(samples, base, status, histograms, Step(s, good).snapshot, options, unix)
    ensures IsExposition(FilterMap(samples, OtherOnly), base, status, histograms, Step(s, bad).snapshot, options, unix)
  {
    FailedInspectionKeepsBase(s, good, bad, i, tried, detail, cause);
    RestIsComplete(samples, base, status, histograms, Step(s, good).snapshot.value, options, unix);
  }

  lemma PerJobSeriesAppear(s: Option<Snapshot>, options: Options)
    ensures PerJobSeries(s, options) != [] <==>
      options.includeJobInspectionMetrics && CarriesJobs(s) && s.value.jobInspection != Some([])
  {
    JobSeriesOnlyPerJob(ShownJobs(s, options));
  }

  /**
   With the real client's data, per-job series appear exactly when they are enabled, there are jobs
   and the gauge says so; only between writes that differ in carrying jobs does the gauge say the opposite.
   */
  lemma InspectionGaugeTellsSeries(
      config: SampleConfig, events: seq<Event>, id: ScrapeId, scrape: Progress, p: nat, q: nat, r: nat,
      samples: seq<Sample>, base: Base, options: Options, unix: Time -> real)
    requires scrape.Finished? && ReadAt(Configured(config), events, id, scrape, p, q, r)
    requires forall i :: 0 <= i < |Ticks(events)| ==> ClientShape(Ticks(events)[i].outcome)
    requires IsExposition(samples, base, scrape.status, scrape.samples, scrape.snapshot, options, unix)
    ensures FilterMap(samples, PerJobOnly) != [] <==>
      && options.includeJobInspectionMetrics && scrape.status.jobInspectionUp != JobsTorn(events, p, r)
      && scrape.snapshot.Some? && scrape.snapshot.value.jobInspection != Some([])
  {
    TornInspectionExactly(config, events, id, scrape, p, q, r);
    SeriesSplit(samples, base, scrape.status, scrape.samples, scrape.snapshot, options, unix);
    PerJobSeriesAppear(scrape.snapshot, options);
  }

  // ----- no series twice -----

  /** Whatever was read, the series other than the per-job ones never repeat. */
  lemma OtherSeriesDistinct(
      samples: seq<Sample>, base: Base, status: Status, histograms: Option<SampleSnapshots>, snapshot: Option<Snapshot>,
      options: Options, unix: Time -> real)
    requires IsExposition(samples, base, status, histograms, snapshot, options, unix)
    ensures DistinctSeries(FilterMap(samples, OtherOnly))
  {
    SeriesSplit(samples, base, status, histograms, snapshot, options, unix);
    FrontBlock(base, status, histograms, snapshot, options, unix);
  }

  /** A scrape repeats no series, and so is accepted, exactly when the jobs it shows differ in their labels. */
  lemma ScrapeAcceptedExactly(
      samples: seq<Sample>, base: Base, status: Status, histograms: Option<SampleSnapshots>, snapshot: Option<Snapshot>,
      options: Options, unix: Time -> real)
    requires IsExposition(samples, base, status, histograms, snapshot, options, unix)
    ensures DistinctSeries(samples) <==> Distinct(AllLabels(ShownJobs(snapshot, options)))
  {
    var jobs := ShownJobs(snapshot, options);
    var front := StatusSamples(status, unix) + HistogramSamples(histograms) + base.All();
    FrontBlock(base, status, histograms, snapshot, options, unix);
    BlockFamily(front, [], 0, PER_JOB);
    JobSeriesOnlyPerJob(jobs);
    FamiliesDiffer(front, JobSeries(jobs));
    DistinctAppend(front, JobSeries(jobs));
    JobSeriesDistinct(jobs);
  }

  lemma FamiliesDiffer(a: seq<Sample>, b: seq<Sample>)
    requires NoPerJob(a) && OnlyPerJob(b)
    ensures NothingShared(a, b)
  {
  }

  /** The label values a job of the payload ends up with. */
  function LabelsFrom(id: string, record: InspectionRecord): seq<string> {
    [NormalizeJobID(id), record.queue, record.project, NormalizeJobOwner(NormalizeJobOwner(record.jobOwner)), record.jobState]
  }

  /** No two jobs of the payload end up with the same labels. */
  predicate NoCollision(payload: map<string, InspectionRecord>) {
    forall a, b :: a in payload && b in payload && a != b ==> LabelsFrom(a, payload[a]) != LabelsFrom(b, payload[b])
  }

  /** In terms of the payload: no two ids may normalise alike beside equal other labels. */
  lemma LabelsDistinctExactly(
      jobs: seq<InspectedJob>, payload: map<string, InspectionRecord>, jobIDs: seq<string>,
      collectedAt: Time, parseQtime: TimeParser, pf: FloatParser)
    requires IsOrder(jobIDs, payload.Keys) && IsInspection(jobs, payload, jobIDs, collectedAt, parseQtime, pf)
    ensures Distinct(AllLabels(jobs)) <==> NoCollision(payload)
  {
    InspectedLabels(jobs, payload, jobIDs, collectedAt, parseQtime, pf);
    OrderHasKeys(jobIDs, payload.Keys);
    OrderDistinct(jobIDs, payload.Keys);
    var labels := PayloadLabels(payload);
    SameCollisions(AllLabels(jobs), labels, jobIDs);
    CollisionsInMap(payload, labels);
  }

  function PayloadLabels(payload: map<string, InspectionRecord>): (labels: map<string, seq<string>>)
    ensures labels.Keys == payload.Keys && forall id :: id in payload ==> labels[id] == LabelsFrom(id, payload[id])
  {
    map id | id in payload :: LabelsFrom(id, payload[id])
  }

  lemma InspectedLabels(
      jobs: seq<InspectedJob>, payload: map<string, InspectionRecord>, jobIDs: seq<string>,
      collectedAt: Time, parseQtime: TimeParser, pf: FloatParser)
    requires IsInspection(jobs, payload, jobIDs, collectedAt, parseQtime, pf)
    ensures forall i :: 0 <= i < |jobIDs| ==> AllLabels(jobs)[i] == PayloadLabels(payload)[jobIDs[i]]
  {
    forall i | 0 <= i < |jobIDs| ensures AllLabels(jobs)[i] == PayloadLabels(payload)[jobIDs[i]] {
      LabelsOfInspected(jobs[i], jobIDs[i], payload[jobIDs[i]], collectedAt, parseQtime, pf);
    }
  }

  lemma LabelsOfInspected(
      job: InspectedJob, id: string, record: InspectionRecord, collectedAt: Time, parseQtime: TimeParser, pf: FloatParser)
    requires Describes(job, id, record, collectedAt, parseQtime, pf)
    ensures JobLabels(job) == LabelsFrom(id, record)
  {
    JobIDIdempotent(id);
  }

  lemma CollisionsInMap(payload: map<string, InspectionRecord>, labels: map<string, seq<string>>)
    requires labels.Keys == payload.Keys && forall id :: id in payload ==> labels[id] == LabelsFrom(id, payload[id])
    ensures NoCollision(payload) <==> forall a, b :: a in labels && b in labels && a != b ==> labels[a] != labels[b]
  {
  }

  lemma SameCollisions(all: seq<seq<string>>, labels: map<string, seq<string>>, jobIDs: seq<string>)
    requires Distinct(jobIDs) && (forall id :: id in jobIDs <==> id in labels)
    requires |all| == |jobIDs| && forall i :: 0 <= i < |jobIDs| ==> all[i] == labels[jobIDs[i]]
    ensures Distinct(all) <==> forall a, b :: a in labels && b in labels && a != b ==> labels[a] != labels[b]
  {
    if Distinct(all) {
      forall a, b | a in labels && b in labels && a != b ensures labels[a] != labels[b] {
        var i :| 0 <= i < |jobIDs| && jobIDs[i] == a;
        var j :| 0 <= j < |jobIDs| && jobIDs[j] == b;
        assert all[i] != all[j];
      }
    } else {
      var i, j :| 0 <= i < j < |all| && all[i] == all[j];
      assert jobIDs[i] in jobIDs && jobIDs[j] in jobIDs && jobIDs[i] != jobIDs[j];
    }
  }

  /** From payload to scrape: with per-job metrics on, a scrape is accepted exactly when no two jobs collide. */
  lemma PayloadAcceptedExactly(
      samples: seq<Sample>, base: Base, status: Status, histograms: Option<SampleSnapshots>, snapshot: Snapshot,
      options: Options, unix: Time -> real,
      payload: map<string, InspectionRecord>, jobIDs: seq<string>, parseQtime: TimeParser, pf: FloatParser)
    requires IsExposition(samples, base, status, histograms, Some(snapshot), options, unix)
    requires options.includeJobInspectionMetrics && snapshot.jobInspection.Some? && IsOrder(jobIDs, payload.Keys)
    requires IsInspection(snapshot.jobInspection.value, payload, jobIDs, snapshot.collectedAt, parseQtime, pf)
    ensures DistinctSeries(samples) <==> NoCollision(payload)
  {
    ScrapeAcceptedExactly(samples, base, status, histograms, Some(snapshot), options, unix);
    LabelsDistinctExactly(snapshot.jobInspection.value, payload, jobIDs, snapshot.collectedAt, parseQtime, pf);
  }

  /** Two members of a job array that agree in everything else end up with the same labels. */
  lemma ArrayMembersCollide(record: InspectionRecord)
    ensures !NoCollision(map["12[1].pbs" := record, "12[2].pbs" := record])
  {
    NumberOfMember("12[1].pbs");
    NumberOfMember("12[2].pbs");
    assert "12[1].pbs"[3] != "12[2].pbs"[3];
    var payload := map["12[1].pbs" := record, "12[2].pbs" := record];
    assert "12[1].pbs" in payload && "12[2].pbs" in payload;
    assert LabelsFrom("12[1].pbs", payload["12[1].pbs"]) == LabelsFrom("12[2].pbs", payload["12[2].pbs"]);
  }

  lemma NumberOfMember(id: string)
    requires |id| == 9 && id[0] == '1' && id[1] == '2' && id[2] == '[' && id[8] == 's'
    ensures NormalizeJobID(id) == "12"
  {
    TrimSpaceShape(id);
    assert id[1..][0] == '2' && id[1..][1..][0] == '[';
    assert DigitRun(id[1..][1..]) == "" && DigitRun(id[1..]) == "2";
  }
}
