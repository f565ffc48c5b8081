/** What the series of a scrape show, metric by metric: of the three values read, and of the payloads behind them. */
module SeriesMeaning {
  import opened Wrappers
  import opened Bags
  import opened Text
  import opened Scalars
  import opened Jobs
  import opened QueueWaits
  import opened Nodes
  import opened Queues
  import opened Inspection
  import opened Histograms
  import opened Client
  import opened Store
  import opened Runs
  import opened Scrapes
  import opened Collector
  import opened Identities
  import opened Exposition

  /** One scrape and the three values it read. */
  datatype Scrape = Scrape(
    samples: seq<Sample>, base: Base, status: Status, histograms: Option<SampleSnapshots>, snapshot: Option<Snapshot>,
    options: Options, unix: Time -> real)
  {
    ghost predicate Valid() {
      IsExposition(samples, base, status, histograms, snapshot, options, unix)
    }
  }

  // ----- where a series can stand -----

  /** Of the metrics in a range of ranks, the samples hold exactly what `block` holds. */
  ghost predicate Carries(samples: seq<Sample>, block: seq<Sample>, low: nat, high: nat) {
    forall s: Sample {:trigger s in samples} :: low <= Rank(s.metric) < high ==> (s in samples <==> s in block)
  }

  lemma InBlock(samples: seq<Sample>, prefix: seq<string>, low: nat, high: nat, s: Sample)
    requires IsBlock(samples, prefix, low, high)
    ensures s in samples ==> low <= Rank(s.metric) < high
  {
    if s in samples {
      var i :| 0 <= i < |samples| && samples[i] == s;
      assert low <= Rank(samples[i].metric) < high;
    }
  }

  /** Of four blocks in ranking order, each is carried by the whole. */
  lemma CarriesFour(
      a: seq<Sample>, b: seq<Sample>, c: seq<Sample>, d: seq<Sample>, r0: nat, r1: nat, r2: nat, r3: nat, r4: nat)
    requires r0 <= r1 <= r2 <= r3 <= r4
    requires IsBlock(a, [], r0, r1) && IsBlock(b, [], r1, r2) && IsBlock(c, [], r2, r3)
    requires forall s :: s in d ==> r3 <= Rank(s.metric) < r4
    ensures Carries(a + b + c + d, a, r0, r1) && Carries(a + b + c + d, b, r1, r2)
    ensures Carries(a + b + c + d, c, r2, r3) && Carries(a + b + c + d, d, r3, r4)
  {
    forall s: Sample
      ensures s in a ==> r0 <= Rank(s.metric) < r1
      ensures s in b ==> r1 <= Rank(s.metric) < r2
      ensures s in c ==> r2 <= Rank(s.metric) < r3
      ensures s in a + b + c + d <==> s in a || s in b || s in c || s in d
    {
      InBlock(a, [], r0, r1, s);
      InBlock(b, [], r1, r2, s);
      InBlock(c, [], r2, r3, s);
    }
  }

  lemma CarriesPart(samples: seq<Sample>, block: seq<Sample>, low: nat, high: nat, part: seq<Sample>, from: nat, to: nat)
    requires Carries(samples, block, low, high) && Carries(block, part, from, to) && low <= from && to <= high
    ensures Carries(samples, part, from, to)
  {
  }

  lemma RanksOfBlock(samples: seq<Sample>, low: nat, high: nat)
    requires IsBlock(samples, [], low, high)
    ensures forall s :: s in samples ==> low <= Rank(s.metric) < high
  {
    forall s | s in samples ensures low <= Rank(s.metric) < high {
      InBlock(samples, [], low, high, s);
    }
  }

  lemma RanksOfJobs(jobs: seq<InspectedJob>)
    ensures forall s :: s in JobSeries(jobs) ==> PER_JOB <= Rank(s.metric) < TOP
  {
    JobSeriesOnlyPerJob(jobs);
  }

  lemma BaseAllBlock(base: Base, snapshot: Option<Snapshot>, options: Options)
    requires snapshot.None? ==> base == NOTHING
    requires snapshot.Some? ==> IsBase(base, snapshot.value, options)
    ensures IsBlock(base.All(), [], 10, PER_JOB)
  {
    if snapshot.Some? {
      BaseBlock(base, snapshot.value, options);
    }
  }

  /** The four parts of a scrape. */
  lemma PartsOfScrape(c: Scrape)
    requires c.Valid()
    ensures Carries(c.samples, StatusSamples(c.status, c.unix), 0, 9)
    ensures Carries(c.samples, HistogramSamples(c.histograms), 9, 10)
    ensures Carries(c.samples, c.base.All(), 10, PER_JOB)
    ensures Carries(c.samples, PerJobSeries(c.snapshot, c.options), PER_JOB, TOP)
  {
    BaseAllBlock(c.base, c.snapshot, c.options);
    FourOfScrape(c.status, c.unix, c.histograms, c.base.All(), ShownJobs(c.snapshot, c.options));
  }

  lemma FourOfScrape(
      s: Status, unix: Time -> real, histograms: Option<SampleSnapshots>, base: seq<Sample>, jobs: seq<InspectedJob>)
    requires IsBlock(base, [], 10, PER_JOB)
    ensures var samples := StatusSamples(s, unix) + HistogramSamples(histograms) + base + JobSeries(jobs);
      && Carries(samples, StatusSamples(s, unix), 0, 9) && Carries(samples, HistogramSamples(histograms), 9, 10)
      && Carries(samples, base, 10, PER_JOB) && Carries(samples, JobSeries(jobs), PER_JOB, TOP)
  {
    NineBlock(StatusSamples(s, unix));
    DistributionsBlock(histograms);
    RanksOfJobs(jobs);
    CarriesFour(StatusSamples(s, unix), HistogramSamples(histograms), base, JobSeries(jobs), 0, 9, 10, PER_JOB, TOP);
  }

  /** The four parts of a snapshot's aggregates. */
  lemma PartsOfBase(base: Base, s: Snapshot, options: Options)
    requires IsBase(base, s, options)
    ensures Carries(base.All(), base.version, 10, 11) && Carries(base.All(), base.jobs.All(), 11, 16)
    ensures Carries(base.All(), base.nodes, 16, 28) && Carries(base.All(), base.queues, 28, PER_JOB)
  {
    VersionBlock(s.version);
    if s.jobs.Some? {
      JobCountsBlock(base.jobs, s.jobs.value, options);
    }
    if s.nodes.Some? {
      NodesBlock(base.nodes, s.nodes.value, base.cluster);
    }
    if s.queues.Some? {
      QueuesBlock(base.queues, s.queues.value, s.jobs, s.queueWaits);
    }
    RanksOfBlock(base.queues, 28, PER_JOB);
    CarriesFour(base.version, base.jobs.All(), base.nodes, base.queues, 10, 11, 16, 28, PER_JOB);
  }

  lemma SnapshotCarried(c: Scrape)
    requires c.Valid() && c.snapshot.Some?
    ensures Carries(c.samples, c.base.version, 10, 11) && Carries(c.samples, c.base.jobs.All(), 11, 16)
    ensures Carries(c.samples, c.base.nodes, 16, 28) && Carries(c.samples, c.base.queues, 28, PER_JOB)
    ensures IsBase(c.base, c.snapshot.value, c.options)
  {
    PartsOfScrape(c);
    PartsOfBase(c.base, c.snapshot.value, c.options);
    CarriesPart(c.samples, c.base.All(), 10, PER_JOB, c.base.version, 10, 11);
    CarriesPart(c.samples, c.base.All(), 10, PER_JOB, c.base.jobs.All(), 11, 16);
    CarriesPart(c.samples, c.base.All(), 10, PER_JOB, c.base.nodes, 16, 28);
    CarriesPart(c.samples, c.base.All(), 10, PER_JOB, c.base.queues, 28, PER_JOB);
  }

  // ----- series per map key -----

  lemma {:induction false} InSeries<V>(m: map<string, V>, order: seq<string>, emit: (string, V) -> seq<Sample>, s: Sample)
    requires forall k :: k in order ==> k in m
    ensures s in Series(m, order, emit) <==> exists k :: k in order && s in emit(k, m[k])
  {
    if order != [] {
      var front, last := order[..|order| - 1], order[|order| - 1];
      InSeries(m, front, emit, s);
      assert order == front + [last];
    }
  }

  /** Of series keyed by their first label, those under a key are that key's block. */
  lemma UnderKey<V>(
      samples: seq<Sample>, m: map<string, V>, emit: (string, V) -> seq<Sample>, low: nat, high: nat, key: string, s: Sample)
    requires Covers(samples, m, emit) && forall k, v :: IsBlock(emit(k, v), [k], low, high)
    requires [key] <= LabelsOf(s)
    ensures s in samples <==> key in m && s in emit(key, m[key])
  {
    var order :| IsOrder(order, m.Keys) && (forall k :: k in order ==> k in m) && samples == Series(m, order, emit);
    OrderHasKeys(order, m.Keys);
    InSeries(m, order, emit, s);
    forall k | k in order && s in emit(k, m[k]) ensures k == key {
      BlockPrefix(emit(k, m[k]), [k], low, high);
      assert LabelsOf(s)[0] == k;
    }
  }

  /** Of the metrics in a range of ranks and under one key, the samples hold what `block` holds, if the key is present. */
  ghost predicate KeyCarries(samples: seq<Sample>, present: bool, block: seq<Sample>, key: string, low: nat, high: nat) {
    forall s: Sample {:trigger s in samples} ::
      low <= Rank(s.metric) < high && [key] <= LabelsOf(s) ==> (s in samples <==> present && s in block)
  }

  lemma KeyOfCover<V>(
      samples: seq<Sample>, m: map<string, V>, emit: (string, V) -> seq<Sample>, low: nat, high: nat, key: string, v: V)
    requires Covers(samples, m, emit) && forall k, w :: IsBlock(emit(k, w), [k], low, high)
    requires v == GetOr(m, key, v)
    ensures KeyCarries(samples, key in m, emit(key, v), key, low, high)
  {
    forall s: Sample | [key] <= LabelsOf(s) ensures s in samples <==> key in m && s in emit(key, v) {
      UnderKey(samples, m, emit, low, high, key, s);
    }
  }

  lemma KeyOfPart(
      samples: seq<Sample>, part: seq<Sample>, present: bool, block: seq<Sample>, key: string, low: nat, high: nat,
      from: nat, to: nat)
    requires Carries(samples, part, from, to) && KeyCarries(part, present, block, key, low, high)
    requires from <= low && high <= to
    ensures KeyCarries(samples, present, block, key, low, high)
  {
  }

  // ----- status and histograms -----

  /** The two flags and the two counters of a status. */
  predicate ShowsFlags(samples: seq<Sample>, s: Status, v: real) {
    && (Gauge(ExporterUp, [], v) in samples <==> v == if s.up then 1.0 else 0.0)
    && (Gauge(Metric.JobInspectionUp, [], v) in samples <==> v == if s.jobInspectionUp then 1.0 else 0.0)
    && (Gauge(CollectErrorsTotal, [], v) in samples <==> v == s.collectErrorsTotal as real)
    && (Gauge(Metric.JobInspectionErrorsTotal, [], v) in samples <==> v == s.jobInspectionErrorsTotal as real)
  }

  /** Its duration in seconds, and its four timestamps, zero times as zero. */
  predicate ShowsTimes(samples: seq<Sample>, s: Status, unix: Time -> real, v: real) {
    && (Gauge(LastCollectDuration, [], v) in samples <==> v * 1000000000.0 == s.lastCollectDuration as real)
    && (Gauge(LastCollectTimestamp, [], v) in samples <==> v == if s.lastCollect == 0 then 0.0 else unix(s.lastCollect))
    && (Gauge(LastCollectSuccessTimestamp, [], v) in samples
        <==> v == if s.lastCollectSuccess == 0 then 0.0 else unix(s.lastCollectSuccess))
    && (Gauge(SnapshotTimestamp, [], v) in samples
        <==> v == if s.snapshotTimestamp == 0 then 0.0 else unix(s.snapshotTimestamp))
    && (Gauge(JobInspectionLastSuccess, [], v) in samples
        <==> v == if s.jobInspectionLastSuccess == 0 then 0.0 else unix(s.jobInspectionLastSuccess))
  }

  /** Each resource's histogram, under its own metric. */
  predicate ShowsHistograms(samples: seq<Sample>, s: Option<SampleSnapshots>, h: HistogramSnapshot) {
    && (Distribution(SampleDistribution(CPU), h) in samples <==> s.Some? && h == s.value.cpu)
    && (Distribution(SampleDistribution(Memory), h) in samples <==> s.Some? && h == s.value.memory)
    && (Distribution(SampleDistribution(Walltime), h) in samples <==> s.Some? && h == s.value.walltime)
    && (Distribution(SampleDistribution(MPI), h) in samples <==> s.Some? && h == s.value.mpi)
    && (Distribution(SampleDistribution(Resource.Nodes), h) in samples <==> s.Some? && h == s.value.nodes)
    && (Distribution(SampleDistribution(GPU), h) in samples <==> s.Some? && h == s.value.gpu)
  }

  /** Of samples of ascending rank, only the one of its rank can be `s`. */
  lemma OnlyItsRank(samples: seq<Sample>, s: Sample)
    requires Rank(s.metric) < |samples| && forall i :: 0 <= i < |samples| ==> Rank(samples[i].metric) == i
    ensures s in samples <==> s == samples[Rank(s.metric)]
  {
    if s in samples {
      var i :| 0 <= i < |samples| && samples[i] == s;
      assert Rank(samples[i].metric) == i;
    }
  }

  lemma FlagsInStatus(s: Status, unix: Time -> real, v: real)
    ensures ShowsFlags(StatusSamples(s, unix), s, v)
  {
    NineBlock(StatusSamples(s, unix));
    OnlyItsRank(StatusSamples(s, unix), Gauge(ExporterUp, [], v));
    OnlyItsRank(StatusSamples(s, unix), Gauge(Metric.JobInspectionUp, [], v));
    OnlyItsRank(StatusSamples(s, unix), Gauge(CollectErrorsTotal, [], v));
    OnlyItsRank(StatusSamples(s, unix), Gauge(Metric.JobInspectionErrorsTotal, [], v));
  }

  lemma TimesInStatus(s: Status, unix: Time -> real, v: real)
    ensures ShowsTimes(StatusSamples(s, unix), s, unix, v)
  {
    CollectTimesInStatus(s, unix, v);
    OtherTimesInStatus(s, unix, v);
  }

  lemma CollectTimesInStatus(s: Status, unix: Time -> real, v: real)
    ensures var samples := StatusSamples(s, unix);
      && (Gauge(LastCollectDuration, [], v) in samples <==> v * 1000000000.0 == s.lastCollectDuration as real)
      && (Gauge(LastCollectTimestamp, [], v) in samples <==> v == if s.lastCollect == 0 then 0.0 else unix(s.lastCollect))
  {
    NineBlock(StatusSamples(s, unix));
    OnlyItsRank(StatusSamples(s, unix), Gauge(LastCollectDuration, [], v));
    OnlyItsRank(StatusSamples(s, unix), Gauge(LastCollectTimestamp, [], v));
  }

  lemma OtherTimesInStatus(s: Status, unix: Time -> real, v: real)
    ensures var samples := StatusSamples(s, unix);
      && (Gauge(LastCollectSuccessTimestamp, [], v) in samples
          <==> v == if s.lastCollectSuccess == 0 then 0.0 else unix(s.lastCollectSuccess))
      && (Gauge(SnapshotTimestamp, [], v) in samples
          <==> v == if s.snapshotTimestamp == 0 then 0.0 else unix(s.snapshotTimestamp))
      && (Gauge(JobInspectionLastSuccess, [], v) in samples
          <==> v == if s.jobInspectionLastSuccess == 0 then 0.0 else unix(s.jobInspectionLastSuccess))
  {
    NineBlock(StatusSamples(s, unix));
    OnlyItsRank(StatusSamples(s, unix), Gauge(LastCollectSuccessTimestamp, [], v));
    OnlyItsRank(StatusSamples(s, unix), Gauge(SnapshotTimestamp, [], v));
    OnlyItsRank(StatusSamples(s, unix), Gauge(JobInspectionLastSuccess, [], v));
  }

  lemma SixHistograms(s: Option<SampleSnapshots>, h: HistogramSnapshot)
    ensures ShowsHistograms(HistogramSamples(s), s, h)
  {
  }

  /** What a block shows of the status, whatever carries it shows too. */
  lemma FlagsCarried(samples: seq<Sample>, block: seq<Sample>, s: Status, v: real)
    requires Carries(samples, block, 0, 9) && ShowsFlags(block, s, v)
    ensures ShowsFlags(samples, s, v)
  {
  }

  lemma TimesCarried(samples: seq<Sample>, block: seq<Sample>, s: Status, unix: Time -> real, v: real)
    requires Carries(samples, block, 0, 9) && ShowsTimes(block, s, unix, v)
    ensures ShowsTimes(samples, s, unix, v)
  {
  }

  lemma HistogramsCarried(samples: seq<Sample>, block: seq<Sample>, s: Option<SampleSnapshots>, h: HistogramSnapshot)
    requires Carries(samples, block, 9, 10) && ShowsHistograms(block, s, h)
    ensures ShowsHistograms(samples, s, h)
  {
  }

  /** The nine series of the status. */
  lemma StatusSeries(c: Scrape, v: real)
    requires c.Valid()
    ensures ShowsFlags(c.samples, c.status, v) && ShowsTimes(c.samples, c.status, c.unix, v)
  {
    PartsOfScrape(c);
    FlagsInStatus(c.status, c.unix, v);
    TimesInStatus(c.status, c.unix, v);
    FlagsCarried(c.samples, StatusSamples(c.status, c.unix), c.status, v);
    TimesCarried(c.samples, StatusSamples(c.status, c.unix), c.status, c.unix, v);
  }

  /** The six histograms. */
  lemma HistogramSeries(c: Scrape, h: HistogramSnapshot)
    requires c.Valid()
    ensures ShowsHistograms(c.samples, c.histograms, h)
  {
    PartsOfScrape(c);
    SixHistograms(c.histograms, h);
    HistogramsCarried(c.samples, HistogramSamples(c.histograms), c.histograms, h);
  }

  /** The batch histogram of `values` over `buckets`, as exported. */
  function BatchSnapshot(buckets: seq<real>, values: seq<real>): HistogramSnapshot {
    HistogramSnapshot(|values|, Sum(values), map b | b in buckets :: CountAtMost(values, b))
  }

  /** Under each metric, the batch of the values requested of its own resource, over its own buckets. */
  predicate ShowsBatches(samples: seq<Sample>, buckets: BucketLists, ticks: seq<Tick>, h: HistogramSnapshot) {
    && (Distribution(SampleDistribution(CPU), h) in samples <==> h == BatchSnapshot(buckets.cpu, Observations(ticks, CPU)))
    && (Distribution(SampleDistribution(Memory), h) in samples
        <==> h == BatchSnapshot(buckets.memory, Observations(ticks, Memory)))
    && (Distribution(SampleDistribution(Walltime), h) in samples
        <==> h == BatchSnapshot(buckets.walltime, Observations(ticks, Walltime)))
    && (Distribution(SampleDistribution(MPI), h) in samples <==> h == BatchSnapshot(buckets.mpi, Observations(ticks, MPI)))
    && (Distribution(SampleDistribution(Resource.Nodes), h) in samples
        <==> h == BatchSnapshot(buckets.nodes, Observations(ticks, Resource.Nodes)))
    && (Distribution(SampleDistribution(GPU), h) in samples <==> h == BatchSnapshot(buckets.gpu, Observations(ticks, GPU)))
  }

  /** After any run a scrape shows the batch histograms of that run. */
  lemma RunHistogramSeries(c: Scrape, config: SampleConfig, ticks: seq<Tick>, h: HistogramSnapshot)
    requires c.Valid() && config.enabled && c.histograms == ExportedSamples(RunFrom(Configured(config), ticks))
    ensures ShowsBatches(c.samples, config.buckets, ticks, h)
  {
    HistogramSeries(c, h);
    BatchesShown(c.samples, config, ticks, h);
  }

  lemma BatchesShown(samples: seq<Sample>, config: SampleConfig, ticks: seq<Tick>, h: HistogramSnapshot)
    requires config.enabled && ShowsHistograms(samples, ExportedSamples(RunFrom(Configured(config), ticks)), h)
    ensures ShowsBatches(samples, config.buckets, ticks, h)
  {
    RunExport(config, ticks, CPU);
    RunExport(config, ticks, Memory);
    RunExport(config, ticks, Walltime);
    RunExport(config, ticks, MPI);
    RunExport(config, ticks, Resource.Nodes);
    RunExport(config, ticks, GPU);
  }

  lemma RunExport(config: SampleConfig, ticks: seq<Tick>, r: Resource)
    requires config.enabled
    ensures var exported := ExportedSamples(RunFrom(Configured(config), ticks));
      exported.Some? && exported.value.Of(r) == BatchSnapshot(config.buckets.Of(r), Observations(ticks, r))
  {
    HistogramsAreBatches(config, ticks, r);
  }

  // ----- version and job counts -----

  /** The version is shown as a label, unless there is none. */
  lemma VersionSeries(c: Scrape, version: string, v: real)
    requires c.Valid() && c.snapshot.Some?
    ensures Gauge(ServerVersionInfo, [version], v) in c.samples
       <==> version == c.snapshot.value.version != "" && v == 1.0
  {
    SnapshotCarried(c);
    VersionInBlock(c.samples, c.base.version, c.snapshot.value.version, version, v);
  }

  lemma VersionInBlock(samples: seq<Sample>, block: seq<Sample>, own: string, version: string, v: real)
    requires Carries(samples, block, 10, 11)
    requires block == if own != "" then [Gauge(ServerVersionInfo, [own], 1.0)] else []
    ensures Gauge(ServerVersionInfo, [version], v) in samples <==> version == own != "" && v == 1.0
  {
    assert [version][0] == version && [own][0] == own;
  }

  /** A series for each key counted, with its number, and none for the others. */
  lemma CountSeries(samples: seq<Sample>, counts: map<string, int>, metric: Metric, key: string, n: nat, v: real)
    requires Covers(samples, counts, ByLabel(metric)) && Holds(counts, key, n)
    ensures Gauge(metric, [key], v) in samples <==> n > 0 && v == n as real
  {
    var r := Rank(metric);
    forall k, count ensures IsBlock(ByLabel(metric)(k, count), [k], r, r + 1) {
      CountBlock(metric, k, count, r, r + 1);
    }
    UnderKey(samples, counts, ByLabel(metric), r, r + 1, key, Gauge(metric, [key], v));
  }

  /** The five parts of the job counts. */
  lemma PartsOfJobs(parts: JobParts, data: JobData, options: Options)
    requires IsJobExposition(parts, data, options)
    ensures Carries(parts.All(), parts.byStatus, 11, 12) && Carries(parts.All(), parts.runningByQueue, 12, 13)
    ensures Carries(parts.All(), parts.totalByQueue, 13, 14) && Carries(parts.All(), parts.runningByUser, 14, 15)
    ensures Carries(parts.All(), parts.queuedByUser, 15, 16)
  {
    CountsBlock(parts.byStatus, data.statusCount, JobsByStatus, 11, 12);
    CountsBlock(parts.runningByQueue, data.queueJobCount, JobsRunningByQueue, 12, 13);
    CountsBlock(parts.totalByQueue, data.queueTotalCount, JobsTotalByQueue, 13, 14);
    UserCountsBlock(parts, data, options);
    CarriesFive(parts.byStatus, parts.runningByQueue, parts.totalByQueue, parts.runningByUser, parts.queuedByUser);
  }

  lemma CarriesFive(a: seq<Sample>, b: seq<Sample>, c: seq<Sample>, d: seq<Sample>, e: seq<Sample>)
    requires IsBlock(a, [], 11, 12) && IsBlock(b, [], 12, 13) && IsBlock(c, [], 13, 14)
    requires IsBlock(d, [], 14, 15) && IsBlock(e, [], 15, 16)
    ensures Carries(a + b + c + d + e, a, 11, 12) && Carries(a + b + c + d + e, b, 12, 13)
    ensures Carries(a + b + c + d + e, c, 13, 14) && Carries(a + b + c + d + e, d, 14, 15)
    ensures Carries(a + b + c + d + e, e, 15, 16)
  {
    Chain(d, e, [], 14, 15, 16);
    RanksOfBlock(d + e, 14, 16);
    CarriesFour(a, b, c, d + e, 11, 12, 13, 14, 16);
    RanksOfBlock(e, 15, 16);
    CarriesFour([], [], d, e, 14, 14, 14, 15, 16);
    assert [] + [] + d + e == d + e;
    CarriesPart(a + b + c + (d + e), d + e, 14, 16, d, 14, 15);
    CarriesPart(a + b + c + (d + e), d + e, 14, 16, e, 15, 16);
    assert a + b + c + (d + e) == a + b + c + d + e;
  }

  /** The jobs of the payload with a status label, running in a queue, and listed in a queue. */
  predicate ShowsJobCounts(samples: seq<Sample>, jobs: map<string, JobRecord>, key: string, v: real) {
    && (Gauge(JobsByStatus, [key], v) in samples
        <==> IsCount(v, CountWhere(jobs, (j: JobRecord) => MapStatusLabel(j.jobState) == key)))
    && (Gauge(JobsRunningByQueue, [key], v) in samples
        <==> IsCount(v, CountWhere(jobs, (j: JobRecord) => j.queue == key && j.jobState in {"R", "r"})))
    && (Gauge(JobsTotalByQueue, [key], v) in samples <==> IsCount(v, CountWhere(jobs, (j: JobRecord) => j.queue == key)))
  }

  /** The running and the queued jobs of a user, when enabled; a job without a user is in neither. */
  predicate ShowsUserCounts(samples: seq<Sample>, jobs: map<string, JobRecord>, enabled: bool, user: string, v: real) {
    && (Gauge(JobsRunningByUser, [user], v) in samples
        <==> (enabled
              && IsCount(v, CountWhere(jobs, (j: JobRecord) => JobUser(j) == user != "" && j.jobState in {"R", "r"}))))
    && (Gauge(JobsQueuedByUser, [user], v) in samples
        <==> (enabled
              && IsCount(v, CountWhere(jobs, (j: JobRecord) => JobUser(j) == user != "" && j.jobState in {"Q", "q"}))))
  }

  /** A count is shown only when there is something to count. */
  predicate IsCount(v: real, n: nat) {
    n > 0 && v == n as real
  }

  lemma StatusCount(
      parts: JobParts, data: JobData, options: Options, jobs: map<string, JobRecord>, key: string, v: real)
    requires IsJobExposition(parts, data, options) && IsTallyOf(data, jobs)
    ensures Gauge(JobsByStatus, [key], v) in parts.All()
       <==> IsCount(v, CountWhere(jobs, (j: JobRecord) => MapStatusLabel(j.jobState) == key))
  {
    PartsOfJobs(parts, data, options);
    JobCountsMeaning(data, jobs, key);
    CountSeries(parts.byStatus, data.statusCount, JobsByStatus, key,
                CountWhere(jobs, (j: JobRecord) => MapStatusLabel(j.jobState) == key), v);
  }

  lemma RunningCount(
      parts: JobParts, data: JobData, options: Options, jobs: map<string, JobRecord>, key: string, v: real)
    requires IsJobExposition(parts, data, options) && IsTallyOf(data, jobs)
    ensures Gauge(JobsRunningByQueue, [key], v) in parts.All()
       <==> IsCount(v, CountWhere(jobs, (j: JobRecord) => j.queue == key && j.jobState in {"R", "r"}))
  {
    PartsOfJobs(parts, data, options);
    JobCountsMeaning(data, jobs, key);
    CountSeries(parts.runningByQueue, data.queueJobCount, JobsRunningByQueue, key,
                CountWhere(jobs, (j: JobRecord) => j.queue == key && j.jobState in {"R", "r"}), v);
  }

  lemma TotalCount(
      parts: JobParts, data: JobData, options: Options, jobs: map<string, JobRecord>, key: string, v: real)
    requires IsJobExposition(parts, data, options) && IsTallyOf(data, jobs)
    ensures Gauge(JobsTotalByQueue, [key], v) in parts.All()
       <==> IsCount(v, CountWhere(jobs, (j: JobRecord) => j.queue == key))
  {
    PartsOfJobs(parts, data, options);
    JobCountsMeaning(data, jobs, key);
    CountSeries(parts.totalByQueue, data.queueTotalCount, JobsTotalByQueue, key,
                CountWhere(jobs, (j: JobRecord) => j.queue == key), v);
  }

  lemma JobCountsInBlock(
      parts: JobParts, data: JobData, options: Options, jobs: map<string, JobRecord>, key: string, v: real)
    requires IsJobExposition(parts, data, options) && IsTallyOf(data, jobs)
    ensures ShowsJobCounts(parts.All(), jobs, key, v)
  {
    StatusCount(parts, data, options, jobs, key, v);
    RunningCount(parts, data, options, jobs, key, v);
    TotalCount(parts, data, options, jobs, key, v);
  }

  lemma UserRunningCount(
      parts: JobParts, data: JobData, options: Options, jobs: map<string, JobRecord>, user: string, v: real)
    requires IsJobExposition(parts, data, options) && IsTallyOf(data, jobs)
    ensures Gauge(JobsRunningByUser, [user], v) in parts.All()
       <==> (options.includeUserMetrics
             && IsCount(v, CountWhere(jobs, (j: JobRecord) => JobUser(j) == user != "" && j.jobState in {"R", "r"})))
  {
    PartsOfJobs(parts, data, options);
    JobCountsMeaning(data, jobs, user);
    if options.includeUserMetrics {
      CountSeries(parts.runningByUser, data.userJobCount, JobsRunningByUser, user,
                  CountWhere(jobs, (j: JobRecord) => JobUser(j) == user != "" && j.jobState in {"R", "r"}), v);
    }
  }

  lemma UserQueuedCount(
      parts: JobParts, data: JobData, options: Options, jobs: map<string, JobRecord>, user: string, v: real)
    requires IsJobExposition(parts, data, options) && IsTallyOf(data, jobs)
    ensures Gauge(JobsQueuedByUser, [user], v) in parts.All()
       <==> (options.includeUserMetrics
             && IsCount(v, CountWhere(jobs, (j: JobRecord) => JobUser(j) == user != "" && j.jobState in {"Q", "q"})))
  {
    PartsOfJobs(parts, data, options);
    JobCountsMeaning(data, jobs, user);
    if options.includeUserMetrics {
      CountSeries(parts.queuedByUser, data.queuedJobsByUser, JobsQueuedByUser, user,
                  CountWhere(jobs, (j: JobRecord) => JobUser(j) == user != "" && j.jobState in {"Q", "q"}), v);
    }
  }

  lemma UserCountsInBlock(
      parts: JobParts, data: JobData, options: Options, jobs: map<string, JobRecord>, user: string, v: real)
    requires IsJobExposition(parts, data, options) && IsTallyOf(data, jobs)
    ensures ShowsUserCounts(parts.All(), jobs, options.includeUserMetrics, user, v)
  {
    UserRunningCount(parts, data, options, jobs, user, v);
    UserQueuedCount(parts, data, options, jobs, user, v);
  }

  lemma JobCountsCarried(samples: seq<Sample>, block: seq<Sample>, jobs: map<string, JobRecord>, key: string, v: real)
    requires Carries(samples, block, 11, 16) && ShowsJobCounts(block, jobs, key, v)
    ensures ShowsJobCounts(samples, jobs, key, v)
  {
  }

  lemma UserCountsCarried(
      samples: seq<Sample>, block: seq<Sample>, jobs: map<string, JobRecord>, enabled: bool, user: string, v: real)
    requires Carries(samples, block, 11, 16) && ShowsUserCounts(block, jobs, enabled, user, v)
    ensures ShowsUserCounts(samples, jobs, enabled, user, v)
  {
  }

  /** From payload to series: every job count is a number of jobs of the payload. */
  lemma JobCountSeries(c: Scrape, jobs: map<string, JobRecord>, key: string, v: real)
    requires c.Valid() && c.snapshot.Some? && c.snapshot.value.jobs.Some? && IsTallyOf(c.snapshot.value.jobs.value, jobs)
    ensures ShowsJobCounts(c.samples, jobs, key, v)
    ensures ShowsUserCounts(c.samples, jobs, c.options.includeUserMetrics, key, v)
  {
    SnapshotCarried(c);
    JobCountsInBlock(c.base.jobs, c.snapshot.value.jobs.value, c.options, jobs, key, v);
    JobCountsCarried(c.samples, c.base.jobs.All(), jobs, key, v);
    UserCountsInBlock(c.base.jobs, c.snapshot.value.jobs.value, c.options, jobs, key, v);
    UserCountsCarried(c.samples, c.base.jobs.All(), jobs, c.options.includeUserMetrics, key, v);
  }
}
