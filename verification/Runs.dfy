/** What holds after any finite run of the worker. */
module Runs {
  import opened Wrappers
  import opened Bags
  import opened Scalars
  import opened Text
  import opened Jobs
  import opened BucketConfig
  import opened QueueWaits
  import opened Inspection
  import opened Histograms
  import opened Client
  import opened Store

  // ----- histograms over whole runs -----

  /** The jobs one attempt puts before the histograms. */
  function SampledBy(tick: Tick): seq<InspectedJob> {
    if tick.Succeeds() && Inspected(tick.outcome.result).Some? then Inspected(tick.outcome.result).value else []
  }

  /** All jobs sampled during a run, once per attempt that saw them. */
  function SampledJobs(ticks: seq<Tick>): seq<InspectedJob> {
    if ticks == [] then [] else SampledJobs(ticks[..|ticks| - 1]) + SampledBy(ticks[|ticks| - 1])
  }

  /** The observations of one resource over a run. */
  function Observations(ticks: seq<Tick>, r: Resource): seq<real> {
    FilterMap(SampledJobs(ticks), Asked(r))
  }

  /** An attempt that samples no job leaves the accumulators as they were, however it failed or succeeded. */
  lemma UnsampledStepsKeepHistograms(s: StoreState, tick: Tick)
    requires SampledBy(tick) == []
    ensures Step(s, tick).samples == s.samples
  {
  }

  /** The values one resource selector reads in the running jobs of a payload. */
  function RunningValues(records: seq<InspectionRecord>, value: Resources -> Option<real>): seq<real> {
    if records == [] then []
    else
      (if records[0].jobState in {"R", "r"} then AsSeq(value(records[0].resourceList)) else [])
      + RunningValues(records[1..], value)
  }

  /** `after` is `before` with `values` observed on top. */
  ghost predicate Gains(before: HistogramSnapshot, after: HistogramSnapshot, values: seq<real>) {
    && after.count == before.count + |values|
    && after.sum == before.sum + Sum(values)
    && after.buckets.Keys == before.buckets.Keys
    && forall b :: b in before.buckets ==> after.buckets[b] == before.buckets[b] + CountAtMost(values, b)
  }

  /** Every histogram gains what its documented payload field holds in the running jobs. */
  ghost predicate AllGain(before: SampleSnapshots, after: SampleSnapshots, records: seq<InspectionRecord>, pf: FloatParser) {
    && Gains(before.cpu, after.cpu, RunningValues(records, (l: Resources) => l.ncpus.OptionalNumber(pf)))
    && Gains(before.memory, after.memory, RunningValues(records, (l: Resources) => l.mem.OptionalBytes(pf)))
    && Gains(before.walltime, after.walltime,
             RunningValues(records, (l: Resources) => AsReal(l.walltime.OptionalDurationSeconds())))
    && Gains(before.mpi, after.mpi, RunningValues(records, (l: Resources) => l.mpiProcs.OptionalNumber(pf)))
    && Gains(before.nodes, after.nodes, RunningValues(records, (l: Resources) => l.nodeCount.OptionalNumber(pf)))
    && Gains(before.gpu, after.gpu, RunningValues(records, (l: Resources) => l.ngpus.OptionalNumber(pf)))
  }

  /** An inspected attempt adds the documented values of its running jobs to the histograms, and nothing else. */
  lemma AttemptGains(
      config: SampleConfig, ticks: seq<Tick>, tick: Tick, payload: map<string, InspectionRecord>, jobIDs: seq<string>,
      collectedAt: Time, parseQtime: TimeParser, pf: FloatParser)
    requires config.enabled && tick.outcome.Returned? && tick.outcome.result.snapshot.Some?
    requires tick.outcome.result.jobInspectionAttempted && tick.outcome.result.jobInspectionError.None?
    requires tick.outcome.result.snapshot.value.jobInspection.Some?
    requires IsInspection(tick.outcome.result.snapshot.value.jobInspection.value, payload, jobIDs, collectedAt, parseQtime, pf)
    requires forall id :: id in jobIDs ==> id in payload
    ensures var before, after := ExportedSamples(RunFrom(Configured(config), ticks)),
                                 ExportedSamples(RunFrom(Configured(config), ticks + [tick]));
      before.Some? && after.Some? && AllGain(before.value, after.value, Values(payload, jobIDs), pf)
  {
    var jobs := tick.outcome.result.snapshot.value.jobInspection.value;
    var before, after := ExportedSamples(RunFrom(Configured(config), ticks)),
                         ExportedSamples(RunFrom(Configured(config), ticks + [tick]));
    assert SampledJobs([tick]) == jobs by {
      assert [tick][..0] == [];
    }
    GainOf(config, ticks, [tick], CPU);
    forall r: Resource ensures Gains(before.value.Of(r), after.value.Of(r), FilterMap(jobs, Asked(r))) {
      GainOf(config, ticks, [tick], r);
    }
    GainsByPayload(before.value, after.value, jobs, payload, jobIDs, collectedAt, parseQtime, pf);
  }

  lemma GainsByPayload(
      before: SampleSnapshots, after: SampleSnapshots, jobs: seq<InspectedJob>,
      payload: map<string, InspectionRecord>, jobIDs: seq<string>, collectedAt: Time, parseQtime: TimeParser, pf: FloatParser)
    requires IsInspection(jobs, payload, jobIDs, collectedAt, parseQtime, pf) && forall id :: id in jobIDs ==> id in payload
    requires forall r: Resource :: Gains(before.Of(r), after.Of(r), FilterMap(jobs, Asked(r)))
    ensures AllGain(before, after, Values(payload, jobIDs), pf)
  {
    var records := Values(payload, jobIDs);
    AskedOfAll(jobs, payload, jobIDs, collectedAt, parseQtime, pf);
    RunningJobsAsked(jobs, records, CPU, (l: Resources) => l.ncpus.OptionalNumber(pf));
    RunningJobsAsked(jobs, records, Memory, (l: Resources) => l.mem.OptionalBytes(pf));
    RunningJobsAsked(jobs, records, Walltime, (l: Resources) => AsReal(l.walltime.OptionalDurationSeconds()));
    RunningJobsAsked(jobs, records, MPI, (l: Resources) => l.mpiProcs.OptionalNumber(pf));
    RunningJobsAsked(jobs, records, Nodes, (l: Resources) => l.nodeCount.OptionalNumber(pf));
    RunningJobsAsked(jobs, records, GPU, (l: Resources) => l.ngpus.OptionalNumber(pf));
    assert Gains(before.Of(CPU), after.Of(CPU), FilterMap(jobs, Asked(CPU)));
    assert Gains(before.Of(Memory), after.Of(Memory), FilterMap(jobs, Asked(Memory)));
    assert Gains(before.Of(Walltime), after.Of(Walltime), FilterMap(jobs, Asked(Walltime)));
    assert Gains(before.Of(MPI), after.Of(MPI), FilterMap(jobs, Asked(MPI)));
    assert Gains(before.Of(Nodes), after.Of(Nodes), FilterMap(jobs, Asked(Nodes)));
    assert Gains(before.Of(GPU), after.Of(GPU), FilterMap(jobs, Asked(GPU)));
  }

  /** Each job is asked for what `value` reads in its record, while running. */
  ghost predicate Asks(
      jobs: seq<InspectedJob>, records: seq<InspectionRecord>, r: Resource, value: Resources -> Option<real>)
  {
    && |jobs| == |records|
    && forall i :: 0 <= i < |jobs| ==>
         Asked(r)(jobs[i]) == if records[i].jobState in {"R", "r"} then value(records[i].resourceList) else None
  }

  lemma AskedOfAll(
      jobs: seq<InspectedJob>, payload: map<string, InspectionRecord>, jobIDs: seq<string>,
      collectedAt: Time, parseQtime: TimeParser, pf: FloatParser)
    requires IsInspection(jobs, payload, jobIDs, collectedAt, parseQtime, pf) && forall id :: id in jobIDs ==> id in payload
    ensures var records := Values(payload, jobIDs);
      && Asks(jobs, records, CPU, (l: Resources) => l.ncpus.OptionalNumber(pf))
      && Asks(jobs, records, Memory, (l: Resources) => l.mem.OptionalBytes(pf))
      && Asks(jobs, records, Walltime, (l: Resources) => AsReal(l.walltime.OptionalDurationSeconds()))
      && Asks(jobs, records, MPI, (l: Resources) => l.mpiProcs.OptionalNumber(pf))
      && Asks(jobs, records, Nodes, (l: Resources) => l.nodeCount.OptionalNumber(pf))
      && Asks(jobs, records, GPU, (l: Resources) => l.ngpus.OptionalNumber(pf))
  {
    forall i | 0 <= i < |jobs|
      ensures EqualFold(jobs[i].jobState, "R") <==> payload[jobIDs[i]].jobState in {"R", "r"}
      ensures jobs[i].requested == RequestedOf(payload[jobIDs[i]].resourceList, pf)
    {
      assert Describes(jobs[i], jobIDs[i], payload[jobIDs[i]], collectedAt, parseQtime, pf);
      StateFolds(jobs[i].jobState);
    }
  }

  /** More attempts add their own observations to every histogram. */
  lemma GainOf(config: SampleConfig, earlier: seq<Tick>, more: seq<Tick>, r: Resource)
    requires config.enabled
    ensures var before, after := ExportedSamples(RunFrom(Configured(config), earlier)),
                                 ExportedSamples(RunFrom(Configured(config), earlier + more));
      before.Some? && after.Some? && Gains(before.value.Of(r), after.value.Of(r), Observations(more, r))
  {
    HistogramsAreBatches(config, earlier, r);
    HistogramsAreBatches(config, earlier + more, r);
    SampledAppend(earlier, more);
    FilterMapAppend(SampledJobs(earlier), SampledJobs(more), Asked(r));
    SumAppend(Observations(earlier, r), Observations(more, r));
    forall b ensures CountAtMost(Observations(earlier + more, r), b)
                  == CountAtMost(Observations(earlier, r), b) + CountAtMost(Observations(more, r), b)
    {
      CountAppend(Observations(earlier, r), Observations(more, r), b);
    }
  }

  lemma {:induction false} RunningJobsAsked(
      jobs: seq<InspectedJob>, records: seq<InspectionRecord>, r: Resource, value: Resources -> Option<real>)
    requires Asks(jobs, records, r, value)
    ensures FilterMap(jobs, Asked(r)) == RunningValues(records, value)
  {
    if jobs != [] {
      RunningJobsAsked(jobs[1..], records[1..], r, value);
    }
  }

  lemma {:induction false} RunSamples(config: SampleConfig, ticks: seq<Tick>)
    ensures RunFrom(Configured(config), ticks).samples
         == if config.enabled then Some(SampleBatch(config.buckets, SampledJobs(ticks))) else None
  {
    if ticks == [] {
      SampleBatchEmpty(config.buckets);
    } else {
      var front, tick := ticks[..|ticks| - 1], ticks[|ticks| - 1];
      RunSamples(config, front);
      if SampledBy(tick) == [] {
        UnsampledStepsKeepHistograms(RunFrom(Configured(config), front), tick);
        assert SampledJobs(ticks) == SampledJobs(front);
      } else {
        JobsObservedIsBatch(config.buckets, SampledJobs(front), SampledBy(tick));
      }
    }
  }

  /** After any run each exported histogram is the batch histogram of that run's observations. */
  lemma HistogramsAreBatches(config: SampleConfig, ticks: seq<Tick>, r: Resource)
    requires config.enabled
    ensures var exported := ExportedSamples(RunFrom(Configured(config), ticks));
      var values := Observations(ticks, r);
      exported.Some? && exported.value.Of(r) == HistogramSnapshot(
        |values|, Sum(values), map b | b in config.buckets.Of(r) :: CountAtMost(values, b))
  {
    RunSamples(config, ticks);
    ExportedBatch(config.buckets.Of(r), Observations(ticks, r));
  }

  /** With validated buckets nothing is lost or distorted on the way out, after any run. */
  lemma ValidatedBucketsExport(config: SampleConfig, ticks: seq<Tick>, r: Resource)
    requires config.enabled && ValidBuckets(config.buckets.Of(r))
    ensures var exported := ExportedSamples(RunFrom(Configured(config), ticks));
      var buckets, values := config.buckets.Of(r), Observations(ticks, r);
      && exported.Some? && Cumulative(exported.value.Of(r))
      && Lossless(buckets, Batch(buckets, values).counts, exported.value.Of(r).buckets)
  {
    RunSamples(config, ticks);
    BatchesAreCumulative(config.buckets.Of(r), Observations(ticks, r));
    ValidBucketsExportLosslessly(config.buckets.Of(r), Batch(config.buckets.Of(r), Observations(ticks, r)).counts);
  }

  lemma {:induction false} RunAppend(s: StoreState, a: seq<Tick>, b: seq<Tick>)
    ensures RunFrom(s, a + b) == RunFrom(RunFrom(s, a), b)
    decreases |b|
  {
    if b == [] {
      assert a + b == a;
    } else {
      assert (a + b)[..|a + b| - 1] == a + b[..|b| - 1];
      RunAppend(s, a, b[..|b| - 1]);
    }
  }

  lemma {:induction false} SampledAppend(a: seq<Tick>, b: seq<Tick>)
    ensures SampledJobs(a + b) == SampledJobs(a) + SampledJobs(b)
    decreases |b|
  {
    if b == [] {
      assert a + b == a;
    } else {
      assert (a + b)[..|a + b| - 1] == a + b[..|b| - 1];
      SampledAppend(a, b[..|b| - 1]);
    }
  }

  /** One exported histogram never falls behind another: same bounds, no count smaller. */
  ghost predicate NoSmaller(before: HistogramSnapshot, after: HistogramSnapshot) {
    && before.count <= after.count
    && before.buckets.Keys == after.buckets.Keys
    && forall b :: b in before.buckets ==> before.buckets[b] <= after.buckets[b]
  }

  /** Counters a scraper may feed to rate() or increase(). */
  ghost predicate CountersGrow(before: StoreState, after: StoreState) {
    && before.status.collectErrorsTotal <= after.status.collectErrorsTotal
    && before.status.jobInspectionErrorsTotal <= after.status.jobInspectionErrorsTotal
    && (ExportedSamples(before).Some? <==> ExportedSamples(after).Some?)
    && (ExportedSamples(before).Some? ==> forall r: Resource ::
         NoSmaller(ExportedSamples(before).value.Of(r), ExportedSamples(after).value.Of(r)))
  }

  /** Nothing a longer run does, failures included, takes any counter back. */
  lemma CountersNeverDecrease(config: SampleConfig, earlier: seq<Tick>, more: seq<Tick>)
    ensures CountersGrow(RunFrom(Configured(config), earlier), RunFrom(Configured(config), earlier + more))
  {
    RunAppend(Configured(config), earlier, more);
    ErrorCountersGrow(RunFrom(Configured(config), earlier), more);
    RunSamples(config, earlier);
    RunSamples(config, earlier + more);
    if config.enabled {
      forall r: Resource
        ensures NoSmaller(ExportedSamples(RunFrom(Configured(config), earlier)).value.Of(r),
                          ExportedSamples(RunFrom(Configured(config), earlier + more)).value.Of(r))
      {
        HistogramsAreBatches(config, earlier, r);
        HistogramsAreBatches(config, earlier + more, r);
        ObservationsExtend(earlier, more, r);
      }
    }
  }

  lemma {:induction false} ErrorCountersGrow(s: StoreState, ticks: seq<Tick>)
    ensures s.status.collectErrorsTotal <= RunFrom(s, ticks).status.collectErrorsTotal
    ensures s.status.jobInspectionErrorsTotal <= RunFrom(s, ticks).status.jobInspectionErrorsTotal
  {
    if ticks != [] {
      ErrorCountersGrow(s, ticks[..|ticks| - 1]);
    }
  }

  lemma ObservationsExtend(earlier: seq<Tick>, more: seq<Tick>, r: Resource)
    ensures Observations(earlier, r) <= Observations(earlier + more, r)
    ensures forall b :: CountAtMost(Observations(earlier, r), b) <= CountAtMost(Observations(earlier + more, r), b)
  {
    SampledAppend(earlier, more);
    FilterMapAppend(SampledJobs(earlier), SampledJobs(more), Asked(r));
    forall b ensures CountAtMost(Observations(earlier, r), b) <= CountAtMost(Observations(earlier + more, r), b) {
      CountAppend(Observations(earlier, r), FilterMap(SampledJobs(more), Asked(r)), b);
    }
  }

  // ----- status over whole runs -----

  function FailedTick(tick: Tick): Option<Tick> {
    if tick.Succeeds() then None else Some(tick)
  }

  function InspectionFailedTick(tick: Tick): Option<Tick> {
    if tick.Succeeds() && tick.outcome.result.jobInspectionAttempted && tick.outcome.result.jobInspectionError.Some?
    then Some(tick) else None
  }

  /** The last instant `at` extracts from the run, or the zero time. */
  function Latest(ticks: seq<Tick>, at: Tick -> Option<Time>): Time {
    var times := FilterMap(ticks, at);
    if times == [] then ZERO_TIME else times[|times| - 1]
  }

  function SuccessAt(tick: Tick): Option<Time> {
    if tick.Succeeds() then Some(tick.started) else None
  }

  function InspectionAt(tick: Tick): Option<Time> {
    if tick.Succeeds() && Inspected(tick.outcome.result).Some? then Some(tick.started) else None
  }

  /** The snapshot a success leaves behind: the collector's own, dated by itself or else by its start. */
  function StoredBy(tick: Tick): Snapshot
    requires tick.Succeeds()
  {
    var own := tick.outcome.result.snapshot.value;
    if own.collectedAt != 0 then own else own.(collectedAt := tick.started)
  }

  /** The status as an observer of the whole run would write it down. */
  function StatusOf(ticks: seq<Tick>): Status {
    if ticks == [] then INITIAL_STATUS
    else
      var last := ticks[|ticks| - 1];
      Status(
        last.Succeeds(),
        last.started,
        Latest(ticks, SuccessAt),
        if last.Succeeds() then StoredBy(last).collectedAt else ZERO_TIME,
        last.duration,
        |FilterMap(ticks, FailedTick)|,
        if last.Succeeds() then "" else last.Error(),
        InspectionAt(last).Some?,
        |FilterMap(ticks, InspectionFailedTick)|,
        Latest(ticks, InspectionAt))
  }

  lemma LatestSnoc(ticks: seq<Tick>, tick: Tick, at: Tick -> Option<Time>)
    ensures Latest(ticks + [tick], at) == match at(tick) case Some(t) => t case None => Latest(ticks, at)
  {
    FilterMapSnoc(ticks, tick, at);
  }

  lemma StatusFollowsSuccess(s: StoreState, front: seq<Tick>, tick: Tick)
    requires s.status == StatusOf(front) && tick.Succeeds()
    ensures Step(s, tick).status == StatusOf(front + [tick])
  {
    HistorySnoc(front, tick);
  }

  lemma StatusFollowsFailure(s: StoreState, front: seq<Tick>, tick: Tick)
    requires s.status == StatusOf(front) && !tick.Succeeds()
    ensures Step(s, tick).status == StatusOf(front + [tick])
  {
    HistorySnoc(front, tick);
  }

  /** What one more attempt adds to each of the history's four summaries. */
  lemma HistorySnoc(front: seq<Tick>, tick: Tick)
    ensures var before, after := StatusOf(front), StatusOf(front + [tick]);
      && after.lastCollectSuccess == (if tick.Succeeds() then tick.started else before.lastCollectSuccess)
      && after.jobInspectionLastSuccess
         == (if InspectionAt(tick).Some? then tick.started else before.jobInspectionLastSuccess)
      && after.collectErrorsTotal == before.collectErrorsTotal + (if tick.Succeeds() then 0 else 1)
      && after.jobInspectionErrorsTotal
         == before.jobInspectionErrorsTotal + (if InspectionFailedTick(tick).Some? then 1 else 0)
  {
    LatestSnoc(front, tick, SuccessAt);
    LatestSnoc(front, tick, InspectionAt);
    FilterMapSnoc(front, tick, FailedTick);
    FilterMapSnoc(front, tick, InspectionFailedTick);
    EmptyLatest(front);
  }

  /** The whole reachable state, in closed form: what the last attempt left, and what the run added up. */
  lemma RunIsHistory(config: SampleConfig, ticks: seq<Tick>)
    ensures var s := RunFrom(Configured(config), ticks);
      && s.status == StatusOf(ticks)
      && s.snapshot == (if ticks != [] && ticks[|ticks| - 1].Succeeds()
                        then Some(StoredBy(ticks[|ticks| - 1])) else None)
      && s.samples == if config.enabled then Some(SampleBatch(config.buckets, SampledJobs(ticks))) else None
  {
    RunSamples(config, ticks);
    StatusIsHistory(config, ticks);
  }

  lemma StatusFollows(s: StoreState, front: seq<Tick>, tick: Tick)
    requires s.status == StatusOf(front)
    ensures Step(s, tick).status == StatusOf(front + [tick])
  {
    if tick.Succeeds() {
      StatusFollowsSuccess(s, front, tick);
    } else {
      StatusFollowsFailure(s, front, tick);
    }
  }

  /** Induction over runs: what every step keeps holds after every run. */
  lemma {:induction false} RunInduction(init: StoreState, ticks: seq<Tick>, inv: (StoreState, seq<Tick>) -> bool)
    requires inv(init, [])
    requires forall s, front, tick {:trigger inv(s, front), Step(s, tick)} ::
      inv(s, front) ==> inv(Step(s, tick), front + [tick])
    ensures inv(RunFrom(init, ticks), ticks)
  {
    if ticks != [] {
      var front, tick := ticks[..|ticks| - 1], ticks[|ticks| - 1];
      RunInduction(init, front, inv);
      assert front + [tick] == ticks;
      assert RunFrom(init, ticks) == Step(RunFrom(init, front), tick);
    }
  }

  lemma StatusIsHistory(config: SampleConfig, ticks: seq<Tick>)
    ensures RunFrom(Configured(config), ticks).status == StatusOf(ticks)
  {
    var inv := (s: StoreState, seen: seq<Tick>) => s.status == StatusOf(seen);
    forall s, front, tick | inv(s, front) ensures inv(Step(s, tick), front + [tick]) {
      StatusFollows(s, front, tick);
    }
    RunInduction(Configured(config), ticks, inv);
  }

  lemma EmptyLatest(front: seq<Tick>)
    ensures StatusOf(front).lastCollectSuccess == Latest(front, SuccessAt)
    ensures StatusOf(front).jobInspectionLastSuccess == Latest(front, InspectionAt)
  {
  }

  /** The exporter is up exactly while it holds a snapshot, whose own time it then reports. */
  ghost predicate UpMeansSnapshot(s: StoreState) {
    && (s.status.up <==> s.snapshot.Some?)
    && (s.snapshot.Some? <==> s.status.snapshotTimestamp != ZERO_TIME)
    && (s.snapshot.Some? ==> s.status.snapshotTimestamp == s.snapshot.value.collectedAt)
  }

  /** Attempts start at real instants, which never run backwards. */
  ghost predicate Clocked(ticks: seq<Tick>) {
    && (forall i :: 0 <= i < |ticks| ==> ticks[i].started > ZERO_TIME)
    && (forall i, j :: 0 <= i < j < |ticks| ==> ticks[i].started <= ticks[j].started)
  }

  ghost predicate TimesOrdered(s: Status) {
    && ZERO_TIME <= s.jobInspectionLastSuccess <= s.lastCollectSuccess <= s.lastCollect
    && (s.up ==> s.lastCollectSuccess == s.lastCollect)
    && (s.jobInspectionUp ==> s.up && s.jobInspectionLastSuccess == s.lastCollect)
  }

  lemma UpInvariant(config: SampleConfig, ticks: seq<Tick>)
    requires forall i :: 0 <= i < |ticks| ==> ticks[i].started != ZERO_TIME
    ensures UpMeansSnapshot(RunFrom(Configured(config), ticks))
  {
  }

  lemma {:induction false} TimesInvariant(config: SampleConfig, ticks: seq<Tick>)
    requires Clocked(ticks)
    ensures TimesOrdered(RunFrom(Configured(config), ticks).status)
    ensures RunFrom(Configured(config), ticks).status.lastCollect
         == if ticks == [] then ZERO_TIME else ticks[|ticks| - 1].started
  {
    if ticks != [] {
      var front := ticks[..|ticks| - 1];
      TimesInvariant(config, front);
      if front != [] {
        assert front[|front| - 1].started <= ticks[|ticks| - 1].started;
      }
    }
  }

  // ----- composed with the client -----

  ghost predicate InspectionMeansData(s: StoreState) {
    s.status.jobInspectionUp <==> s.snapshot.Some? && s.snapshot.value.jobInspection.Some?
  }

  /**
   For an arbitrary collector the equivalence survives a step exactly when the result does not carry
   inspection data beside a missing or failed inspection.
   */
  lemma InspectionUpExactly(s: StoreState, tick: Tick)
    ensures InspectionMeansData(Step(s, tick)) <==> !CarriesStrayData(tick)
  {
  }

  predicate CarriesStrayData(tick: Tick) {
    && tick.Succeeds() && tick.outcome.result.snapshot.value.jobInspection.Some?
    && (!tick.outcome.result.jobInspectionAttempted || tick.outcome.result.jobInspectionError.Some?)
  }

  /** With the real client it holds in every reachable state. */
  lemma InspectionInvariant(config: SampleConfig, ticks: seq<Tick>)
    requires forall i :: 0 <= i < |ticks| ==> ClientShape(ticks[i].outcome)
    ensures InspectionMeansData(RunFrom(Configured(config), ticks))
  {
    if ticks != [] {
      InspectionUpExactly(RunFrom(Configured(config), ticks[..|ticks| - 1]), ticks[|ticks| - 1]);
    }
  }

  /** A result with data beside an inspection that was not tried leaves the gauge down above stored data. */
  lemma StrayDataMisleads(s: StoreState, started: Time, duration: int, snapshot: Snapshot) returns (tick: Tick)
    requires snapshot.jobInspection.Some?
    ensures tick.started == started && tick.duration == duration && CarriesStrayData(tick)
    ensures !Step(s, tick).status.jobInspectionUp && Step(s, tick).snapshot.Some?
      && Step(s, tick).snapshot.value.jobInspection == snapshot.jobInspection
  {
    tick := Tick(started, duration, Returned(CollectionResult(Some(snapshot), false, None)));
  }

  /**
   A failing detailed command costs the store the inspection data, the sampling of its jobs and the
   inspection fields of the status; against any other answer to the same base payloads, or none,
   nothing else differs.
   */
  lemma FailedInspectionKeepsBase(
      s: StoreState, good: Tick, bad: Tick, i: Inputs, tried: bool, detail: DetailAnswer, cause: string)
    requires Answers(good.outcome, i, tried, detail) && Answers(bad.outcome, i, true, DetailError(cause))
    requires i.base.BasePayloads? && good.started == bad.started && good.duration == bad.duration
    ensures var kept, lost := Step(s, good), Step(s, bad);
      && kept.snapshot.Some? && lost.snapshot == Some(kept.snapshot.value.(jobInspection := None))
      && lost.samples == s.samples
      && lost.status == kept.status.(
           jobInspectionUp := false,
           jobInspectionErrorsTotal := s.status.jobInspectionErrorsTotal + 1,
           jobInspectionLastSuccess := s.status.jobInspectionLastSuccess)
  {
    DetailsOnlyAddInspection(good.outcome, tried, detail, bad.outcome, true, DetailError(cause), i);
  }
}
