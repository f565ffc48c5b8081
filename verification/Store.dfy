/** The exporter's shared state and the worker that drives it. */
module Store {
  import opened Wrappers
  import opened QueueWaits
  import opened Inspection
  import opened Histograms
  import opened Client

  datatype Status = Status(
    up: bool,
    lastCollect: Time,
    lastCollectSuccess: Time,
    snapshotTimestamp: Time,
    lastCollectDuration: int,
    collectErrorsTotal: nat,
    lastError: string,
    jobInspectionUp: bool,
    jobInspectionErrorsTotal: nat,
    jobInspectionLastSuccess: Time)

  const ZERO_TIME: Time := 0

  const INITIAL_STATUS := Status(false, ZERO_TIME, ZERO_TIME, ZERO_TIME, 0, 0, "", false, 0, ZERO_TIME)

  datatype SampleConfig = SampleConfig(enabled: bool, buckets: BucketLists)

  /** What the store holds, as a value: one state of the exporter's history. */
  datatype StoreState = StoreState(snapshot: Option<Snapshot>, status: Status, samples: Option<Samples>)

  function Configured(config: SampleConfig): StoreState {
    StoreState(None, INITIAL_STATUS, if config.enabled then Some(EmptySamples(config.buckets)) else None)
  }

  // ----- effects of the two writers -----

  /** The inspection data of a result, when it was obtained without error. */
  function Inspected(result: CollectionResult): Option<seq<InspectedJob>> {
    if result.jobInspectionAttempted && result.jobInspectionError.None? && result.snapshot.Some?
    then result.snapshot.value.jobInspection else None
  }

  /** The three inspection fields after a result: raised with data, lowered otherwise, an error counted. */
  function InspectionApplied(status: Status, result: CollectionResult, collectedAt: Time): Status {
    var failed := result.jobInspectionAttempted && result.jobInspectionError.Some?;
    var inspected := Inspected(result);
    status.(
      jobInspectionUp := inspected.Some?,
      jobInspectionErrorsTotal := status.jobInspectionErrorsTotal + (if failed then 1 else 0),
      jobInspectionLastSuccess := if inspected.Some? then collectedAt else status.jobInspectionLastSuccess)
  }

  /** The histograms after a result: they observe its jobs when it was inspected without error. */
  function SamplesApplied(samples: Option<Samples>, result: CollectionResult): Option<Samples> {
    if samples.Some? && Inspected(result).Some? then Some(JobsObserved(samples.value, Inspected(result).value)) else samples
  }

  function Updated(s: StoreState, result: CollectionResult, collectedAt: Time, duration: int): StoreState
    requires result.snapshot.Some?
  {
    var collected := s.status.(
      up := true,
      lastCollect := collectedAt,
      lastCollectSuccess := collectedAt,
      snapshotTimestamp := result.snapshot.value.collectedAt,
      lastCollectDuration := duration,
      lastError := "");
    StoreState(result.snapshot, InspectionApplied(collected, result, collectedAt), SamplesApplied(s.samples, result))
  }

  function Cleared(s: StoreState, collectedAt: Time, duration: int, err: Option<string>): StoreState {
    StoreState(
      None,
      s.status.(
        up := false,
        lastCollect := collectedAt,
        snapshotTimestamp := ZERO_TIME,
        lastCollectDuration := duration,
        jobInspectionUp := false,
        collectErrorsTotal := s.status.collectErrorsTotal + (if err.Some? then 1 else 0),
        lastError := if err.Some? then err.value else s.status.lastError),
      s.samples)
  }

  class Store {
    var snapshot: Option<Snapshot>
    var status: Status
    var jobSampleHistograms: JobSampleHistograms?

    ghost predicate Valid()
      reads this
    {
      jobSampleHistograms != null ==> jobSampleHistograms.Valid()
    }

    ghost function Footprint(): set<object>
      reads this
    {
      {this} + (if jobSampleHistograms == null then {} else jobSampleHistograms.Footprint())
    }

    ghost function View(): StoreState
      requires Valid()
      reads this, Footprint()
    {
      StoreState(snapshot, status, if jobSampleHistograms == null then None else Some(jobSampleHistograms.State()))
    }

    constructor ()
      ensures Valid() && jobSampleHistograms == null
      ensures View() == StoreState(None, INITIAL_STATUS, None)
    {
      snapshot, status, jobSampleHistograms := None, INITIAL_STATUS, null;
    }

    method ConfigureJobSampleHistograms(config: SampleConfig)
      requires Valid()
      modifies this
      ensures Valid() && (jobSampleHistograms != null ==> fresh(jobSampleHistograms.Footprint()))
      ensures View() == old(View()).(samples := Configured(config).samples)
    {
      if !config.enabled {
        jobSampleHistograms := null;
      } else {
        jobSampleHistograms := new JobSampleHistograms(config.buckets);
      }
    }

    method UpdateSuccess(result: CollectionResult, collectedAt: Time, duration: int)
      requires Valid() && result.snapshot.Some?
      modifies Footprint()
      ensures Valid() && jobSampleHistograms == old(jobSampleHistograms)
      ensures View() == Updated(old(View()), result, collectedAt, duration)
    {
      snapshot := result.snapshot;
      status := status.(
        up := true,
        lastCollect := collectedAt,
        lastCollectSuccess := collectedAt,
        snapshotTimestamp := result.snapshot.value.collectedAt,
        lastCollectDuration := duration,
        lastError := "");
      ApplyJobInspectionResult(result, collectedAt);
      ApplyJobSampleHistograms(result);
    }

    method Clear(collectedAt: Time, duration: int, err: Option<string>)
      requires Valid()
      modifies this
      ensures Valid() && jobSampleHistograms == old(jobSampleHistograms)
      ensures View() == Cleared(old(View()), collectedAt, duration, err)
    {
      snapshot := None;
      status := status.(
        up := false,
        lastCollect := collectedAt,
        snapshotTimestamp := ZERO_TIME,
        lastCollectDuration := duration,
        jobInspectionUp := false);
      if err.Some? {
        status := status.(collectErrorsTotal := status.collectErrorsTotal + 1);
        status := status.(lastError := err.value);
      }
    }

    method ApplyJobInspectionResult(result: CollectionResult, collectedAt: Time)
      modifies this`status
      ensures status == InspectionApplied(old(status), result, collectedAt)
    {
      if !result.jobInspectionAttempted {
        status := status.(jobInspectionUp := false);
        return;
      }
      if result.jobInspectionError.Some? {
        status := status.(jobInspectionUp := false);
        status := status.(jobInspectionErrorsTotal := status.jobInspectionErrorsTotal + 1);
        return;
      }
      status := status.(jobInspectionUp := result.snapshot.Some? && result.snapshot.value.jobInspection.Some?);
      if status.jobInspectionUp {
        status := status.(jobInspectionLastSuccess := collectedAt);
      }
    }

    method ApplyJobSampleHistograms(result: CollectionResult)
      requires Valid()
      modifies if jobSampleHistograms == null then {} else jobSampleHistograms.Footprint()
      ensures View().samples == SamplesApplied(old(View()).samples, result)
    {
      if jobSampleHistograms == null || !result.jobInspectionAttempted || result.jobInspectionError.Some? {
        return;
      }
      if result.snapshot.None? || result.snapshot.value.jobInspection.None? {
        return;
      }
      jobSampleHistograms.Observe(result.snapshot.value.jobInspection.value);
    }

    method ReadSnapshot() returns (s: Option<Snapshot>)
      requires Valid()
      ensures s == View().snapshot
    {
      s := snapshot;
    }

    method ReadStatus() returns (s: Status)
      requires Valid()
      ensures s == View().status
    {
      s := status;
    }

    method ReadJobSampleHistograms() returns (s: Option<SampleSnapshots>)
      requires Valid()
      ensures s == ExportedSamples(View())
    {
      if jobSampleHistograms == null {
        return None;
      }
      var snapshots := jobSampleHistograms.Snapshot();
      s := Some(snapshots);
    }
  }

  function ExportedSamples(s: StoreState): Option<SampleSnapshots> {
    match s.samples case Some(samples) => Some(SnapshotsOf(samples)) case None => None
  }

  // ----- the worker -----

  /** One collection attempt: its start time, its duration and what the collector answered. */
  datatype Tick = Tick(started: Time, duration: int, outcome: Outcome) {
    predicate Succeeds() {
      outcome.Returned? && outcome.result.snapshot.Some?
    }

    function Error(): string
      requires !Succeeds()
    {
      match outcome
      case Failed(error) => error
      case NilResult => "collector returned nil result"
      case Returned(_) => "collector returned nil snapshot"
    }

    /** The result as the worker stores it: a missing collection time becomes the start time. */
    function Stamped(): (r: CollectionResult)
      requires Succeeds()
      ensures r.snapshot.Some?
    {
      var snapshot := outcome.result.snapshot.value;
      outcome.result.(snapshot := Some(
        if snapshot.collectedAt == ZERO_TIME then snapshot.(collectedAt := started) else snapshot))
    }
  }

  /** The step function of the run. */
  function Step(s: StoreState, tick: Tick): StoreState {
    if tick.Succeeds() then Updated(s, tick.Stamped(), tick.started, tick.duration)
    else Cleared(s, tick.started, tick.duration, Some(tick.Error()))
  }

  /**
   What a success stores, field by field: the collector's own snapshot, with its own collection time
   if it has one and the start time otherwise.
   */
  lemma SuccessStored(s: StoreState, tick: Tick, own: Snapshot)
    requires tick.outcome.Returned? && tick.outcome.result.snapshot == Some(own)
    ensures var next, result := Step(s, tick), tick.outcome.result;
      var at := if own.collectedAt != 0 then own.collectedAt else tick.started;
      var inspected := result.jobInspectionAttempted && result.jobInspectionError.None? && own.jobInspection.Some?;
      && next.snapshot == Some(Snapshot(at, own.version, own.jobs, own.jobInspection, own.queueWaits, own.nodes,
                                        own.queues, own.queueSummary))
      && next.status == Status(
           true, tick.started, tick.started, at, tick.duration, s.status.collectErrorsTotal, "", inspected,
           if result.jobInspectionAttempted && result.jobInspectionError.Some?
           then s.status.jobInspectionErrorsTotal + 1 else s.status.jobInspectionErrorsTotal,
           if inspected then tick.started else s.status.jobInspectionLastSuccess)
      && (!inspected ==> next.samples == s.samples)
      && (inspected && s.samples.Some? ==> next.samples == Some(JobsObserved(s.samples.value, own.jobInspection.value)))
      && (s.samples.None? ==> next.samples.None?)
  {
  }

  /** What a failure stores: no snapshot, the failure's own text, one more error. */
  lemma FailureStored(s: StoreState, tick: Tick)
    requires tick.outcome.Returned? ==> tick.outcome.result.snapshot.None?
    ensures Step(s, tick).snapshot.None? && Step(s, tick).samples == s.samples
    ensures Step(s, tick).status == Status(
      false, tick.started, s.status.lastCollectSuccess, 0, tick.duration, s.status.collectErrorsTotal + 1,
      if tick.outcome.Failed? then tick.outcome.error
      else if tick.outcome.NilResult? then "collector returned nil result" else "collector returned nil snapshot",
      false, s.status.jobInspectionErrorsTotal, s.status.jobInspectionLastSuccess)
  {
  }

  /** The state after a finite run. */
  function RunFrom(s: StoreState, ticks: seq<Tick>): StoreState {
    if ticks == [] then s
    else Step(RunFrom(s, ticks[..|ticks| - 1]), ticks[|ticks| - 1])
  }

  class Worker {
    const store: Store

    constructor (store: Store)
      ensures this.store == store
    {
      this.store := store;
    }

    method RunOnce(tick: Tick) returns (err: Option<string>)
      requires store.Valid()
      modifies store.Footprint()
      ensures store.Valid() && store.jobSampleHistograms == old(store.jobSampleHistograms)
      ensures store.View() == Step(old(store.View()), tick)
      ensures err == if tick.Succeeds() then None else Some(tick.Error())
    {
      if tick.outcome.Failed? {
        store.Clear(tick.started, tick.duration, Some(tick.outcome.error));
        return Some(tick.outcome.error);
      }
      if tick.outcome.NilResult? {
        store.Clear(tick.started, tick.duration, Some("collector returned nil result"));
        return Some("collector returned nil result");
      }
      var result := tick.outcome.result;
      if result.snapshot.None? {
        store.Clear(tick.started, tick.duration, Some("collector returned nil snapshot"));
        return Some("collector returned nil snapshot");
      }
      var snapshot := result.snapshot.value;
      if snapshot.collectedAt == ZERO_TIME {
        snapshot := snapshot.(collectedAt := tick.started);
      }
      store.UpdateSuccess(result.(snapshot := Some(snapshot)), tick.started, tick.duration);
      err := None;
    }

    /** The ticker loop, for as many ticks as there are; a failed attempt does not stop it. */
    method Run(ticks: seq<Tick>)
      requires store.Valid()
      modifies store.Footprint()
      ensures store.Valid() && store.jobSampleHistograms == old(store.jobSampleHistograms)
      ensures store.View() == RunFrom(old(store.View()), ticks)
    {
      for i := 0 to |ticks|
        invariant store.Valid() && store.jobSampleHistograms == old(store.jobSampleHistograms)
        invariant store.View() == RunFrom(old(store.View()), ticks[..i])
      {
        assert ticks[..i + 1][..i] == ticks[..i];
        var err := RunOnce(ticks[i]);
      }
      assert ticks[..|ticks|] == ticks;
    }
  }
}
