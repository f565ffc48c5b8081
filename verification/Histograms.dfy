/** Cumulative histograms of requested resources, sampled from running jobs. */
module Histograms {
  import opened Wrappers
  import opened Bags
  import opened Text
  import opened Jobs
  import opened Inspection
  import opened BucketConfig

  datatype HistData = Hist(buckets: seq<real>, counts: seq<nat>, count: nat, sum: real)

  /** The contents of an accumulator: one count per bucket. */
  type Hist = h: HistData | |h.counts| == |h.buckets| witness HistData.Hist([], [], 0, 0.0)

  datatype HistogramSnapshot = HistogramSnapshot(count: nat, sum: real, buckets: map<real, nat>)

  function Zeros(n: nat): (s: seq<nat>)
    ensures |s| == n && forall i :: 0 <= i < n ==> s[i] == 0
  {
    seq(n, _ => 0)
  }

  function EmptyHist(buckets: seq<real>): Hist {
    HistData.Hist(buckets, Zeros(|buckets|), 0, 0.0)
  }

  /** One observation, counted into every bucket it fits under. */
  function Observed(h: Hist, value: real): Hist {
    HistData.Hist(h.buckets,
         seq(|h.counts|, i requires 0 <= i < |h.counts| => h.counts[i] + (if value <= h.buckets[i] then 1 else 0)),
         h.count + 1, h.sum + value)
  }

  /** The reference: statistics of the whole list of observations at once. */
  function Batch(buckets: seq<real>, values: seq<real>): Hist {
    HistData.Hist(buckets, seq(|buckets|, i requires 0 <= i < |buckets| => CountAtMost(values, buckets[i])), |values|, Sum(values))
  }

  lemma BatchEmpty(buckets: seq<real>)
    ensures Batch(buckets, []) == EmptyHist(buckets)
  {
  }

  /** The incremental update refines the batch statistics. */
  lemma BatchSnoc(buckets: seq<real>, values: seq<real>, value: real)
    ensures Batch(buckets, values + [value]) == Observed(Batch(buckets, values), value)
  {
    var next, step := Batch(buckets, values + [value]), Observed(Batch(buckets, values), value);
    forall i | 0 <= i < |buckets| ensures next.counts[i] == step.counts[i] {
      CountAppend(values, [value], buckets[i]);
      assert [value][1..] == [];
    }
    SumAppend(values, [value]);
    assert [value][1..] == [];
  }

  class HistogramAccumulator {
    const buckets: seq<real>
    const counts: array<nat>
    var count: nat
    var sum: real

    ghost predicate Valid() {
      counts.Length == |buckets|
    }

    ghost function State(): Hist
      requires Valid()
      reads this, counts
    {
      HistData.Hist(buckets, counts[..], count, sum)
    }

    constructor (buckets: seq<real>)
      ensures Valid() && fresh(counts) && State() == EmptyHist(buckets)
    {
      this.buckets := buckets;
      this.counts := new nat[|buckets|](_ => 0);
      this.count := 0;
      this.sum := 0.0;
    }

    method Observe(value: real)
      requires Valid()
      modifies this, counts
      ensures State() == Observed(old(State()), value)
    {
      count := count + 1;
      sum := sum + value;
      for index := 0 to |buckets|
        invariant count == old(count) + 1 && sum == old(sum) + value
        invariant forall i :: 0 <= i < index ==> counts[i] == old(counts[i]) + (if value <= buckets[i] then 1 else 0)
        invariant forall i :: index <= i < |buckets| ==> counts[i] == old(counts[i])
      {
        if value <= buckets[index] {
          counts[index] := counts[index] + 1;
        }
      }
    }

    method Snapshot() returns (s: HistogramSnapshot)
      requires Valid()
      ensures s == SnapshotOf(State())
    {
      var exported: map<real, nat> := map[];
      for index := 0 to |buckets|
        invariant exported == Exported(buckets[..index], counts[..index])
      {
        assert buckets[..index + 1][..index] == buckets[..index];
        assert counts[..index + 1][..index] == counts[..index];
        exported := exported[buckets[index] := counts[index]];
      }
      assert buckets[..|buckets|] == buckets && counts[..|buckets|] == counts[..];
      s := HistogramSnapshot(count, sum, exported);
    }
  }

  /** The exported map; a repeated bound keeps the count of its last position. */
  function Exported(buckets: seq<real>, counts: seq<nat>): map<real, nat>
    requires |buckets| == |counts|
  {
    if buckets == [] then map[]
    else
      var last := |buckets| - 1;
      Exported(buckets[..last], counts[..last])[buckets[last] := counts[last]]
  }

  function SnapshotOf(h: Hist): HistogramSnapshot {
    HistogramSnapshot(h.count, h.sum, Exported(h.buckets, h.counts))
  }

  /** Of a batch, the exported map gives every bound its number of observations, repeated bounds included. */
  lemma ExportedBatch(buckets: seq<real>, values: seq<real>)
    ensures SnapshotOf(Batch(buckets, values)).buckets == map b | b in buckets :: CountAtMost(values, b)
  {
    ExportedCounts(buckets, Batch(buckets, values).counts, values);
  }

  lemma {:induction false} ExportedCounts(buckets: seq<real>, counts: seq<nat>, values: seq<real>)
    requires |buckets| == |counts| && forall i :: 0 <= i < |buckets| ==> counts[i] == CountAtMost(values, buckets[i])
    ensures Exported(buckets, counts) == map b | b in buckets :: CountAtMost(values, b)
  {
    if buckets != [] {
      var last := |buckets| - 1;
      ExportedCounts(buckets[..last], counts[..last], values);
      assert buckets == buckets[..last] + [buckets[last]];
    }
  }

  /** A map with one key per bound, from which the counts can be read back position by position. */
  ghost predicate Lossless(buckets: seq<real>, counts: seq<nat>, exported: map<real, nat>) {
    && |exported| == |buckets| == |counts|
    && forall i :: 0 <= i < |buckets| ==> buckets[i] in exported && exported[buckets[i]] == counts[i]
  }

  /** A cumulative distribution function: non-decreasing in the bound and at most the count. */
  ghost predicate Cumulative(s: HistogramSnapshot) {
    forall a, b :: a in s.buckets && b in s.buckets && a <= b ==> s.buckets[a] <= s.buckets[b] <= s.count
  }

  lemma {:induction false} ExportedKeys(buckets: seq<real>, counts: seq<nat>)
    requires |buckets| == |counts|
    ensures Exported(buckets, counts).Keys == set b | b in buckets
  {
    if buckets != [] {
      var last := |buckets| - 1;
      ExportedKeys(buckets[..last], counts[..last]);
      assert buckets == buckets[..last] + [buckets[last]];
    }
  }

  /** Exporting keeps one key per bound exactly when no bound is repeated. */
  lemma ExportSize(buckets: seq<real>, counts: seq<nat>)
    requires |buckets| == |counts|
    ensures |Exported(buckets, counts)| == |buckets| <==> Distinct(buckets)
  {
    ExportedKeys(buckets, counts);
    DistinctSize(buckets);
    assert |Exported(buckets, counts)| == |Exported(buckets, counts).Keys|;
  }

  lemma {:induction false} ExportedAt(buckets: seq<real>, counts: seq<nat>, k: nat)
    requires |buckets| == |counts| && k < |buckets|
    requires forall i :: k < i < |buckets| ==> buckets[i] != buckets[k]
    ensures buckets[k] in Exported(buckets, counts) && Exported(buckets, counts)[buckets[k]] == counts[k]
  {
    var last := |buckets| - 1;
    if k < last {
      ExportedAt(buckets[..last], counts[..last], k);
    }
  }

  /** Validated buckets make the map form lossless, whatever the counts are. */
  lemma ValidBucketsExportLosslessly(buckets: seq<real>, counts: seq<nat>)
    requires ValidBuckets(buckets) && |counts| == |buckets|
    ensures Lossless(buckets, counts, Exported(buckets, counts))
  {
    ExportSize(buckets, counts);
    forall i | 0 <= i < |buckets|
      ensures buckets[i] in Exported(buckets, counts) && Exported(buckets, counts)[buckets[i]] == counts[i]
    {
      ExportedAt(buckets, counts, i);
    }
  }

  /** After any observations the export is cumulative, whatever the buckets are. */
  lemma BatchesAreCumulative(buckets: seq<real>, values: seq<real>)
    ensures Cumulative(SnapshotOf(Batch(buckets, values)))
  {
    var s := SnapshotOf(Batch(buckets, values));
    ExportedBatch(buckets, values);
    forall a, b | a in s.buckets && b in s.buckets && a <= b ensures s.buckets[a] <= s.buckets[b] <= s.count {
      CountMonotone(values, a, b);
    }
  }

  // ----- six histograms -----

  datatype Resource = CPU | Memory | Walltime | MPI | Nodes | GPU

  datatype BucketLists = BucketLists(
    cpu: seq<real>, memory: seq<real>, walltime: seq<real>, mpi: seq<real>, nodes: seq<real>, gpu: seq<real>)
  {
    function Of(r: Resource): seq<real> {
      match r
      case CPU => cpu case Memory => memory case Walltime => walltime
      case MPI => mpi case Nodes => nodes case GPU => gpu
    }
  }

  /** The contents of the six accumulators. */
  datatype Samples = Samples(cpu: Hist, memory: Hist, walltime: Hist, mpi: Hist, nodes: Hist, gpu: Hist) {
    function Of(r: Resource): Hist {
      match r
      case CPU => cpu case Memory => memory case Walltime => walltime
      case MPI => mpi case Nodes => nodes case GPU => gpu
    }
  }

  datatype SampleSnapshots = SampleSnapshots(
    cpu: HistogramSnapshot, memory: HistogramSnapshot, walltime: HistogramSnapshot,
    mpi: HistogramSnapshot, nodes: HistogramSnapshot, gpu: HistogramSnapshot)
  {
    function Of(r: Resource): HistogramSnapshot {
      match r
      case CPU => cpu case Memory => memory case Walltime => walltime
      case MPI => mpi case Nodes => nodes case GPU => gpu
    }
  }

  function EmptySamples(config: BucketLists): Samples {
    Samples(EmptyHist(config.cpu), EmptyHist(config.memory), EmptyHist(config.walltime),
            EmptyHist(config.mpi), EmptyHist(config.nodes), EmptyHist(config.gpu))
  }

  /** The six histograms of a list of sampled jobs, all at once. */
  function SampleBatch(config: BucketLists, jobs: seq<InspectedJob>): (s: Samples)
    ensures forall r: Resource :: s.Of(r) == Batch(config.Of(r), FilterMap(jobs, Asked(r)))
  {
    Samples(Batch(config.cpu, FilterMap(jobs, Asked(CPU))), Batch(config.memory, FilterMap(jobs, Asked(Memory))),
            Batch(config.walltime, FilterMap(jobs, Asked(Walltime))), Batch(config.mpi, FilterMap(jobs, Asked(MPI))),
            Batch(config.nodes, FilterMap(jobs, Asked(Nodes))), Batch(config.gpu, FilterMap(jobs, Asked(GPU))))
  }

  /** What a job contributes to a histogram: its requested value, if it runs and the value is set. */
  function Asked(r: Resource): InspectedJob -> Option<real> {
    (job: InspectedJob) =>
      if !EqualFold(job.jobState, "R") then None
      else match r
        case CPU => job.requested.cpuCores
        case Memory => job.requested.memoryBytes
        case Walltime => job.requested.walltimeSeconds
        case MPI => job.requested.mpiProcesses
        case Nodes => job.requested.nodes
        case GPU => job.requested.gpuDevices
  }

  /** A job in any state but running leaves the six histograms alone. */
  lemma OtherStatesUnsampled(s: Samples, job: InspectedJob)
    requires job.jobState !in {"R", "r"}
    ensures JobObserved(s, job) == s
  {
    StateFolds(job.jobState);
  }

  function ObservedOptional(h: Hist, value: Option<real>): Hist {
    match value case Some(v) => Observed(h, v) case None => h
  }

  /** The effect of one job on the six histograms. */
  function JobObserved(s: Samples, job: InspectedJob): Samples {
    Samples(ObservedOptional(s.cpu, Asked(CPU)(job)), ObservedOptional(s.memory, Asked(Memory)(job)),
            ObservedOptional(s.walltime, Asked(Walltime)(job)), ObservedOptional(s.mpi, Asked(MPI)(job)),
            ObservedOptional(s.nodes, Asked(Nodes)(job)), ObservedOptional(s.gpu, Asked(GPU)(job)))
  }

  function RequestObserved(s: Samples, requested: Requested): Samples {
    Samples(ObservedOptional(s.cpu, requested.cpuCores), ObservedOptional(s.memory, requested.memoryBytes),
            ObservedOptional(s.walltime, requested.walltimeSeconds), ObservedOptional(s.mpi, requested.mpiProcesses),
            ObservedOptional(s.nodes, requested.nodes), ObservedOptional(s.gpu, requested.gpuDevices))
  }

  function JobsObserved(s: Samples, jobs: seq<InspectedJob>): Samples {
    if jobs == [] then s
    else JobObserved(JobsObserved(s, jobs[..|jobs| - 1]), jobs[|jobs| - 1])
  }

  /** Observing more jobs on top of a batch gives the batch of all of them. */
  lemma {:induction false} JobsObservedIsBatch(config: BucketLists, seen: seq<InspectedJob>, jobs: seq<InspectedJob>)
    ensures JobsObserved(SampleBatch(config, seen), jobs) == SampleBatch(config, seen + jobs)
    decreases |jobs|
  {
    if jobs == [] {
      assert seen + jobs == seen;
    } else {
      var front, job := jobs[..|jobs| - 1], jobs[|jobs| - 1];
      JobsObservedIsBatch(config, seen, front);
      assert seen + jobs == (seen + front) + [job];
      JobExtendsBatch(config, seen + front, job);
    }
  }

  lemma JobExtendsBatch(config: BucketLists, seen: seq<InspectedJob>, job: InspectedJob)
    ensures JobObserved(SampleBatch(config, seen), job) == SampleBatch(config, seen + [job])
  {
    ContributionExtends(config.cpu, seen, job, CPU);
    ContributionExtends(config.memory, seen, job, Memory);
    ContributionExtends(config.walltime, seen, job, Walltime);
    ContributionExtends(config.mpi, seen, job, MPI);
    ContributionExtends(config.nodes, seen, job, Nodes);
    ContributionExtends(config.gpu, seen, job, GPU);
  }

  lemma ContributionExtends(buckets: seq<real>, seen: seq<InspectedJob>, job: InspectedJob, r: Resource)
    ensures ObservedOptional(Batch(buckets, FilterMap(seen, Asked(r))), Asked(r)(job))
         == Batch(buckets, FilterMap(seen + [job], Asked(r)))
  {
    FilterMapSnoc(seen, job, Asked(r));
    if Asked(r)(job).None? {
      assert FilterMap(seen, Asked(r)) + [] == FilterMap(seen, Asked(r));
    } else {
      BatchSnoc(buckets, FilterMap(seen, Asked(r)), Asked(r)(job).value);
    }
  }

  lemma SampleBatchEmpty(config: BucketLists)
    ensures SampleBatch(config, []) == EmptySamples(config)
  {
    BatchEmpty(config.cpu);
    BatchEmpty(config.memory);
    BatchEmpty(config.walltime);
    BatchEmpty(config.mpi);
    BatchEmpty(config.nodes);
    BatchEmpty(config.gpu);
  }

  function SnapshotsOf(s: Samples): (t: SampleSnapshots)
    ensures forall r: Resource :: t.Of(r) == SnapshotOf(s.Of(r))
  {
    SampleSnapshots(SnapshotOf(s.cpu), SnapshotOf(s.memory), SnapshotOf(s.walltime),
                    SnapshotOf(s.mpi), SnapshotOf(s.nodes), SnapshotOf(s.gpu))
  }

  predicate Apart(a: HistogramAccumulator, b: HistogramAccumulator) {
    a != b && a.counts != b.counts
  }

  class JobSampleHistograms {
    const cpu: HistogramAccumulator
    const memory: HistogramAccumulator
    const walltime: HistogramAccumulator
    const mpi: HistogramAccumulator
    const nodes: HistogramAccumulator
    const gpu: HistogramAccumulator

    ghost function Footprint(): set<object> {
      {cpu, cpu.counts, memory, memory.counts, walltime, walltime.counts,
       mpi, mpi.counts, nodes, nodes.counts, gpu, gpu.counts}
    }

    /** Six accumulators that share nothing. */
    ghost predicate Valid() {
      && cpu.Valid() && memory.Valid() && walltime.Valid() && mpi.Valid() && nodes.Valid() && gpu.Valid()
      && Apart(cpu, memory) && Apart(cpu, walltime) && Apart(cpu, mpi) && Apart(cpu, nodes) && Apart(cpu, gpu)
      && Apart(memory, walltime) && Apart(memory, mpi) && Apart(memory, nodes) && Apart(memory, gpu)
      && Apart(walltime, mpi) && Apart(walltime, nodes) && Apart(walltime, gpu)
      && Apart(mpi, nodes) && Apart(mpi, gpu) && Apart(nodes, gpu)
    }

    ghost function State(): Samples
      requires Valid()
      reads Footprint()
    {
      Samples(cpu.State(), memory.State(), walltime.State(), mpi.State(), nodes.State(), gpu.State())
    }

    constructor (config: BucketLists)
      ensures Valid() && fresh(Footprint()) && State() == EmptySamples(config)
    {
      cpu := new HistogramAccumulator(config.cpu);
      memory := new HistogramAccumulator(config.memory);
      walltime := new HistogramAccumulator(config.walltime);
      mpi := new HistogramAccumulator(config.mpi);
      nodes := new HistogramAccumulator(config.nodes);
      gpu := new HistogramAccumulator(config.gpu);
    }

    method Observe(inspection: seq<InspectedJob>)
      requires Valid()
      modifies Footprint()
      ensures State() == JobsObserved(old(State()), inspection)
    {
      for i := 0 to |inspection|
        invariant State() == JobsObserved(old(State()), inspection[..i])
      {
        assert inspection[..i + 1][..i] == inspection[..i];
        ObserveJob(inspection[i]);
      }
      assert inspection[..|inspection|] == inspection;
    }

    /** The body of the loop over jobs. */
    method ObserveJob(job: InspectedJob)
      requires Valid()
      modifies Footprint()
      ensures State() == JobObserved(old(State()), job)
    {
      if !EqualFold(job.jobState, "R") {
        return;
      }
      ObserveRequested(job);
    }

    method ObserveRequested(job: InspectedJob)
      requires Valid()
      modifies Footprint()
      ensures State() == RequestObserved(old(State()), job.requested)
    {
      ObserveOptional(cpu, job.requested.cpuCores);
      ObserveOptional(memory, job.requested.memoryBytes);
      ObserveOptional(walltime, job.requested.walltimeSeconds);
      ObserveOptional(mpi, job.requested.mpiProcesses);
      ObserveOptional(nodes, job.requested.nodes);
      ObserveOptional(gpu, job.requested.gpuDevices);
    }

    method Snapshot() returns (s: SampleSnapshots)
      requires Valid()
      ensures s == SnapshotsOf(State())
    {
      var c := cpu.Snapshot();
      var m := memory.Snapshot();
      var w := walltime.Snapshot();
      var p := mpi.Snapshot();
      var n := nodes.Snapshot();
      var g := gpu.Snapshot();
      s := SampleSnapshots(c, m, w, p, n, g);
    }
  }

  method ObserveOptional(histogram: HistogramAccumulator, value: Option<real>)
    requires histogram.Valid()
    modifies histogram, histogram.counts
    ensures histogram.State() == ObservedOptional(old(histogram.State()), value)
  {
    if value.None? {
      return;
    }
    histogram.Observe(value.value);
  }
}
