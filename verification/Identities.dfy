/**
 A registry refuses a scrape that sends two series with the same metric and labels. Metrics are
 ranked by where a scrape sends them, so that blocks of disjoint ranks cannot collide.
 */
module Identities {
  import opened Wrappers
  import opened Bags
  import opened Text
  import opened Jobs
  import opened QueueWaits
  import opened Inspection
  import opened Nodes
  import opened Queues
  import opened Histograms
  import opened Collector

  function LabelsOf(s: Sample): seq<string> {
    match s case Gauge(_, labels, _) => labels case Distribution(_, _) => []
  }

  predicate SameSeries(a: Sample, b: Sample) {
    a.metric == b.metric && LabelsOf(a) == LabelsOf(b)
  }

  /** What a registry demands of the samples of one scrape. */
  predicate DistinctSeries(samples: seq<Sample>) {
    forall i, j {:trigger SameSeries(samples[i], samples[j])} :: 0 <= i < j < |samples| ==> !SameSeries(samples[i], samples[j])
  }

  function FieldRank(field: JobField): (rank: nat)
    ensures rank < 16
  {
    match field
    case RequestedMemory => 0 case RequestedWalltime => 1 case RequestedCPU => 2
    case RequestedGPU => 3 case RequestedMPI => 4 case RequestedNodes => 5
    case UsedCPUPercent => 6 case NcpusRealUsage => 7 case UsedCPUTime => 8 case UsedMemory => 9
    case UsedVirtualMemory => 10 case UsedCPU => 11 case UsedGPU => 12 case UsedWalltime => 13
    case Runtime => 14 case QueueWait => 15
  }

  function ResourceRank(r: NodeResource): nat {
    match r case NodeCPU => 0 case NodeGPU => 1 case NodeMemory => 2
  }

  /** Per-job metrics come last. */
  const PER_JOB: nat := 36

  const TOP: nat := 53

  function Rank(m: Metric): (rank: nat)
    ensures rank < TOP && (m.PerJob() <==> PER_JOB <= rank)
  {
    match m
    case ExporterUp => 0 case CollectErrorsTotal => 1 case LastCollectDuration => 2
    case LastCollectTimestamp => 3 case LastCollectSuccessTimestamp => 4 case SnapshotTimestamp => 5
    case JobInspectionUp => 6 case JobInspectionErrorsTotal => 7 case JobInspectionLastSuccess => 8
    case SampleDistribution(_) => 9
    case ServerVersionInfo => 10
    case JobsByStatus => 11 case JobsRunningByQueue => 12 case JobsTotalByQueue => 13
    case JobsRunningByUser => 14 case JobsQueuedByUser => 15
    case NodesByState => 16 case NodeStateInfo => 17 case NodeJobs => 18
    case NodeAmount(r) => 19 + ResourceRank(r)
    case NodeUtilization(r) => 22 + ResourceRank(r)
    case ClusterAmount(r) => 25 + ResourceRank(r)
    case QueueJobs => 28 case QueueEnabled => 29 case QueueStarted => 30 case QueueWalltime => 31
    case QueueWaitBucket => 32 case QueueWaitCount => 33 case QueueWaitSum => 34 case QueueOldestWait => 35
    case JobInfo => 36
    case JobValue(field) => 37 + FieldRank(field)
  }

  /** Distinct series of metrics in a range of ranks, whose labels all begin alike. */
  predicate IsBlock(samples: seq<Sample>, prefix: seq<string>, low: nat, high: nat) {
    && DistinctSeries(samples)
    && (forall i {:trigger Rank(samples[i].metric)} :: 0 <= i < |samples| ==> low <= Rank(samples[i].metric) < high)
    && (forall i {:trigger LabelsOf(samples[i])} :: 0 <= i < |samples| ==> prefix <= LabelsOf(samples[i]))
  }

  lemma Chain(a: seq<Sample>, b: seq<Sample>, prefix: seq<string>, low: nat, middle: nat, high: nat)
    requires IsBlock(a, prefix, low, middle) && IsBlock(b, prefix, middle, high) && low <= middle <= high
    ensures IsBlock(a + b, prefix, low, high)
  {
    forall x, y | x in a && y in b ensures !SameSeries(x, y) {
      var i :| 0 <= i < |a| && a[i] == x;
      var j :| 0 <= j < |b| && b[j] == y;
      assert Rank(a[i].metric) < middle <= Rank(b[j].metric);
    }
    DistinctWhole(a, b);
    forall i | 0 <= i < |a + b| ensures low <= Rank((a + b)[i].metric) < high && prefix <= LabelsOf((a + b)[i]) {
      if i < |a| {
        assert Rank(a[i].metric) < middle && prefix <= LabelsOf(a[i]);
      } else {
        assert middle <= Rank(b[i - |a|].metric) && prefix <= LabelsOf(b[i - |a|]);
      }
    }
  }

  /** Five blocks between ascending ranks. */
  lemma ChainFive(
      a: seq<Sample>, b: seq<Sample>, c: seq<Sample>, d: seq<Sample>, e: seq<Sample>, prefix: seq<string>,
      r0: nat, r1: nat, r2: nat, r3: nat, r4: nat, r5: nat)
    requires r0 <= r1 <= r2 <= r3 <= r4 <= r5
    requires IsBlock(a, prefix, r0, r1) && IsBlock(b, prefix, r1, r2) && IsBlock(c, prefix, r2, r3)
    requires IsBlock(d, prefix, r3, r4) && IsBlock(e, prefix, r4, r5)
    ensures IsBlock(a + b + c + d + e, prefix, r0, r5)
  {
    Chain(a, b, prefix, r0, r1, r2);
    Chain(a + b, c, prefix, r0, r2, r3);
    Chain(a + b + c, d, prefix, r0, r3, r4);
    Chain(a + b + c + d, e, prefix, r0, r4, r5);
  }

  predicate NothingShared(a: seq<Sample>, b: seq<Sample>) {
    forall x, y {:trigger SameSeries(x, y)} :: x in a && y in b ==> !SameSeries(x, y)
  }

  lemma DistinctAppend(a: seq<Sample>, b: seq<Sample>)
    ensures DistinctSeries(a + b) <==> DistinctSeries(a) && DistinctSeries(b) && NothingShared(a, b)
  {
    if DistinctSeries(a + b) {
      DistinctParts(a, b);
    }
    if DistinctSeries(a) && DistinctSeries(b) && NothingShared(a, b) {
      DistinctWhole(a, b);
    }
  }

  lemma DistinctWhole(a: seq<Sample>, b: seq<Sample>)
    requires DistinctSeries(a) && DistinctSeries(b) && NothingShared(a, b)
    ensures DistinctSeries(a + b)
  {
    var all := a + b;
    forall i, j | 0 <= i < j < |all| ensures !SameSeries(all[i], all[j]) {
      if j < |a| {
        assert !SameSeries(a[i], a[j]);
      } else if |a| <= i {
        assert !SameSeries(b[i - |a|], b[j - |a|]);
      } else {
        assert a[i] in a && b[j - |a|] in b && !SameSeries(a[i], b[j - |a|]);
      }
    }
  }

  lemma DistinctParts(a: seq<Sample>, b: seq<Sample>)
    requires DistinctSeries(a + b)
    ensures DistinctSeries(a) && DistinctSeries(b) && NothingShared(a, b)
  {
    var all := a + b;
    forall i, j | 0 <= i < j < |a| ensures !SameSeries(a[i], a[j]) {
      assert !SameSeries(all[i], all[j]);
    }
    forall i, j | 0 <= i < j < |b| ensures !SameSeries(b[i], b[j]) {
      assert !SameSeries(all[|a| + i], all[|a| + j]);
    }
    forall x, y | x in a && y in b ensures !SameSeries(x, y) {
      var i :| 0 <= i < |a| && a[i] == x;
      var j :| 0 <= j < |b| && b[j] == y;
      assert !SameSeries(all[i], all[|a| + j]);
    }
  }

  // ----- blocks labelled by a map key -----

  /** Every sample's first label is one of `names`. */
  predicate NamedIn(samples: seq<Sample>, names: seq<string>) {
    forall s {:trigger LabelsOf(s)} :: s in samples ==> LabelsOf(s) != [] && LabelsOf(s)[0] in names
  }

  lemma {:induction false} SeriesDistinct<V>(
      m: map<string, V>, order: seq<string>, emit: (string, V) -> seq<Sample>, low: nat, high: nat)
    requires Distinct(order) && (forall k :: k in order ==> k in m)
    requires forall k, v :: IsBlock(emit(k, v), [k], low, high)
    ensures IsBlock(Series(m, order, emit), [], low, high) && NamedIn(Series(m, order, emit), order)
  {
    if order != [] {
      var front, k := order[..|order| - 1], order[|order| - 1];
      SeriesDistinct(m, front, emit, low, high);
      assert k !in front;
      assert IsBlock(emit(k, m[k]), [k], low, high);
      KeyedAppend(Series(m, front, emit), front, emit(k, m[k]), k, low, high);
      assert order == front + [k];
    }
  }

  lemma KeyedAppend(a: seq<Sample>, names: seq<string>, b: seq<Sample>, k: string, low: nat, high: nat)
    requires IsBlock(a, [], low, high) && NamedIn(a, names) && IsBlock(b, [k], low, high) && k !in names
    ensures IsBlock(a + b, [], low, high) && NamedIn(a + b, names + [k])
  {
    forall s | s in b ensures LabelsOf(s) != [] && LabelsOf(s)[0] == k {
      var i :| 0 <= i < |b| && b[i] == s;
      assert [k] <= LabelsOf(b[i]);
    }
    forall x, y | x in a && y in b ensures !SameSeries(x, y) {
      assert LabelsOf(x)[0] in names && LabelsOf(y)[0] == k;
    }
    DistinctAppend(a, b);
  }

  lemma CoversDistinct<V>(samples: seq<Sample>, m: map<string, V>, emit: (string, V) -> seq<Sample>, low: nat, high: nat)
    requires Covers(samples, m, emit) && forall k, v :: IsBlock(emit(k, v), [k], low, high)
    ensures IsBlock(samples, [], low, high)
  {
    var order :| IsOrder(order, m.Keys) && (forall k :: k in order ==> k in m) && samples == Series(m, order, emit);
    OrderDistinct(order, m.Keys);
    SeriesDistinct(m, order, emit, low, high);
  }

  lemma CountsBlock(samples: seq<Sample>, counts: map<string, int>, metric: Metric, low: nat, high: nat)
    requires Covers(samples, counts, ByLabel(metric)) && low <= Rank(metric) < high
    ensures IsBlock(samples, [], low, high)
  {
    forall key, count ensures IsBlock(ByLabel(metric)(key, count), [key], low, high) {
      CountBlock(metric, key, count, low, high);
    }
    CoversDistinct(samples, counts, ByLabel(metric), low, high);
  }

  lemma CountBlock(metric: Metric, key: string, count: int, low: nat, high: nat)
    requires low <= Rank(metric) < high
    ensures IsBlock(ByLabel(metric)(key, count), [key], low, high)
  {
  }

  lemma JobCountsBlock(parts: JobParts, data: JobData, options: Options)
    requires IsJobExposition(parts, data, options)
    ensures IsBlock(parts.All(), [], 11, 16)
  {
    CountsBlock(parts.byStatus, data.statusCount, JobsByStatus, 11, 12);
    CountsBlock(parts.runningByQueue, data.queueJobCount, JobsRunningByQueue, 12, 13);
    CountsBlock(parts.totalByQueue, data.queueTotalCount, JobsTotalByQueue, 13, 14);
    UserCountsBlock(parts, data, options);
    CountBlocks(parts);
  }

  lemma UserCountsBlock(parts: JobParts, data: JobData, options: Options)
    requires IsJobExposition(parts, data, options)
    ensures IsBlock(parts.runningByUser, [], 14, 15) && IsBlock(parts.queuedByUser, [], 15, 16)
  {
    if options.includeUserMetrics {
      CountsBlock(parts.runningByUser, data.userJobCount, JobsRunningByUser, 14, 15);
      CountsBlock(parts.queuedByUser, data.queuedJobsByUser, JobsQueuedByUser, 15, 16);
    }
  }

  lemma CountBlocks(parts: JobParts)
    requires IsBlock(parts.byStatus, [], 11, 12) && IsBlock(parts.runningByQueue, [], 12, 13)
    requires IsBlock(parts.totalByQueue, [], 13, 14) && IsBlock(parts.runningByUser, [], 14, 15)
    requires IsBlock(parts.queuedByUser, [], 15, 16)
    ensures IsBlock(parts.All(), [], 11, 16)
  {
    ChainFive(parts.byStatus, parts.runningByQueue, parts.totalByQueue, parts.runningByUser, parts.queuedByUser, [],
              11, 12, 13, 14, 15, 16);
  }

  // ----- nodes -----

  lemma AmountsBlock(metric: Metric, labels: seq<string>, available: real, used: real, total: real, low: nat, high: nat)
    requires low <= Rank(metric) < high
    ensures IsBlock(Amounts(metric, labels, available, used, total), labels, low, high)
  {
    var n := |labels|;
    assert (labels + ["available"])[n] == "available" && (labels + ["used"])[n] == "used"
        && (labels + ["total"])[n] == "total";
    assert "available"[0] != "used"[0] && "available"[0] != "total"[0] && "used"[0] != "total"[0];
  }

  lemma UtilizationBlock(metric: Metric, name: string, used: real, total: real, low: nat, high: nat)
    requires low <= Rank(metric) < high
    ensures IsBlock(Utilization(metric, name, used, total), [name], low, high)
  {
  }

  lemma NodeHeadBlock(name: string, n: NodeInfo)
    ensures IsBlock(
      [Gauge(NodeStateInfo, [name, n.state], 1.0), Gauge(Metric.NodeJobs, [name], n.jobs as real)], [name], 17, 19)
  {
  }

  /** Three blocks between ascending ranks. */
  lemma ChainThree(
      a: seq<Sample>, b: seq<Sample>, c: seq<Sample>, prefix: seq<string>, r0: nat, r1: nat, r2: nat, r3: nat)
    requires r0 <= r1 <= r2 <= r3
    requires IsBlock(a, prefix, r0, r1) && IsBlock(b, prefix, r1, r2) && IsBlock(c, prefix, r2, r3)
    ensures IsBlock(a + b + c, prefix, r0, r3)
  {
    Chain(a, b, prefix, r0, r1, r2);
    Chain(a + b, c, prefix, r0, r2, r3);
  }

  lemma NodeAmountsBlock(name: string, n: NodeInfo)
    ensures IsBlock(NodeAmounts(name, n), [name], 19, 22)
  {
    var labels := [name];
    var usedCPU, usedGPU := (n.cpusTotal - n.cpusAvailable) as real, (n.gpusTotal - n.gpusAvailable) as real;
    var usedMemory := n.memoryTotal - n.memoryAvailable;
    ResourcesBlock(
      NodeAmount(NodeCPU), NodeAmount(NodeGPU), NodeAmount(NodeMemory), labels,
      n.cpusAvailable as real, usedCPU, n.cpusTotal as real, n.gpusAvailable as real, usedGPU, n.gpusTotal as real,
      n.memoryAvailable, usedMemory, n.memoryTotal, 19, 20, 21, 22);
    assert NodeAmounts(name, n)
        == Amounts(NodeAmount(NodeCPU), labels, n.cpusAvailable as real, usedCPU, n.cpusTotal as real)
           + Amounts(NodeAmount(NodeGPU), labels, n.gpusAvailable as real, usedGPU, n.gpusTotal as real)
           + Amounts(NodeAmount(NodeMemory), labels, n.memoryAvailable, usedMemory, n.memoryTotal);
  }

  /** The amounts of three resources, under metrics of ascending rank. */
  lemma ResourcesBlock(
      cpu: Metric, gpu: Metric, memory: Metric, labels: seq<string>, a1: real, a2: real, a3: real,
      b1: real, b2: real, b3: real, c1: real, c2: real, c3: real, r0: nat, r1: nat, r2: nat, r3: nat)
    requires r0 <= Rank(cpu) < r1 <= Rank(gpu) < r2 <= Rank(memory) < r3
    ensures IsBlock(
      Amounts(cpu, labels, a1, a2, a3) + Amounts(gpu, labels, b1, b2, b3) + Amounts(memory, labels, c1, c2, c3),
      labels, r0, r3)
  {
    var a, b, c := Amounts(cpu, labels, a1, a2, a3), Amounts(gpu, labels, b1, b2, b3), Amounts(memory, labels, c1, c2, c3);
    AmountsBlock(cpu, labels, a1, a2, a3, r0, r1);
    AmountsBlock(gpu, labels, b1, b2, b3, r1, r2);
    AmountsBlock(memory, labels, c1, c2, c3, r2, r3);
    ChainThree(a, b, c, labels, r0, r1, r2, r3);
  }

  lemma NodeSharesBlock(name: string, n: NodeInfo)
    ensures IsBlock(NodeShares(name, n), [name], 22, 25)
  {
    var usedCPU, usedGPU := (n.cpusTotal - n.cpusAvailable) as real, (n.gpusTotal - n.gpusAvailable) as real;
    var usedMemory := n.memoryTotal - n.memoryAvailable;
    UtilizationBlock(NodeUtilization(NodeCPU), name, usedCPU, n.cpusTotal as real, 22, 23);
    UtilizationBlock(NodeUtilization(NodeGPU), name, usedGPU, n.gpusTotal as real, 23, 24);
    UtilizationBlock(NodeUtilization(NodeMemory), name, usedMemory, n.memoryTotal, 24, 25);
    ChainThree(
      Utilization(NodeUtilization(NodeCPU), name, usedCPU, n.cpusTotal as real),
      Utilization(NodeUtilization(NodeGPU), name, usedGPU, n.gpusTotal as real),
      Utilization(NodeUtilization(NodeMemory), name, usedMemory, n.memoryTotal), [name], 22, 23, 24, 25);
  }

  lemma NodeBlock(name: string, n: NodeInfo)
    ensures IsBlock(NodeSamples(name, n), [name], 17, 25)
  {
    var head := [Gauge(NodeStateInfo, [name, n.state], 1.0), Gauge(Metric.NodeJobs, [name], n.jobs as real)];
    NodeHeadBlock(name, n);
    NodeAmountsBlock(name, n);
    NodeSharesBlock(name, n);
    Chain(head, NodeAmounts(name, n), [name], 17, 19, 22);
    Chain(head + NodeAmounts(name, n), NodeShares(name, n), [name], 17, 22, 25);
  }

  lemma ClusterBlock(c: Cluster)
    ensures IsBlock(ClusterSamples(c), [], 25, 28)
  {
    ResourcesBlock(
      ClusterAmount(NodeCPU), ClusterAmount(NodeGPU), ClusterAmount(NodeMemory), [],
      c.availableCPUs as real, c.usedCPUs as real, c.totalCPUs as real,
      c.availableGPUs as real, c.usedGPUs as real, c.totalGPUs as real,
      c.availableMemory, c.usedMemory, c.totalMemory, 25, 26, 27, 28);
  }

  lemma StateCountsBlock(data: NodeData)
    ensures IsBlock(CountSamples(data), [], 16, 17)
  {
    StatesDiffer();
  }

  lemma NodesBlock(samples: seq<Sample>, data: NodeData, c: Cluster)
    requires IsNodeExposition(samples, data, c)
    ensures IsBlock(samples, [], 16, 28)
  {
    var middle :| Covers(middle, data.nodes, NodeSamples)
      && samples == CountSamples(data) + middle + ClusterSamples(c);
    forall name, n ensures IsBlock(NodeSamples(name, n), [name], 17, 25) {
      NodeBlock(name, n);
    }
    CoversDistinct(middle, data.nodes, NodeSamples, 17, 25);
    ClusterBlock(c);
    StateCountsBlock(data);
    Chain(CountSamples(data), middle, [], 16, 17, 25);
    Chain(CountSamples(data) + middle, ClusterSamples(c), [], 16, 25, 28);
  }

  // ----- queues -----

  lemma {:induction false} BucketAt(name: string, info: QueueWaitInfo, bounds: seq<Bound>)
    ensures |InfoSamples(name, info, bounds)| == |bounds|
    ensures forall i :: 0 <= i < |bounds| ==>
      InfoSamples(name, info, bounds)[i]
      == Gauge(QueueWaitBucket, [name, BoundLabel(bounds[i])], GetOr(info.buckets, bounds[i], 0) as real)
  {
    if bounds != [] {
      BucketAt(name, info, bounds[..|bounds| - 1]);
    }
  }

  /** No two thresholds print alike. */
  lemma BoundLabelsDiffer(a: Bound, b: Bound)
    requires a in THRESHOLDS && b in THRESHOLDS && BoundLabel(a) == BoundLabel(b)
    ensures a == b
  {
    if a.Finite? {
      AtoiOfItoa(a.seconds.Floor);
      NotInf(a.seconds.Floor);
    }
    if b.Finite? {
      AtoiOfItoa(b.seconds.Floor);
      NotInf(b.seconds.Floor);
    }
    assert forall t :: t in THRESHOLDS && t.Finite? ==> t.seconds == t.seconds.Floor as real;
  }

  lemma NotInf(n: int)
    ensures Itoa(n) != "+Inf"
  {
    assert Itoa(n)[0] == '-' || IsDigit(Itoa(n)[0]);
  }

  lemma BucketsBlock(name: string, info: QueueWaitInfo)
    ensures IsBlock(InfoSamples(name, info, THRESHOLDS), [name], 32, 33)
  {
    var samples := InfoSamples(name, info, THRESHOLDS);
    BucketAt(name, info, THRESHOLDS);
    forall i, j | 0 <= i < j < |samples| ensures !SameSeries(samples[i], samples[j]) {
      ThresholdsDistinct(j);
      assert THRESHOLDS[i] in THRESHOLDS[..j];
      if BoundLabel(THRESHOLDS[i]) == BoundLabel(THRESHOLDS[j]) {
        BoundLabelsDiffer(THRESHOLDS[i], THRESHOLDS[j]);
      }
      assert LabelsOf(samples[i])[1] != LabelsOf(samples[j])[1];
    }
  }

  lemma WaitBlock(name: string, info: QueueWaitInfo)
    ensures IsBlock(InfoBlock(name, info), [name], 32, 36)
  {
    BucketsBlock(name, info);
    WaitTailBlock(name, info.count, info.sum, info.oldest);
    Chain(InfoSamples(name, info, THRESHOLDS),
          [Gauge(QueueWaitCount, [name], info.count as real), Gauge(QueueWaitSum, [name], info.sum),
           Gauge(QueueOldestWait, [name], info.oldest)], [name], 32, 33, 36);
  }

  lemma WaitTailBlock(name: string, count: int, sum: real, oldest: real)
    ensures IsBlock([Gauge(QueueWaitCount, [name], count as real), Gauge(QueueWaitSum, [name], sum),
                     Gauge(QueueOldestWait, [name], oldest)], [name], 33, 36)
  {
  }

  lemma QueueHeadBlock(name: string, info: QueueInfo, total: int)
    ensures IsBlock(QueueHead(name, info, total), [name], 28, 32)
  {
    QueueHeadRanks(name, info, total);
    QueueHeadLabels(name, info, total);
    SixBlock(QueueHead(name, info, total), [name]);
  }

  lemma QueueHeadRanks(name: string, info: QueueInfo, total: int)
    ensures var samples := QueueHead(name, info, total);
      |samples| == 6 && forall i :: 0 <= i < 6 ==> Rank(samples[i].metric) == if i < 3 then 28 else 26 + i
  {
  }

  lemma QueueHeadLabels(name: string, info: QueueInfo, total: int)
    ensures var samples := QueueHead(name, info, total);
      && |samples| == 6 && (forall i :: 0 <= i < 6 ==> [name] <= LabelsOf(samples[i]))
      && LabelsOf(samples[0]) != LabelsOf(samples[1]) && LabelsOf(samples[0]) != LabelsOf(samples[2])
      && LabelsOf(samples[1]) != LabelsOf(samples[2])
  {
    assert "running"[0] != "queued"[0] && "running"[0] != "total"[0] && "queued"[0] != "total"[0];
    assert [name, "running"][1] == "running" && [name, "queued"][1] == "queued" && [name, "total"][1] == "total";
  }

  lemma SixBlock(samples: seq<Sample>, prefix: seq<string>)
    requires |samples| == 6 && forall i :: 0 <= i < 6 ==> prefix <= LabelsOf(samples[i])
    requires forall i :: 0 <= i < 6 ==> Rank(samples[i].metric) == if i < 3 then 28 else 26 + i
    requires LabelsOf(samples[0]) != LabelsOf(samples[1]) && LabelsOf(samples[0]) != LabelsOf(samples[2])
    requires LabelsOf(samples[1]) != LabelsOf(samples[2])
    ensures IsBlock(samples, prefix, 28, 32)
  {
    forall i, j | 0 <= i < j < 6 ensures !SameSeries(samples[i], samples[j]) {
      if j >= 3 {
        assert Rank(samples[i].metric) != Rank(samples[j].metric);
      }
    }
  }

  lemma QueueBlock(name: string, info: QueueInfo, jobs: Option<JobData>, queueWaits: Option<map<string, QueueWaitInfo>>)
    ensures IsBlock(QueueSamples(jobs, queueWaits)(name, info), [name], 28, 36)
  {
    var total := QueueTotal(name, info, jobs);
    QueueHeadBlock(name, info, total);
    WaitBlock(name, EntryOf(queueWaits, name));
    Chain(QueueHead(name, info, total), InfoBlock(name, EntryOf(queueWaits, name)), [name], 28, 32, 36);
  }

  lemma QueuesBlock(
      samples: seq<Sample>, queues: map<string, QueueInfo>, jobs: Option<JobData>,
      queueWaits: Option<map<string, QueueWaitInfo>>)
    requires Covers(samples, queues, QueueSamples(jobs, queueWaits))
    ensures IsBlock(samples, [], 28, 36)
  {
    forall name, info ensures IsBlock(QueueSamples(jobs, queueWaits)(name, info), [name], 28, 36) {
      QueueBlock(name, info, jobs, queueWaits);
    }
    CoversDistinct(samples, queues, QueueSamples(jobs, queueWaits), 28, 36);
  }

  // ----- jobs under inspection -----

  lemma OptionalBlock(field: JobField, value: Option<real>, labels: seq<string>, low: nat, high: nat)
    requires low <= Rank(JobValue(field)) < high
    ensures IsBlock(OptionalSample(field, value, labels), labels, low, high)
  {
  }

  lemma RequestedBlock(r: Requested, labels: seq<string>)
    ensures IsBlock(RequestedSamples(r, labels), labels, 37, 43)
  {
    OptionalBlock(RequestedMemory, r.memoryBytes, labels, 37, 38);
    OptionalBlock(RequestedWalltime, r.walltimeSeconds, labels, 38, 39);
    OptionalBlock(RequestedCPU, r.cpuCores, labels, 39, 40);
    OptionalBlock(RequestedGPU, r.gpuDevices, labels, 40, 41);
    OptionalBlock(RequestedMPI, r.mpiProcesses, labels, 41, 42);
    OptionalBlock(RequestedNodes, r.nodes, labels, 42, 43);
    var front :=
      OptionalSample(RequestedMemory, r.memoryBytes, labels) + OptionalSample(RequestedWalltime, r.walltimeSeconds, labels)
      + OptionalSample(RequestedCPU, r.cpuCores, labels) + OptionalSample(RequestedGPU, r.gpuDevices, labels)
      + OptionalSample(RequestedMPI, r.mpiProcesses, labels);
    ChainFive(
      OptionalSample(RequestedMemory, r.memoryBytes, labels), OptionalSample(RequestedWalltime, r.walltimeSeconds, labels),
      OptionalSample(RequestedCPU, r.cpuCores, labels), OptionalSample(RequestedGPU, r.gpuDevices, labels),
      OptionalSample(RequestedMPI, r.mpiProcesses, labels), labels, 37, 38, 39, 40, 41, 42);
    Chain(front, OptionalSample(RequestedNodes, r.nodes, labels), labels, 37, 42, 43);
  }

  lemma UsedBlock(u: Used, labels: seq<string>)
    ensures IsBlock(UsedSamples(u, labels), labels, 43, 51)
  {
    var a := OptionalSample(UsedCPUPercent, u.cpuPercent, labels);
    var b := OptionalSample(NcpusRealUsage, NcpusReal(u.cpuPercent), labels);
    var c := OptionalSample(UsedCPUTime, u.cpuTimeSeconds, labels);
    var d := OptionalSample(UsedMemory, u.memoryBytes, labels);
    var e := OptionalSample(UsedVirtualMemory, u.virtualMemoryBytes, labels);
    OptionalBlock(UsedCPUPercent, u.cpuPercent, labels, 43, 44);
    OptionalBlock(NcpusRealUsage, NcpusReal(u.cpuPercent), labels, 44, 45);
    OptionalBlock(UsedCPUTime, u.cpuTimeSeconds, labels, 45, 46);
    OptionalBlock(UsedMemory, u.memoryBytes, labels, 46, 47);
    OptionalBlock(UsedVirtualMemory, u.virtualMemoryBytes, labels, 47, 48);
    ChainFive(a, b, c, d, e, labels, 43, 44, 45, 46, 47, 48);
    UsedRest(a + b + c + d + e, u, labels);
  }

  lemma UsedRest(front: seq<Sample>, u: Used, labels: seq<string>)
    requires IsBlock(front, labels, 43, 48)
    ensures IsBlock(
      front + OptionalSample(UsedCPU, u.cpuCores, labels) + OptionalSample(UsedGPU, u.gpuDevices, labels)
      + OptionalSample(UsedWalltime, u.walltimeSeconds, labels), labels, 43, 51)
  {
    var a, b := OptionalSample(UsedCPU, u.cpuCores, labels), OptionalSample(UsedGPU, u.gpuDevices, labels);
    var c := OptionalSample(UsedWalltime, u.walltimeSeconds, labels);
    OptionalBlock(UsedCPU, u.cpuCores, labels, 48, 49);
    OptionalBlock(UsedGPU, u.gpuDevices, labels, 49, 50);
    OptionalBlock(UsedWalltime, u.walltimeSeconds, labels, 50, 51);
    Chain(front, a, labels, 43, 48, 49);
    Chain(front + a, b, labels, 43, 49, 50);
    Chain(front + a + b, c, labels, 43, 50, 51);
  }

  lemma JobBlock(job: InspectedJob)
    ensures IsBlock(JobSamples(job), JobLabels(job), PER_JOB, TOP)
  {
    var labels := JobLabels(job);
    InfoBlockOf(labels);
    RequestedBlock(job.requested, labels);
    UsedBlock(job.used, labels);
    OptionalBlock(Runtime, job.runtimeSeconds, labels, 51, 52);
    OptionalBlock(QueueWait, job.queueWaitSeconds, labels, 52, 53);
    ChainFive(
      [Gauge(JobInfo, labels, 1.0)], RequestedSamples(job.requested, labels), UsedSamples(job.used, labels),
      OptionalSample(Runtime, job.runtimeSeconds, labels), OptionalSample(QueueWait, job.queueWaitSeconds, labels),
      labels, 36, 37, 43, 51, 52, 53);
  }

  lemma InfoBlockOf(labels: seq<string>)
    ensures IsBlock([Gauge(JobInfo, labels, 1.0)], labels, 36, 37)
  {
  }

  /** Every job's block starts with its info series. */
  lemma InfoComesFirst(job: InspectedJob)
    ensures JobSamples(job) != [] && JobSamples(job)[0] == Gauge(JobInfo, JobLabels(job), 1.0)
  {
  }

  /** The label values of every job, in order. */
  function AllLabels(jobs: seq<InspectedJob>): (all: seq<seq<string>>)
    ensures |all| == |jobs| && forall i :: 0 <= i < |jobs| ==> all[i] == JobLabels(jobs[i])
  {
    if jobs == [] then [] else AllLabels(jobs[..|jobs| - 1]) + [JobLabels(jobs[|jobs| - 1])]
  }

  /** Per-job series, each under one of the given labels, with an info series for each of them. */
  ghost predicate LabelledBy(series: seq<Sample>, all: seq<seq<string>>) {
    && (forall s {:trigger LabelsOf(s)} :: s in series ==> BeginsIn(LabelsOf(s), all))
    && (forall labels :: labels in all ==> Gauge(JobInfo, labels, 1.0) in series)
  }

  ghost predicate BeginsIn(whole: seq<string>, all: seq<seq<string>>) {
    exists labels :: labels in all && labels <= whole
  }

  lemma BlockPrefix(block: seq<Sample>, labels: seq<string>, low: nat, high: nat)
    requires IsBlock(block, labels, low, high)
    ensures forall s :: s in block ==> labels <= LabelsOf(s)
  {
    forall s | s in block ensures labels <= LabelsOf(s) {
      var i :| 0 <= i < |block| && block[i] == s;
      assert labels <= LabelsOf(block[i]);
    }
  }

  lemma LabelledSnoc(series: seq<Sample>, all: seq<seq<string>>, block: seq<Sample>, labels: seq<string>)
    requires LabelledBy(series, all) && IsBlock(block, labels, PER_JOB, TOP) && Gauge(JobInfo, labels, 1.0) in block
    ensures LabelledBy(series + block, all + [labels])
  {
    BlockPrefix(block, labels, PER_JOB, TOP);
    forall s | s in series + block ensures BeginsIn(LabelsOf(s), all + [labels]) {
      if s in series {
        assert BeginsIn(LabelsOf(s), all);
        var l :| l in all && l <= LabelsOf(s);
        assert l in all + [labels];
      } else {
        assert labels in all + [labels];
      }
    }
  }

  lemma EqualPrefixes(a: seq<string>, b: seq<string>, whole: seq<string>)
    requires a <= whole && b <= whole && |a| == |b|
    ensures a == b
  {
    assert a == whole[..|a|] && b == whole[..|b|];
  }

  /** A further block repeats no series exactly when its labels are new. */
  lemma BlockApart(series: seq<Sample>, all: seq<seq<string>>, block: seq<Sample>, labels: seq<string>)
    requires LabelledBy(series, all) && IsBlock(block, labels, PER_JOB, TOP) && Gauge(JobInfo, labels, 1.0) in block
    requires forall l :: l in all ==> |l| == |labels|
    ensures NothingShared(series, block) <==> labels !in all
  {
    BlockPrefix(block, labels, PER_JOB, TOP);
    if labels in all {
      assert SameSeries(Gauge(JobInfo, labels, 1.0), Gauge(JobInfo, labels, 1.0));
    } else {
      forall x, y | x in series && y in block ensures !SameSeries(x, y) {
        assert BeginsIn(LabelsOf(x), all);
        var l :| l in all && l <= LabelsOf(x);
        assert labels <= LabelsOf(y);
        if l <= LabelsOf(y) {
          EqualPrefixes(l, labels, LabelsOf(y));
        }
      }
    }
  }

  /** Per-job series are distinct exactly when no two jobs carry the same label values. */
  lemma {:induction false} JobSeriesDistinct(jobs: seq<InspectedJob>)
    ensures DistinctSeries(JobSeries(jobs)) <==> Distinct(AllLabels(jobs))
    ensures LabelledBy(JobSeries(jobs), AllLabels(jobs))
  {
    if jobs != [] {
      var front, job := jobs[..|jobs| - 1], jobs[|jobs| - 1];
      JobSeriesDistinct(front);
      JobBlock(job);
      InfoComesFirst(job);
      FiveLabels(front);
      OneMoreJob(JobSeries(front), AllLabels(front), JobSamples(job), JobLabels(job));
    }
  }

  lemma FiveLabels(jobs: seq<InspectedJob>)
    ensures forall labels :: labels in AllLabels(jobs) ==> |labels| == 5
  {
  }

  lemma OneMoreJob(series: seq<Sample>, all: seq<seq<string>>, block: seq<Sample>, labels: seq<string>)
    requires LabelledBy(series, all) && (DistinctSeries(series) <==> Distinct(all))
    requires IsBlock(block, labels, PER_JOB, TOP) && Gauge(JobInfo, labels, 1.0) in block
    requires forall l :: l in all ==> |l| == |labels|
    ensures LabelledBy(series + block, all + [labels])
    ensures DistinctSeries(series + block) <==> Distinct(all + [labels])
  {
    LabelledSnoc(series, all, block, labels);
    BlockApart(series, all, block, labels);
    DistinctAppend(series, block);
    DistinctSnoc(all, labels);
  }

  lemma DistinctSnoc<T>(xs: seq<T>, x: T)
    ensures Distinct(xs + [x]) <==> Distinct(xs) && x !in xs
  {
    var all := xs + [x];
    if Distinct(all) {
      assert forall i :: 0 <= i < |xs| ==> all[i] == xs[i] && all[i] != all[|xs|];
    }
  }
}
