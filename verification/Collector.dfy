/** The exposition: what a scrape sends to the metric channel. */
module Collector {
  import opened Wrappers
  import opened Bags
  import opened Text
  import opened Jobs
  import opened QueueWaits
  import opened Inspection
  import opened Scalars
  import opened Nodes
  import opened Queues
  import opened Histograms
  import opened Client
  import opened Store

  datatype JobField =
    | RequestedMemory | RequestedWalltime | RequestedCPU | RequestedGPU | RequestedMPI | RequestedNodes
    | UsedCPUPercent | NcpusRealUsage | UsedCPUTime | UsedMemory | UsedVirtualMemory | UsedCPU | UsedGPU | UsedWalltime
    | Runtime | QueueWait

  datatype NodeResource = NodeCPU | NodeGPU | NodeMemory

  datatype Metric =
    | ExporterUp | CollectErrorsTotal | LastCollectDuration | LastCollectTimestamp | LastCollectSuccessTimestamp
    | SnapshotTimestamp | JobInspectionUp | JobInspectionErrorsTotal | JobInspectionLastSuccess
    | SampleDistribution(resource: Resource)
    | ServerVersionInfo
    | JobsByStatus | JobsRunningByUser | JobsQueuedByUser | JobsRunningByQueue | JobsTotalByQueue
    | NodesByState | NodeStateInfo | NodeJobs | NodeAmount(of: NodeResource) | NodeUtilization(of: NodeResource)
    | ClusterAmount(of: NodeResource)
    | QueueJobs | QueueWaitBucket | QueueWaitCount | QueueWaitSum | QueueOldestWait
    | QueueEnabled | QueueStarted | QueueWalltime
    | JobInfo | JobValue(field: JobField)
  {
    predicate PerJob() {
      JobInfo? || JobValue?
    }
  }

  datatype Sample =
    | Gauge(metric: Metric, labels: seq<string>, value: real)
    | Distribution(metric: Metric, histogram: HistogramSnapshot)

  function BoolFloat(b: bool): real {
    if b then 1.0 else 0.0
  }

  /** Go's zero time exports as 0, any other instant as whole Unix seconds. */
  function UnixOrZero(t: Time, unix: Time -> real): real {
    if t == ZERO_TIME then 0.0 else unix(t)
  }

  // ----- nodes -----

  /** The nine cluster totals. */
  datatype Cluster = Cluster(
    totalCPUs: int, availableCPUs: int, usedCPUs: int,
    totalGPUs: int, availableGPUs: int, usedGPUs: int,
    totalMemory: real, availableMemory: real, usedMemory: real)

  function CPUsTotalOf(n: NodeInfo): Option<real> { Some(n.cpusTotal as real) }
  function CPUsAvailableOf(n: NodeInfo): Option<real> { Some(n.cpusAvailable as real) }
  function GPUsTotalOf(n: NodeInfo): Option<real> { Some(n.gpusTotal as real) }
  function GPUsAvailableOf(n: NodeInfo): Option<real> { Some(n.gpusAvailable as real) }
  function MemoryTotalOf(n: NodeInfo): Option<real> { Some(n.memoryTotal) }
  function MemoryAvailableOf(n: NodeInfo): Option<real> { Some(n.memoryAvailable) }

  /** Totals are sums over the nodes, and what is not available is used. */
  ghost predicate IsCluster(c: Cluster, infos: seq<NodeInfo>) {
    && c.totalCPUs as real == Sum(FilterMap(infos, CPUsTotalOf))
    && c.availableCPUs as real == Sum(FilterMap(infos, CPUsAvailableOf))
    && c.totalGPUs as real == Sum(FilterMap(infos, GPUsTotalOf))
    && c.availableGPUs as real == Sum(FilterMap(infos, GPUsAvailableOf))
    && c.totalMemory == Sum(FilterMap(infos, MemoryTotalOf))
    && c.availableMemory == Sum(FilterMap(infos, MemoryAvailableOf))
    && c.usedCPUs + c.availableCPUs == c.totalCPUs
    && c.usedGPUs + c.availableGPUs == c.totalGPUs
    && c.usedMemory + c.availableMemory == c.totalMemory
  }

  function Amounts(metric: Metric, labels: seq<string>, available: real, used: real, total: real): seq<Sample> {
    [Gauge(metric, labels + ["available"], available), Gauge(metric, labels + ["used"], used),
     Gauge(metric, labels + ["total"], total)]
  }

  function Utilization(metric: Metric, name: string, used: real, total: real): seq<Sample> {
    if total > 0.0 then [Gauge(metric, [name], used / total)] else []
  }

  function NodeAmounts(name: string, n: NodeInfo): seq<Sample> {
    Amounts(NodeAmount(NodeCPU), [name],
            n.cpusAvailable as real, (n.cpusTotal - n.cpusAvailable) as real, n.cpusTotal as real)
    + Amounts(NodeAmount(NodeGPU), [name],
              n.gpusAvailable as real, (n.gpusTotal - n.gpusAvailable) as real, n.gpusTotal as real)
    + Amounts(NodeAmount(NodeMemory), [name], n.memoryAvailable, n.memoryTotal - n.memoryAvailable, n.memoryTotal)
  }

  function NodeShares(name: string, n: NodeInfo): seq<Sample> {
    Utilization(NodeUtilization(NodeCPU), name, (n.cpusTotal - n.cpusAvailable) as real, n.cpusTotal as real)
    + Utilization(NodeUtilization(NodeGPU), name, (n.gpusTotal - n.gpusAvailable) as real, n.gpusTotal as real)
    + Utilization(NodeUtilization(NodeMemory), name, n.memoryTotal - n.memoryAvailable, n.memoryTotal)
  }

  function NodeSamples(name: string, n: NodeInfo): seq<Sample> {
    [Gauge(NodeStateInfo, [name, n.state], 1.0), Gauge(Metric.NodeJobs, [name], n.jobs as real)]
    + NodeAmounts(name, n) + NodeShares(name, n)
  }

  function CountSamples(data: NodeData): seq<Sample> {
    [Gauge(NodesByState, ["free"], data.countFree as real), Gauge(NodesByState, ["job-busy"], data.countBusy as real),
     Gauge(NodesByState, ["offline"], data.countOffline as real), Gauge(NodesByState, ["down"], data.countDown as real)]
  }

  function ClusterSamples(c: Cluster): seq<Sample> {
    Amounts(ClusterAmount(NodeCPU), [], c.availableCPUs as real, c.usedCPUs as real, c.totalCPUs as real)
    + Amounts(ClusterAmount(NodeGPU), [], c.availableGPUs as real, c.usedGPUs as real, c.totalGPUs as real)
    + Amounts(ClusterAmount(NodeMemory), [], c.availableMemory, c.usedMemory, c.totalMemory)
  }

  /** Per-key series of a map, in a given order. */
  function Series<V>(m: map<string, V>, order: seq<string>, emit: (string, V) -> seq<Sample>): seq<Sample>
    requires forall k :: k in order ==> k in m
  {
    if order == [] then []
    else Series(m, order[..|order| - 1], emit) + emit(order[|order| - 1], m[order[|order| - 1]])
  }

  /** Exactly one block of series per key, in some order. */
  ghost predicate Covers<V>(samples: seq<Sample>, m: map<string, V>, emit: (string, V) -> seq<Sample>) {
    exists order :: IsOrder(order, m.Keys) && (forall k :: k in order ==> k in m) && samples == Series(m, order, emit)
  }

  /** The blocks emitted so far, while the keys in `todo` are still to come. */
  ghost predicate CoversSoFar<V>(
      samples: seq<Sample>, m: map<string, V>, todo: set<string>, order: seq<string>, emit: (string, V) -> seq<Sample>)
  {
    && todo <= m.Keys && IsOrder(order, m.Keys - todo)
    && (forall k :: k in order ==> k in m) && samples == Series(m, order, emit)
  }

  lemma CoverStep<V>(
      samples: seq<Sample>, m: map<string, V>, todo: set<string>, order: seq<string>, emit: (string, V) -> seq<Sample>,
      k: string)
    requires CoversSoFar(samples, m, todo, order, emit) && k in todo
    ensures CoversSoFar(samples + emit(k, m[k]), m, todo - {k}, order + [k], emit)
  {
    OrderSnoc(order, m.Keys - todo, k);
    assert m.Keys - todo + {k} == m.Keys - (todo - {k});
    assert (order + [k])[..|order|] == order;
  }

  lemma CoverDone<V>(
      samples: seq<Sample>, m: map<string, V>, order: seq<string>, emit: (string, V) -> seq<Sample>)
    requires CoversSoFar(samples, m, {}, order, emit)
    ensures Covers(samples, m, emit)
  {
    assert m.Keys - {} == m.Keys;
  }

  function AvailableOf(n: NodeInfo, r: NodeResource): real {
    match r case NodeCPU => n.cpusAvailable as real case NodeGPU => n.gpusAvailable as real case NodeMemory => n.memoryAvailable
  }

  function TotalOf(n: NodeInfo, r: NodeResource): real {
    match r case NodeCPU => n.cpusTotal as real case NodeGPU => n.gpusTotal as real case NodeMemory => n.memoryTotal
  }

  /** Every amount shown for a node and resource is labelled rightly, and used plus available is total. */
  lemma NodeAmountsAddUp(name: string, n: NodeInfo, r: NodeResource, s: Sample)
    requires s in NodeSamples(name, n) && s.metric == NodeAmount(r)
    ensures s.Gauge? && |s.labels| == 2 && s.labels[0] == name
    ensures s.labels[1] in {"available", "used", "total"}
    ensures s.labels[1] == "available" ==> s.value == AvailableOf(n, r)
    ensures s.labels[1] == "total" ==> s.value == TotalOf(n, r)
    ensures s.labels[1] == "used" ==> s.value + AvailableOf(n, r) == TotalOf(n, r)
  {
    AmountsLocated(name, n, r, s);
  }

  lemma AmountsLocated(name: string, n: NodeInfo, r: NodeResource, s: Sample)
    requires s in NodeSamples(name, n) && s.metric == NodeAmount(r)
    ensures s in Amounts(NodeAmount(r), [name], AvailableOf(n, r), TotalOf(n, r) - AvailableOf(n, r), TotalOf(n, r))
  {
    if s in NodeShares(name, n) {
      SharesAreNoAmounts(name, n, s);
    }
    assert s in NodeAmounts(name, n);
    AmountMetric(NodeAmount(NodeCPU), [name],
                 n.cpusAvailable as real, (n.cpusTotal - n.cpusAvailable) as real, n.cpusTotal as real, s);
    AmountMetric(NodeAmount(NodeGPU), [name],
                 n.gpusAvailable as real, (n.gpusTotal - n.gpusAvailable) as real, n.gpusTotal as real, s);
    AmountMetric(NodeAmount(NodeMemory), [name], n.memoryAvailable, n.memoryTotal - n.memoryAvailable, n.memoryTotal, s);
  }

  lemma AmountMetric(metric: Metric, labels: seq<string>, available: real, used: real, total: real, s: Sample)
    ensures s in Amounts(metric, labels, available, used, total) ==> s.metric == metric
  {
  }

  lemma SharesAreNoAmounts(name: string, n: NodeInfo, s: Sample)
    requires s in NodeShares(name, n)
    ensures s.metric.NodeUtilization?
  {
  }

  /** State counts, one block per node, cluster totals. */
  ghost predicate IsNodeExposition(samples: seq<Sample>, data: NodeData, c: Cluster) {
    exists middle ::
      Covers(middle, data.nodes, NodeSamples) && samples == CountSamples(data) + middle + ClusterSamples(c)
  }

  method CollectNodes(data: NodeData) returns (samples: seq<Sample>, c: Cluster)
    ensures IsNodeExposition(samples, data, c)
    ensures forall order, infos :: Delivers(data.nodes, order, infos) ==> IsCluster(c, infos)
  {
    samples := [];
    c := Cluster(0, 0, 0, 0, 0, 0, 0.0, 0.0, 0.0);
    var todo := data.nodes.Keys;
    ghost var order, infos := [], [];
    while todo != {}
      invariant CoversSoFar(samples, data.nodes, todo, order, NodeSamples)
      invariant infos == Values(data.nodes, order)
      invariant IsCluster(c, infos)
    {
      var name :| name in todo;
      var n := data.nodes[name];
      CoverStep(samples, data.nodes, todo, order, NodeSamples, name);
      samples := samples + NodeSamples(name, n);
      c := AddNode(c, n, infos);
      DeliverySnoc(data.nodes, todo, order, infos, name);
      order, infos, todo := order + [name], infos + [n], todo - {name};
    }
    CoverDone(samples, data.nodes, order, NodeSamples);
    assert data.nodes.Keys - todo == data.nodes.Keys;
    samples := CountSamples(data) + samples + ClusterSamples(c);
    forall o, vs | Delivers(data.nodes, o, vs) ensures IsCluster(c, vs) {
      DeliveriesPermute(data.nodes, order, infos, o, vs);
      ClusterPermutes(c, infos, vs);
    }
  }

  method AddNode(c: Cluster, n: NodeInfo, ghost infos: seq<NodeInfo>) returns (next: Cluster)
    requires IsCluster(c, infos)
    ensures IsCluster(next, infos + [n])
  {
    next := Cluster(
      c.totalCPUs + n.cpusTotal, c.availableCPUs + n.cpusAvailable, c.usedCPUs + (n.cpusTotal - n.cpusAvailable),
      c.totalGPUs + n.gpusTotal, c.availableGPUs + n.gpusAvailable, c.usedGPUs + (n.gpusTotal - n.gpusAvailable),
      c.totalMemory + n.memoryTotal, c.availableMemory + n.memoryAvailable,
      c.usedMemory + (n.memoryTotal - n.memoryAvailable));
    TotalSnoc(infos, n, CPUsTotalOf);
    TotalSnoc(infos, n, CPUsAvailableOf);
    TotalSnoc(infos, n, GPUsTotalOf);
    TotalSnoc(infos, n, GPUsAvailableOf);
    TotalSnoc(infos, n, MemoryTotalOf);
    TotalSnoc(infos, n, MemoryAvailableOf);
  }

  lemma ClusterPermutes(c: Cluster, xs: seq<NodeInfo>, ys: seq<NodeInfo>)
    requires multiset(xs) == multiset(ys) && IsCluster(c, xs)
    ensures IsCluster(c, ys)
  {
    TotalPermutes(xs, ys, CPUsTotalOf);
    TotalPermutes(xs, ys, CPUsAvailableOf);
    TotalPermutes(xs, ys, GPUsTotalOf);
    TotalPermutes(xs, ys, GPUsAvailableOf);
    TotalPermutes(xs, ys, MemoryTotalOf);
    TotalPermutes(xs, ys, MemoryAvailableOf);
  }

  /** Reported capacities make sense. */
  predicate Healthy(n: NodeInfo) {
    && 0 <= n.cpusAvailable <= n.cpusTotal
    && 0 <= n.gpusAvailable <= n.gpusTotal
    && 0.0 <= n.memoryAvailable <= n.memoryTotal
  }

  /** Of healthy nodes the cluster numbers are capacities too, so every used/total share is in [0, 1]. */
  lemma HealthyCluster(c: Cluster, infos: seq<NodeInfo>)
    requires IsCluster(c, infos) && forall i :: 0 <= i < |infos| ==> Healthy(infos[i])
    ensures 0 <= c.usedCPUs <= c.totalCPUs && 0 <= c.usedGPUs <= c.totalGPUs
    ensures 0.0 <= c.usedMemory <= c.totalMemory
  {
    SumsOrdered(infos, CPUsAvailableOf, CPUsTotalOf);
    SumsOrdered(infos, GPUsAvailableOf, GPUsTotalOf);
    SumsOrdered(infos, MemoryAvailableOf, MemoryTotalOf);
  }

  lemma {:induction false} SumsOrdered(infos: seq<NodeInfo>, low: NodeInfo -> Option<real>, high: NodeInfo -> Option<real>)
    requires forall i :: 0 <= i < |infos| ==>
      low(infos[i]).Some? && high(infos[i]).Some? && 0.0 <= low(infos[i]).value <= high(infos[i]).value
    ensures 0.0 <= Sum(FilterMap(infos, low)) <= Sum(FilterMap(infos, high))
  {
    if infos != [] {
      SumsOrdered(infos[1..], low, high);
      assert FilterMap(infos, low) == [low(infos[0]).value] + FilterMap(infos[1..], low);
      assert FilterMap(infos, high) == [high(infos[0]).value] + FilterMap(infos[1..], high);
    }
  }

  /** Every utilization a healthy node emits is a share. */
  lemma HealthyUtilization(name: string, n: NodeInfo, s: Sample)
    requires Healthy(n) && s in NodeSamples(name, n) && s.metric.NodeUtilization?
    ensures s.Gauge? && 0.0 <= s.value <= 1.0
  {
    ShareInUnit((n.cpusTotal - n.cpusAvailable) as real, n.cpusTotal as real);
    ShareInUnit((n.gpusTotal - n.gpusAvailable) as real, n.gpusTotal as real);
    ShareInUnit(n.memoryTotal - n.memoryAvailable, n.memoryTotal);
  }

  lemma ShareInUnit(used: real, total: real)
    requires 0.0 <= used <= total
    ensures total > 0.0 ==> 0.0 <= used / total <= 1.0
  {
  }

  // ----- jobs -----

  function ByLabel(metric: Metric): (string, int) -> seq<Sample> {
    (key: string, count: int) => [Gauge(metric, [key], count as real)]
  }

  method CollectCounts(counts: map<string, int>, metric: Metric) returns (samples: seq<Sample>)
    ensures Covers(samples, counts, ByLabel(metric))
  {
    samples := [];
    var todo := counts.Keys;
    ghost var order := [];
    while todo != {}
      invariant CoversSoFar(samples, counts, todo, order, ByLabel(metric))
    {
      var key :| key in todo;
      CoverStep(samples, counts, todo, order, ByLabel(metric), key);
      samples := samples + [Gauge(metric, [key], counts[key] as real)];
      order, todo := order + [key], todo - {key};
    }
    CoverDone(samples, counts, order, ByLabel(metric));
  }

  datatype Options = Options(includeUserMetrics: bool, includeJobInspectionMetrics: bool)

  /** The five blocks of job counts. */
  datatype JobParts = JobParts(
    byStatus: seq<Sample>, runningByQueue: seq<Sample>, totalByQueue: seq<Sample>,
    runningByUser: seq<Sample>, queuedByUser: seq<Sample>)
  {
    function All(): seq<Sample> {
      byStatus + runningByQueue + totalByQueue + runningByUser + queuedByUser
    }
  }

  ghost predicate IsJobExposition(parts: JobParts, data: JobData, options: Options) {
    && Covers(parts.byStatus, data.statusCount, ByLabel(JobsByStatus))
    && Covers(parts.runningByQueue, data.queueJobCount, ByLabel(JobsRunningByQueue))
    && Covers(parts.totalByQueue, data.queueTotalCount, ByLabel(JobsTotalByQueue))
    && (options.includeUserMetrics ==>
         && Covers(parts.runningByUser, data.userJobCount, ByLabel(JobsRunningByUser))
         && Covers(parts.queuedByUser, data.queuedJobsByUser, ByLabel(JobsQueuedByUser)))
    && (!options.includeUserMetrics ==> parts.runningByUser == parts.queuedByUser == [])
  }

  method CollectJobs(data: JobData, options: Options) returns (parts: JobParts)
    ensures IsJobExposition(parts, data, options)
  {
    var byStatus := CollectCounts(data.statusCount, JobsByStatus);
    var runningByQueue := CollectCounts(data.queueJobCount, JobsRunningByQueue);
    var totalByQueue := CollectCounts(data.queueTotalCount, JobsTotalByQueue);
    if !options.includeUserMetrics {
      return JobParts(byStatus, runningByQueue, totalByQueue, [], []);
    }
    var runningByUser := CollectCounts(data.userJobCount, JobsRunningByUser);
    var queuedByUser := CollectCounts(data.queuedJobsByUser, JobsQueuedByUser);
    parts := JobParts(byStatus, runningByQueue, totalByQueue, runningByUser, queuedByUser);
  }

  // ----- queues -----

  /** QueueWaitBucketLabel; the finite thresholds are whole seconds. */
  function BoundLabel(b: Bound): string {
    match b case Finite(seconds) => Itoa(seconds.Floor) case Infinite => "+Inf"
  }

  /** The cumulative buckets of a list of waits, threshold by threshold. */
  function BucketSamples(name: string, waits: seq<real>, bounds: seq<Bound>): seq<Sample> {
    if bounds == [] then []
    else
      var last := |bounds| - 1;
      BucketSamples(name, waits, bounds[..last])
      + [Gauge(QueueWaitBucket, [name, BoundLabel(bounds[last])], CountWithin(waits, bounds[last]) as real)]
  }

  /** What a queue should show of its waits: all zeros when there are none. */
  function WaitSamples(name: string, waits: seq<real>): seq<Sample> {
    BucketSamples(name, waits, THRESHOLDS)
    + [Gauge(QueueWaitCount, [name], |waits| as real), Gauge(QueueWaitSum, [name], Sum(waits)),
       Gauge(QueueOldestWait, [name], Oldest(waits))]
  }

  /** The entry a lookup yields, Go's zero value when there is none. */
  function EntryOf(queueWaits: Option<map<string, QueueWaitInfo>>, name: string): QueueWaitInfo {
    if queueWaits.Some? then GetOr(queueWaits.value, name, NO_WAITS) else NO_WAITS
  }

  /** `info` is what the aggregation makes of `waits`. */
  predicate Summarizes(info: QueueWaitInfo, waits: seq<real>) {
    info == if waits == [] then NO_WAITS else Aggregate(waits)
  }

  /** The series a lookup result turns into. */
  function InfoSamples(name: string, info: QueueWaitInfo, bounds: seq<Bound>): seq<Sample> {
    if bounds == [] then []
    else
      var last := |bounds| - 1;
      InfoSamples(name, info, bounds[..last])
      + [Gauge(QueueWaitBucket, [name, BoundLabel(bounds[last])], GetOr(info.buckets, bounds[last], 0) as real)]
  }

  function InfoBlock(name: string, info: QueueWaitInfo): seq<Sample> {
    InfoSamples(name, info, THRESHOLDS)
    + [Gauge(QueueWaitCount, [name], info.count as real), Gauge(QueueWaitSum, [name], info.sum),
       Gauge(QueueOldestWait, [name], info.oldest)]
  }

  method CollectQueueWait(name: string, queueWaits: Option<map<string, QueueWaitInfo>>) returns (samples: seq<Sample>)
    ensures samples == InfoBlock(name, EntryOf(queueWaits, name))
    ensures forall waits :: Summarizes(EntryOf(queueWaits, name), waits) ==> samples == WaitSamples(name, waits)
  {
    var info := EntryOf(queueWaits, name);
    samples := [];
    for i := 0 to |THRESHOLDS|
      invariant samples == InfoSamples(name, info, THRESHOLDS[..i])
    {
      assert THRESHOLDS[..i + 1][..i] == THRESHOLDS[..i];
      samples := samples
        + [Gauge(QueueWaitBucket, [name, BoundLabel(THRESHOLDS[i])], GetOr(info.buckets, THRESHOLDS[i], 0) as real)];
    }
    assert THRESHOLDS[..|THRESHOLDS|] == THRESHOLDS;
    samples := samples
      + [Gauge(QueueWaitCount, [name], info.count as real), Gauge(QueueWaitSum, [name], info.sum),
         Gauge(QueueOldestWait, [name], info.oldest)];
    forall waits | Summarizes(info, waits) ensures InfoBlock(name, info) == WaitSamples(name, waits) {
      BlockShowsWaits(name, info, waits);
    }
  }

  lemma {:induction false} BucketsShowWaits(name: string, info: QueueWaitInfo, waits: seq<real>, bounds: seq<Bound>)
    requires Summarizes(info, waits) && forall b :: b in bounds ==> b in THRESHOLDS
    ensures InfoSamples(name, info, bounds) == BucketSamples(name, waits, bounds)
  {
    if bounds != [] {
      var last := |bounds| - 1;
      BucketsShowWaits(name, info, waits, bounds[..last]);
      assert bounds[last] in THRESHOLDS;
    }
  }

  lemma BlockShowsWaits(name: string, info: QueueWaitInfo, waits: seq<real>)
    requires Summarizes(info, waits)
    ensures InfoBlock(name, info) == WaitSamples(name, waits)
  {
    BucketsShowWaits(name, info, waits, THRESHOLDS);
  }

  /** From job records to series: every queue shows the distribution of its own waits, zeros when it has none. */
  lemma QueueShowsItsWaits(
      queues: map<string, QueueWaitInfo>, records: seq<JobRecord>, collectedAt: Time, parseQtime: TimeParser, name: string)
    requires IsWaitTable(queues, records, collectedAt, parseQtime)
    ensures InfoBlock(name, EntryOf(Some(queues), name))
         == WaitSamples(name, FilterMap(records, WaitIn(name, collectedAt, parseQtime)))
  {
    var waits := FilterMap(records, WaitIn(name, collectedAt, parseQtime));
    assert IsEntry(queues, name, waits);
    BlockShowsWaits(name, EntryOf(Some(queues), name), waits);
  }

  /** The job total wins over the queue's own state counts when the queue has any job. */
  function QueueTotal(name: string, info: QueueInfo, jobs: Option<JobData>): int {
    if jobs.Some? && name in jobs.value.queueTotalCount then jobs.value.queueTotalCount[name]
    else info.running + info.queued
  }

  function QueueSamples(jobs: Option<JobData>, queueWaits: Option<map<string, QueueWaitInfo>>):
    (string, QueueInfo) -> seq<Sample>
  {
    (name: string, info: QueueInfo) =>
      QueueHead(name, info, QueueTotal(name, info, jobs)) + InfoBlock(name, EntryOf(queueWaits, name))
  }

  function QueueHead(name: string, info: QueueInfo, total: int): seq<Sample> {
    [Gauge(QueueJobs, [name, "running"], info.running as real), Gauge(QueueJobs, [name, "queued"], info.queued as real),
     Gauge(QueueJobs, [name, "total"], total as real),
     Gauge(QueueEnabled, [name], BoolFloat(info.enabled)), Gauge(QueueStarted, [name], BoolFloat(info.started)),
     Gauge(QueueWalltime, [name], info.walltime as real)]
  }

  method CollectQueues(
      queues: map<string, QueueInfo>, jobs: Option<JobData>, queueWaits: Option<map<string, QueueWaitInfo>>)
    returns (samples: seq<Sample>)
    ensures Covers(samples, queues, QueueSamples(jobs, queueWaits))
  {
    samples := [];
    var todo := queues.Keys;
    ghost var order, emit := [], QueueSamples(jobs, queueWaits);
    while todo != {}
      invariant CoversSoFar(samples, queues, todo, order, emit)
    {
      var name :| name in todo;
      CoverStep(samples, queues, todo, order, emit, name);
      var block := CollectQueue(name, queues[name], jobs, queueWaits);
      samples := samples + block;
      order, todo := order + [name], todo - {name};
    }
    CoverDone(samples, queues, order, emit);
  }

  method CollectQueue(
      name: string, info: QueueInfo, jobs: Option<JobData>, queueWaits: Option<map<string, QueueWaitInfo>>)
    returns (block: seq<Sample>)
    ensures block == QueueSamples(jobs, queueWaits)(name, info)
  {
    var total := info.running + info.queued;
    if jobs.Some? && name in jobs.value.queueTotalCount {
      total := jobs.value.queueTotalCount[name];
    }
    block := [Gauge(QueueJobs, [name, "running"], info.running as real), Gauge(QueueJobs, [name, "queued"], info.queued as real),
              Gauge(QueueJobs, [name, "total"], total as real),
              Gauge(QueueEnabled, [name], BoolFloat(info.enabled)), Gauge(QueueStarted, [name], BoolFloat(info.started)),
              Gauge(QueueWalltime, [name], info.walltime as real)];
    var waitBlock := CollectQueueWait(name, queueWaits);
    block := block + waitBlock;
  }

  /** A queue's total counts its job records, falling back on its state counts only when it has none. */
  lemma QueueTotalMeaning(name: string, info: QueueInfo, data: JobData, records: seq<JobRecord>)
    requires IsTally(data, records)
    ensures var listed := multiset(FilterMap(records, TotalKey))[name];
      QueueTotal(name, info, Some(data)) == if listed > 0 then listed else info.running + info.queued
  {
  }

  // ----- jobs under inspection -----

  /** jobInspectionLabelValues: identifiers are normalised a second time. */
  function JobLabels(job: InspectedJob): seq<string> {
    [NormalizeJobID(job.jobID), job.queue, job.project, NormalizeJobOwner(job.jobOwner), job.jobState]
  }

  function OptionalSample(field: JobField, value: Option<real>, labels: seq<string>): seq<Sample> {
    match value case Some(v) => [Gauge(JobValue(field), labels, v)] case None => []
  }

  function NcpusReal(percent: Option<real>): Option<real> {
    match percent case Some(p) => Some(p / 100.0) case None => None
  }

  /** Real usage counts cores where PBS counts percent. */
  lemma RealUsageMeaning(percent: Option<real>, v: real)
    ensures NcpusReal(percent) == Some(v) <==> percent == Some(v * 100.0)
  {
  }

  function RequestedSamples(r: Requested, labels: seq<string>): seq<Sample> {
    OptionalSample(RequestedMemory, r.memoryBytes, labels)
    + OptionalSample(RequestedWalltime, r.walltimeSeconds, labels)
    + OptionalSample(RequestedCPU, r.cpuCores, labels)
    + OptionalSample(RequestedGPU, r.gpuDevices, labels)
    + OptionalSample(RequestedMPI, r.mpiProcesses, labels)
    + OptionalSample(RequestedNodes, r.nodes, labels)
  }

  function UsedSamples(u: Used, labels: seq<string>): seq<Sample> {
    OptionalSample(UsedCPUPercent, u.cpuPercent, labels)
    + OptionalSample(NcpusRealUsage, NcpusReal(u.cpuPercent), labels)
    + OptionalSample(UsedCPUTime, u.cpuTimeSeconds, labels)
    + OptionalSample(UsedMemory, u.memoryBytes, labels)
    + OptionalSample(UsedVirtualMemory, u.virtualMemoryBytes, labels)
    + OptionalSample(UsedCPU, u.cpuCores, labels)
    + OptionalSample(UsedGPU, u.gpuDevices, labels)
    + OptionalSample(UsedWalltime, u.walltimeSeconds, labels)
  }

  function JobSamples(job: InspectedJob): seq<Sample> {
    var labels := JobLabels(job);
    [Gauge(JobInfo, labels, 1.0)]
    + RequestedSamples(job.requested, labels)
    + UsedSamples(job.used, labels)
    + OptionalSample(Runtime, job.runtimeSeconds, labels)
    + OptionalSample(QueueWait, job.queueWaitSeconds, labels)
  }

  /** The value a per-job metric is documented to carry. */
  function FieldOf(job: InspectedJob, field: JobField): Option<real> {
    match field
    case RequestedMemory => job.requested.memoryBytes
    case RequestedWalltime => job.requested.walltimeSeconds
    case RequestedCPU => job.requested.cpuCores
    case RequestedGPU => job.requested.gpuDevices
    case RequestedMPI => job.requested.mpiProcesses
    case RequestedNodes => job.requested.nodes
    case UsedCPUPercent => job.used.cpuPercent
    case NcpusRealUsage => NcpusReal(job.used.cpuPercent)
    case UsedCPUTime => job.used.cpuTimeSeconds
    case UsedMemory => job.used.memoryBytes
    case UsedVirtualMemory => job.used.virtualMemoryBytes
    case UsedCPU => job.used.cpuCores
    case UsedGPU => job.used.gpuDevices
    case UsedWalltime => job.used.walltimeSeconds
    case Runtime => job.runtimeSeconds
    case QueueWait => job.queueWaitSeconds
  }

  predicate InRequested(field: JobField) {
    field in {RequestedMemory, RequestedWalltime, RequestedCPU, RequestedGPU, RequestedMPI, RequestedNodes}
  }

  predicate InUsed(field: JobField) {
    !InRequested(field) && field != Runtime && field != QueueWait
  }

  lemma RequestedShown(job: InspectedJob, labels: seq<string>, field: JobField, v: real)
    ensures Gauge(JobValue(field), labels, v) in RequestedSamples(job.requested, labels)
       <==> InRequested(field) && FieldOf(job, field) == Some(v)
  {
  }

  lemma UsedShown(job: InspectedJob, labels: seq<string>, field: JobField, v: real)
    ensures Gauge(JobValue(field), labels, v) in UsedSamples(job.used, labels)
       <==> InUsed(field) && FieldOf(job, field) == Some(v)
  {
  }

  /** A per-job metric appears exactly when its field is set, with the field's value. */
  lemma FieldsShown(job: InspectedJob, field: JobField, v: real)
    ensures Gauge(JobValue(field), JobLabels(job), v) in JobSamples(job) <==> FieldOf(job, field) == Some(v)
  {
    RequestedShown(job, JobLabels(job), field, v);
    UsedShown(job, JobLabels(job), field, v);
  }

  /** The payload field each per-job metric is documented to come from. */
  function SourceOf(
      record: InspectionRecord, field: JobField, collectedAt: Time, parseQtime: TimeParser, pf: FloatParser): Option<real>
  {
    var requested, used := record.resourceList, record.resourcesUsed;
    var running, queued := record.jobState in {"R", "r"}, record.jobState in {"Q", "q"};
    match field
    case RequestedMemory => requested.mem.OptionalBytes(pf)
    case RequestedWalltime => AsReal(requested.walltime.OptionalDurationSeconds())
    case RequestedCPU => requested.ncpus.OptionalNumber(pf)
    case RequestedGPU => requested.ngpus.OptionalNumber(pf)
    case RequestedMPI => requested.mpiProcs.OptionalNumber(pf)
    case RequestedNodes => requested.nodeCount.OptionalNumber(pf)
    case UsedCPUPercent => if running then used.cpuPercent.OptionalNumber(pf) else None
    case NcpusRealUsage => if running then NcpusReal(used.cpuPercent.OptionalNumber(pf)) else None
    case UsedCPUTime => if running then AsReal(used.cpuTime.OptionalDurationSeconds()) else None
    case UsedMemory => if running then used.mem.OptionalBytes(pf) else None
    case UsedVirtualMemory => if running then used.vmem.OptionalBytes(pf) else None
    case UsedCPU => if running then used.ncpus.OptionalNumber(pf) else None
    case UsedGPU => if running then used.ngpus.OptionalNumber(pf) else None
    case UsedWalltime => if running then AsReal(used.walltime.OptionalDurationSeconds()) else None
    case Runtime => if running then OptionalElapsedSeconds(record.stime, collectedAt, parseQtime) else None
    case QueueWait => if queued then OptionalElapsedSeconds(record.qtime, collectedAt, parseQtime) else None
  }

  /** From payload to series: a per-job metric shows exactly what its documented field holds. */
  lemma FieldsFromPayload(
      job: InspectedJob, id: string, record: InspectionRecord, collectedAt: Time, parseQtime: TimeParser, pf: FloatParser,
      field: JobField, v: real)
    requires Describes(job, id, record, collectedAt, parseQtime, pf)
    ensures Gauge(JobValue(field), JobLabels(job), v) in JobSamples(job)
       <==> SourceOf(record, field, collectedAt, parseQtime, pf) == Some(v)
  {
    FieldsShown(job, field, v);
    FieldSource(job, id, record, collectedAt, parseQtime, pf, field);
  }

  lemma FieldSource(
      job: InspectedJob, id: string, record: InspectionRecord, collectedAt: Time, parseQtime: TimeParser, pf: FloatParser,
      field: JobField)
    requires Describes(job, id, record, collectedAt, parseQtime, pf)
    ensures FieldOf(job, field) == SourceOf(record, field, collectedAt, parseQtime, pf)
  {
  }

  function JobSeries(jobs: seq<InspectedJob>): seq<Sample> {
    if jobs == [] then [] else JobSeries(jobs[..|jobs| - 1]) + JobSamples(jobs[|jobs| - 1])
  }

  method CollectJobInspection(jobs: seq<InspectedJob>) returns (samples: seq<Sample>)
    ensures samples == JobSeries(jobs)
  {
    samples := [];
    for i := 0 to |jobs|
      invariant samples == JobSeries(jobs[..i])
    {
      assert jobs[..i + 1][..i] == jobs[..i];
      samples := samples + JobSamples(jobs[i]);
    }
    assert jobs[..|jobs|] == jobs;
  }

  /** End to end: the emitted id is one normalisation of the raw id, the owner only for single-host owners. */
  lemma EmittedLabels(
      job: InspectedJob, id: string, record: InspectionRecord, collectedAt: Time,
      parseQtime: TimeParser, pf: FloatParser)
    requires Describes(job, id, record, collectedAt, parseQtime, pf)
    ensures JobLabels(job)[0] == NormalizeJobID(id)
    ensures JobLabels(job)[3] == NormalizeJobOwner(record.jobOwner) <==> SingleHostSuffix(TrimSpace(record.jobOwner))
    ensures |JobLabels(job)| == 5
    ensures JobLabels(job)[1] == record.queue && JobLabels(job)[2] == record.project && JobLabels(job)[4] == record.jobState
  {
    JobIDIdempotent(id);
    EmittedOwnerExactly(record.jobOwner);
  }
}
