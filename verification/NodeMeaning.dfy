/** What the series of the nodes and of the cluster show, in terms of the stored nodes and of the payload. */
module NodeMeaning {
  import opened Wrappers
  import opened Bags
  import opened Scalars
  import opened Nodes
  import opened Client
  import opened Collector
  import opened Identities
  import opened Exposition
  import opened SeriesMeaning

  const NO_NODE := NodeInfo("down", 0, 0, 0, 0, 0, 0.0, 0.0)

  // ----- what is shown -----

  /** The nodes of the payload by reported state. */
  predicate ShowsStates(samples: seq<Sample>, records: map<string, NodeRecord>, v: real) {
    && (Gauge(NodesByState, ["free"], v) in samples
        <==> v == CountWhere(records, (r: NodeRecord) => Reported(r) == "free") as real)
    && (Gauge(NodesByState, ["job-busy"], v) in samples
        <==> v == CountWhere(records, (r: NodeRecord) => Reported(r) in {"job-busy", "<various>"}) as real)
    && (Gauge(NodesByState, ["offline"], v) in samples
        <==> v == CountWhere(records, (r: NodeRecord) => Reported(r) == "offline") as real)
    && (Gauge(NodesByState, ["down"], v) in samples
        <==> v == CountWhere(records, (r: NodeRecord) =>
          Reported(r) !in {"state-unknown", "free", "job-busy", "<various>", "offline"}) as real)
  }

  /** A node's state and job count. */
  predicate ShowsInfo(samples: seq<Sample>, present: bool, name: string, n: NodeInfo, state: string, v: real) {
    && (Gauge(NodeStateInfo, [name, state], v) in samples <==> present && state == n.state && v == 1.0)
    && (Gauge(Metric.NodeJobs, [name], v) in samples <==> present && v == n.jobs as real)
  }

  /** Three amounts told apart by their last label. */
  predicate ShowsThree(
      samples: seq<Sample>, present: bool, metric: Metric, name: string, available: real, used: real, total: real, v: real)
  {
    && (Gauge(metric, [name, "available"], v) in samples <==> present && v == available)
    && (Gauge(metric, [name, "used"], v) in samples <==> present && v == used)
    && (Gauge(metric, [name, "total"], v) in samples <==> present && v == total)
  }

  /** A node's nine amounts. */
  predicate ShowsAmounts(samples: seq<Sample>, present: bool, name: string, n: NodeInfo, v: real) {
    && ShowsThree(samples, present, NodeAmount(NodeCPU), name, n.cpusAvailable as real,
                  (n.cpusTotal - n.cpusAvailable) as real, n.cpusTotal as real, v)
    && ShowsThree(samples, present, NodeAmount(NodeGPU), name, n.gpusAvailable as real,
                  (n.gpusTotal - n.gpusAvailable) as real, n.gpusTotal as real, v)
    && ShowsThree(samples, present, NodeAmount(NodeMemory), name, n.memoryAvailable,
                  n.memoryTotal - n.memoryAvailable, n.memoryTotal, v)
  }

  /** A node's utilizations, of the resources it has any of. */
  predicate ShowsShares(samples: seq<Sample>, present: bool, name: string, n: NodeInfo, v: real) {
    && (Gauge(NodeUtilization(NodeCPU), [name], v) in samples
        <==> present && IsShare(v, n.cpusAvailable as real, n.cpusTotal as real))
    && (Gauge(NodeUtilization(NodeGPU), [name], v) in samples
        <==> present && IsShare(v, n.gpusAvailable as real, n.gpusTotal as real))
    && (Gauge(NodeUtilization(NodeMemory), [name], v) in samples
        <==> present && IsShare(v, n.memoryAvailable, n.memoryTotal))
  }

  /** `v` is the used share of a resource there is some of. */
  predicate IsShare(v: real, available: real, total: real) {
    total > 0.0 && v * total == total - available
  }

  /** The cluster's amounts of one resource. */
  predicate ShowsCluster(samples: seq<Sample>, metric: Metric, available: real, total: real, v: real) {
    && (Gauge(metric, ["available"], v) in samples <==> v == available)
    && (Gauge(metric, ["used"], v) in samples <==> v == total - available)
    && (Gauge(metric, ["total"], v) in samples <==> v == total)
  }

  // ----- the parts of the node block -----

  lemma PartsOfNodes(samples: seq<Sample>, data: NodeData, cluster: Cluster, name: string, n: NodeInfo)
    requires IsNodeExposition(samples, data, cluster) && n == GetOr(data.nodes, name, n)
    ensures Carries(samples, CountSamples(data), 16, 17) && Carries(samples, ClusterSamples(cluster), 25, 28)
    ensures KeyCarries(samples, name in data.nodes, NodeSamples(name, n), name, 17, 25)
  {
    var middle :| Covers(middle, data.nodes, NodeSamples)
      && samples == CountSamples(data) + middle + ClusterSamples(cluster);
    MiddleUnderKey(middle, data.nodes, name, n);
    StateCountsBlock(data);
    ClusterBlock(cluster);
    CarriesThree(CountSamples(data), middle, ClusterSamples(cluster), [], 16, 17, 25, 28);
    KeyOfPart(samples, middle, name in data.nodes, NodeSamples(name, n), name, 17, 25, 17, 25);
  }

  lemma MiddleUnderKey(middle: seq<Sample>, nodes: map<string, NodeInfo>, name: string, n: NodeInfo)
    requires Covers(middle, nodes, NodeSamples) && n == GetOr(nodes, name, n)
    ensures IsBlock(middle, [], 17, 25) && KeyCarries(middle, name in nodes, NodeSamples(name, n), name, 17, 25)
  {
    forall k, w ensures IsBlock(NodeSamples(k, w), [k], 17, 25) {
      NodeBlock(k, w);
    }
    CoversDistinct(middle, nodes, NodeSamples, 17, 25);
    KeyOfCover(middle, nodes, NodeSamples, 17, 25, name, n);
  }

  lemma NodesCarried(c: Scrape, name: string, n: NodeInfo)
    requires c.Valid() && c.snapshot.Some? && c.snapshot.value.nodes.Some?
    requires n == GetOr(c.snapshot.value.nodes.value.nodes, name, n)
    ensures Carries(c.samples, CountSamples(c.snapshot.value.nodes.value), 16, 17)
    ensures Carries(c.samples, ClusterSamples(c.base.cluster), 25, 28)
    ensures KeyCarries(c.samples, name in c.snapshot.value.nodes.value.nodes, NodeSamples(name, n), name, 17, 25)
  {
    var data, cluster := c.snapshot.value.nodes.value, c.base.cluster;
    SnapshotCarried(c);
    PartsOfNodes(c.base.nodes, data, cluster, name, n);
    CarriesPart(c.samples, c.base.nodes, 16, 28, CountSamples(data), 16, 17);
    CarriesPart(c.samples, c.base.nodes, 16, 28, ClusterSamples(cluster), 25, 28);
    KeyOfPart(c.samples, c.base.nodes, name in data.nodes, NodeSamples(name, n), name, 17, 25, 16, 28);
  }

  // ----- states -----

  lemma FourCounts(data: NodeData, v: real)
    ensures Gauge(NodesByState, ["free"], v) in CountSamples(data) <==> v == data.countFree as real
    ensures Gauge(NodesByState, ["job-busy"], v) in CountSamples(data) <==> v == data.countBusy as real
    ensures Gauge(NodesByState, ["offline"], v) in CountSamples(data) <==> v == data.countOffline as real
    ensures Gauge(NodesByState, ["down"], v) in CountSamples(data) <==> v == data.countDown as real
  {
    StatesDiffer();
    assert ["free"][0] == "free" && ["job-busy"][0] == "job-busy" && ["offline"][0] == "offline" && ["down"][0] == "down";
  }

  lemma StatesInBlock(data: NodeData, records: map<string, NodeRecord>, pf: FloatParser, v: real)
    requires CountsMatch(data) && Stores(data.nodes, records, records.Keys, pf)
    ensures ShowsStates(CountSamples(data), records, v)
  {
    CountersMeaning(data, records, pf);
    FourCounts(data, v);
  }

  lemma StatesCarried(samples: seq<Sample>, block: seq<Sample>, records: map<string, NodeRecord>, v: real)
    requires Carries(samples, block, 16, 17) && ShowsStates(block, records, v)
    ensures ShowsStates(samples, records, v)
  {
  }

  /** From payload to series: the nodes by state. */
  lemma StateSeries(c: Scrape, records: map<string, NodeRecord>, pf: FloatParser, v: real)
    requires c.Valid() && c.snapshot.Some? && c.snapshot.value.nodes.Some? && CountsMatch(c.snapshot.value.nodes.value)
    requires Stores(c.snapshot.value.nodes.value.nodes, records, records.Keys, pf)
    ensures ShowsStates(c.samples, records, v)
  {
    NodesCarried(c, "", GetOr(c.snapshot.value.nodes.value.nodes, "", NO_NODE));
    StatesInBlock(c.snapshot.value.nodes.value, records, pf, v);
    StatesCarried(c.samples, CountSamples(c.snapshot.value.nodes.value), records, v);
  }

  // ----- single nodes -----

  /** Which part of a node's block a series stands in. */
  lemma PartsOfNode(name: string, n: NodeInfo)
    ensures var head := [Gauge(NodeStateInfo, [name, n.state], 1.0), Gauge(Metric.NodeJobs, [name], n.jobs as real)];
      Carries(NodeSamples(name, n), head, 17, 19)
    ensures Carries(NodeSamples(name, n), NodeAmounts(name, n), 19, 22)
    ensures Carries(NodeSamples(name, n), NodeShares(name, n), 22, 25)
  {
    var head := [Gauge(NodeStateInfo, [name, n.state], 1.0), Gauge(Metric.NodeJobs, [name], n.jobs as real)];
    NodeHeadBlock(name, n);
    NodeAmountsBlock(name, n);
    NodeSharesBlock(name, n);
    CarriesThree(head, NodeAmounts(name, n), NodeShares(name, n), [name], 17, 19, 22, 25);
  }

  lemma HeadShows(name: string, n: NodeInfo, state: string, v: real)
    ensures var head := [Gauge(NodeStateInfo, [name, n.state], 1.0), Gauge(Metric.NodeJobs, [name], n.jobs as real)];
      ShowsInfo(head, true, name, n, state, v)
  {
    assert [name, state][1] == state && [name, n.state][1] == n.state;
  }

  /** Three labelled amounts are told apart by their last label. */
  lemma ThreeAmounts(metric: Metric, labels: seq<string>, available: real, used: real, total: real, v: real)
    ensures var samples := Amounts(metric, labels, available, used, total);
      && (Gauge(metric, labels + ["available"], v) in samples <==> v == available)
      && (Gauge(metric, labels + ["used"], v) in samples <==> v == used)
      && (Gauge(metric, labels + ["total"], v) in samples <==> v == total)
  {
    var n := |labels|;
    assert (labels + ["available"])[n] == "available" && (labels + ["used"])[n] == "used"
        && (labels + ["total"])[n] == "total";
    assert "available"[0] != "used"[0] && "available"[0] != "total"[0] && "used"[0] != "total"[0];
  }

  predicate ThreeIn(
      samples: seq<Sample>, metric: Metric, labels: seq<string>, available: real, used: real, total: real, v: real)
  {
    && (Gauge(metric, labels + ["available"], v) in samples <==> v == available)
    && (Gauge(metric, labels + ["used"], v) in samples <==> v == used)
    && (Gauge(metric, labels + ["total"], v) in samples <==> v == total)
  }

  lemma ThreeCarried(
      samples: seq<Sample>, block: seq<Sample>, low: nat, high: nat, metric: Metric, labels: seq<string>,
      available: real, used: real, total: real, v: real)
    requires Carries(samples, block, low, high) && low <= Rank(metric) < high
    requires ThreeIn(block, metric, labels, available, used, total, v)
    ensures ThreeIn(samples, metric, labels, available, used, total, v)
  {
  }

  /** The amounts of one resource, wherever three resources are listed. */
  lemma ResourcesShow(
      cpu: Metric, gpu: Metric, memory: Metric, labels: seq<string>, a1: real, a2: real, a3: real,
      b1: real, b2: real, b3: real, c1: real, c2: real, c3: real, r0: nat, r1: nat, r2: nat, r3: nat, v: real)
    requires r0 <= Rank(cpu) < r1 <= Rank(gpu) < r2 <= Rank(memory) < r3
    ensures var samples :=
        Amounts(cpu, labels, a1, a2, a3) + Amounts(gpu, labels, b1, b2, b3) + Amounts(memory, labels, c1, c2, c3);
      && ThreeIn(samples, cpu, labels, a1, a2, a3, v)
      && ThreeIn(samples, gpu, labels, b1, b2, b3, v)
      && ThreeIn(samples, memory, labels, c1, c2, c3, v)
  {
    var a, b, c := Amounts(cpu, labels, a1, a2, a3), Amounts(gpu, labels, b1, b2, b3), Amounts(memory, labels, c1, c2, c3);
    AmountsBlock(cpu, labels, a1, a2, a3, r0, r1);
    AmountsBlock(gpu, labels, b1, b2, b3, r1, r2);
    AmountsBlock(memory, labels, c1, c2, c3, r2, r3);
    CarriesThree(a, b, c, labels, r0, r1, r2, r3);
    ThreeAmounts(cpu, labels, a1, a2, a3, v);
    ThreeAmounts(gpu, labels, b1, b2, b3, v);
    ThreeAmounts(memory, labels, c1, c2, c3, v);
    ThreeCarried(a + b + c, a, r0, r1, cpu, labels, a1, a2, a3, v);
    ThreeCarried(a + b + c, b, r1, r2, gpu, labels, b1, b2, b3, v);
    ThreeCarried(a + b + c, c, r2, r3, memory, labels, c1, c2, c3, v);
  }

  lemma CarriesThree(
      a: seq<Sample>, b: seq<Sample>, c: seq<Sample>, prefix: seq<string>, r0: nat, r1: nat, r2: nat, r3: nat)
    requires IsBlock(a, prefix, r0, r1) && IsBlock(b, prefix, r1, r2) && IsBlock(c, prefix, r2, r3) && r0 <= r1 <= r2 <= r3
    ensures Carries(a + b + c, a, r0, r1) && Carries(a + b + c, b, r1, r2) && Carries(a + b + c, c, r2, r3)
  {
    forall s: Sample
      ensures s in a ==> r0 <= Rank(s.metric) < r1
      ensures s in b ==> r1 <= Rank(s.metric) < r2
      ensures s in c ==> r2 <= Rank(s.metric) < r3
      ensures s in a + b + c <==> s in a || s in b || s in c
    {
      InBlock(a, prefix, r0, r1, s);
      InBlock(b, prefix, r1, r2, s);
      InBlock(c, prefix, r2, r3, s);
    }
  }

  lemma AmountsShow(name: string, n: NodeInfo, v: real)
    ensures ShowsAmounts(NodeAmounts(name, n), true, name, n, v)
  {
    var labels := [name];
    var usedCPU, usedGPU := (n.cpusTotal - n.cpusAvailable) as real, (n.gpusTotal - n.gpusAvailable) as real;
    var usedMemory := n.memoryTotal - n.memoryAvailable;
    ResourcesShow(
      NodeAmount(NodeCPU), NodeAmount(NodeGPU), NodeAmount(NodeMemory), labels,
      n.cpusAvailable as real, usedCPU, n.cpusTotal as real, n.gpusAvailable as real, usedGPU, n.gpusTotal as real,
      n.memoryAvailable, usedMemory, n.memoryTotal, 19, 20, 21, 22, v);
    assert NodeAmounts(name, n)
        == Amounts(NodeAmount(NodeCPU), labels, n.cpusAvailable as real, usedCPU, n.cpusTotal as real)
           + Amounts(NodeAmount(NodeGPU), labels, n.gpusAvailable as real, usedGPU, n.gpusTotal as real)
           + Amounts(NodeAmount(NodeMemory), labels, n.memoryAvailable, usedMemory, n.memoryTotal);
    ThreeNamed(NodeAmounts(name, n), NodeAmount(NodeCPU), name, n.cpusAvailable as real, usedCPU, n.cpusTotal as real, v);
    ThreeNamed(NodeAmounts(name, n), NodeAmount(NodeGPU), name, n.gpusAvailable as real, usedGPU, n.gpusTotal as real, v);
    ThreeNamed(NodeAmounts(name, n), NodeAmount(NodeMemory), name, n.memoryAvailable, usedMemory, n.memoryTotal, v);
  }

  lemma ThreeNamed(
      samples: seq<Sample>, metric: Metric, name: string, available: real, used: real, total: real, v: real)
    requires ThreeIn(samples, metric, [name], available, used, total, v)
    ensures ShowsThree(samples, true, metric, name, available, used, total, v)
  {
    assert forall kind :: [name] + [kind] == [name, kind];
  }

  lemma ShareSeries(metric: Metric, name: string, used: real, total: real, v: real)
    ensures Gauge(metric, [name], v) in Utilization(metric, name, used, total) <==> total > 0.0 && v * total == used
  {
    if total > 0.0 {
      ShareIsQuotient(used, total, v);
    }
  }

  lemma ShareIsQuotient(used: real, total: real, v: real)
    requires total > 0.0
    ensures v * total == used <==> v == used / total
  {
  }

  lemma SharesShow(name: string, n: NodeInfo, v: real)
    ensures ShowsShares(NodeShares(name, n), true, name, n, v)
  {
    var usedCPU, usedGPU := (n.cpusTotal - n.cpusAvailable) as real, (n.gpusTotal - n.gpusAvailable) as real;
    var usedMemory := n.memoryTotal - n.memoryAvailable;
    ThreeShares(n.cpusAvailable as real, usedCPU, n.cpusTotal as real, n.gpusAvailable as real, usedGPU, n.gpusTotal as real,
                n.memoryAvailable, usedMemory, n.memoryTotal, name, v);
    assert NodeShares(name, n) == Utilization(NodeUtilization(NodeCPU), name, usedCPU, n.cpusTotal as real)
                                + Utilization(NodeUtilization(NodeGPU), name, usedGPU, n.gpusTotal as real)
                                + Utilization(NodeUtilization(NodeMemory), name, usedMemory, n.memoryTotal);
  }

  lemma ThreeShares(
      freeCPU: real, usedCPU: real, cpus: real, freeGPU: real, usedGPU: real, gpus: real,
      freeMemory: real, usedMemory: real, memory: real, name: string, v: real)
    requires usedCPU == cpus - freeCPU && usedGPU == gpus - freeGPU && usedMemory == memory - freeMemory
    ensures var samples := Utilization(NodeUtilization(NodeCPU), name, usedCPU, cpus)
                           + Utilization(NodeUtilization(NodeGPU), name, usedGPU, gpus)
                           + Utilization(NodeUtilization(NodeMemory), name, usedMemory, memory);
      && (Gauge(NodeUtilization(NodeCPU), [name], v) in samples <==> IsShare(v, freeCPU, cpus))
      && (Gauge(NodeUtilization(NodeGPU), [name], v) in samples <==> IsShare(v, freeGPU, gpus))
      && (Gauge(NodeUtilization(NodeMemory), [name], v) in samples <==> IsShare(v, freeMemory, memory))
  {
    var x := Utilization(NodeUtilization(NodeCPU), name, usedCPU, cpus);
    var y := Utilization(NodeUtilization(NodeGPU), name, usedGPU, gpus);
    var z := Utilization(NodeUtilization(NodeMemory), name, usedMemory, memory);
    UtilizationBlock(NodeUtilization(NodeCPU), name, usedCPU, cpus, 22, 23);
    UtilizationBlock(NodeUtilization(NodeGPU), name, usedGPU, gpus, 23, 24);
    UtilizationBlock(NodeUtilization(NodeMemory), name, usedMemory, memory, 24, 25);
    CarriesThree(x, y, z, [name], 22, 23, 24, 25);
    ShareSeries(NodeUtilization(NodeCPU), name, usedCPU, cpus, v);
    ShareSeries(NodeUtilization(NodeGPU), name, usedGPU, gpus, v);
    ShareSeries(NodeUtilization(NodeMemory), name, usedMemory, memory, v);
  }

  /** What part of a block shows under a key, samples that carry the block show too. */
  lemma InfoCarried(
      samples: seq<Sample>, present: bool, block: seq<Sample>, part: seq<Sample>, name: string, n: NodeInfo,
      state: string, v: real)
    requires KeyCarries(samples, present, block, name, 17, 25) && Carries(block, part, 17, 19)
    requires ShowsInfo(part, true, name, n, state, v)
    ensures ShowsInfo(samples, present, name, n, state, v)
  {
  }

  lemma ThreeUnderKey(
      samples: seq<Sample>, present: bool, block: seq<Sample>, part: seq<Sample>, metric: Metric, name: string,
      available: real, used: real, total: real, v: real)
    requires KeyCarries(samples, present, block, name, 17, 25) && Carries(block, part, 19, 22) && 19 <= Rank(metric) < 22
    requires ShowsThree(part, true, metric, name, available, used, total, v)
    ensures ShowsThree(samples, present, metric, name, available, used, total, v)
  {
  }

  lemma AmountsCarried(
      samples: seq<Sample>, present: bool, block: seq<Sample>, part: seq<Sample>, name: string, n: NodeInfo, v: real)
    requires KeyCarries(samples, present, block, name, 17, 25) && Carries(block, part, 19, 22)
    requires ShowsAmounts(part, true, name, n, v)
    ensures ShowsAmounts(samples, present, name, n, v)
  {
    ThreeUnderKey(samples, present, block, part, NodeAmount(NodeCPU), name, n.cpusAvailable as real,
                  (n.cpusTotal - n.cpusAvailable) as real, n.cpusTotal as real, v);
    ThreeUnderKey(samples, present, block, part, NodeAmount(NodeGPU), name, n.gpusAvailable as real,
                  (n.gpusTotal - n.gpusAvailable) as real, n.gpusTotal as real, v);
    ThreeUnderKey(samples, present, block, part, NodeAmount(NodeMemory), name, n.memoryAvailable,
                  n.memoryTotal - n.memoryAvailable, n.memoryTotal, v);
  }

  lemma SharesCarried(
      samples: seq<Sample>, present: bool, block: seq<Sample>, part: seq<Sample>, name: string, n: NodeInfo, v: real)
    requires KeyCarries(samples, present, block, name, 17, 25) && Carries(block, part, 22, 25)
    requires ShowsShares(part, true, name, n, v)
    ensures ShowsShares(samples, present, name, n, v)
  {
  }

  /** What is shown under a name: that node's own numbers, or nothing when it is not stored. */
  lemma NodeSeries(c: Scrape, name: string, state: string, v: real)
    requires c.Valid() && c.snapshot.Some? && c.snapshot.value.nodes.Some?
    ensures var nodes := c.snapshot.value.nodes.value.nodes;
      var present, n := name in nodes, GetOr(nodes, name, NO_NODE);
      && ShowsInfo(c.samples, present, name, n, state, v)
      && ShowsAmounts(c.samples, present, name, n, v)
      && ShowsShares(c.samples, present, name, n, v)
  {
    var nodes := c.snapshot.value.nodes.value.nodes;
    var present, n := name in nodes, GetOr(nodes, name, NO_NODE);
    NodesCarried(c, name, n);
    NodeUnderKey(c.samples, present, name, n, state, v);
  }

  lemma NodeUnderKey(samples: seq<Sample>, present: bool, name: string, n: NodeInfo, state: string, v: real)
    requires KeyCarries(samples, present, NodeSamples(name, n), name, 17, 25)
    ensures ShowsInfo(samples, present, name, n, state, v)
    ensures ShowsAmounts(samples, present, name, n, v) && ShowsShares(samples, present, name, n, v)
  {
    var head := [Gauge(NodeStateInfo, [name, n.state], 1.0), Gauge(Metric.NodeJobs, [name], n.jobs as real)];
    PartsOfNode(name, n);
    HeadShows(name, n, state, v);
    InfoCarried(samples, present, NodeSamples(name, n), head, name, n, state, v);
    AmountsShow(name, n, v);
    AmountsCarried(samples, present, NodeSamples(name, n), NodeAmounts(name, n), name, n, v);
    SharesShow(name, n, v);
    SharesCarried(samples, present, NodeSamples(name, n), NodeShares(name, n), name, n, v);
  }

  // ----- the cluster -----

  function SumOver(infos: seq<NodeInfo>, f: NodeInfo -> real): real {
    if infos == [] then 0.0 else f(infos[0]) + SumOver(infos[1..], f)
  }

  lemma {:induction false} SumOverIsSum(infos: seq<NodeInfo>, g: NodeInfo -> Option<real>, f: NodeInfo -> real)
    requires forall n :: g(n) == Some(f(n))
    ensures Sum(FilterMap(infos, g)) == SumOver(infos, f)
  {
    if infos != [] {
      SumOverIsSum(infos[1..], g, f);
      assert FilterMap(infos, g) == [f(infos[0])] + FilterMap(infos[1..], g);
    }
  }

  lemma ClusterSums(cluster: Cluster, infos: seq<NodeInfo>)
    requires IsCluster(cluster, infos)
    ensures cluster.availableCPUs as real == SumOver(infos, (n: NodeInfo) => n.cpusAvailable as real)
    ensures cluster.totalCPUs as real == SumOver(infos, (n: NodeInfo) => n.cpusTotal as real)
    ensures cluster.availableGPUs as real == SumOver(infos, (n: NodeInfo) => n.gpusAvailable as real)
    ensures cluster.totalGPUs as real == SumOver(infos, (n: NodeInfo) => n.gpusTotal as real)
    ensures cluster.availableMemory == SumOver(infos, (n: NodeInfo) => n.memoryAvailable)
    ensures cluster.totalMemory == SumOver(infos, (n: NodeInfo) => n.memoryTotal)
    ensures cluster.usedCPUs as real == cluster.totalCPUs as real - cluster.availableCPUs as real
    ensures cluster.usedGPUs as real == cluster.totalGPUs as real - cluster.availableGPUs as real
    ensures cluster.usedMemory == cluster.totalMemory - cluster.availableMemory
  {
    SumOverIsSum(infos, CPUsAvailableOf, (n: NodeInfo) => n.cpusAvailable as real);
    SumOverIsSum(infos, CPUsTotalOf, (n: NodeInfo) => n.cpusTotal as real);
    SumOverIsSum(infos, GPUsAvailableOf, (n: NodeInfo) => n.gpusAvailable as real);
    SumOverIsSum(infos, GPUsTotalOf, (n: NodeInfo) => n.gpusTotal as real);
    SumOverIsSum(infos, MemoryAvailableOf, (n: NodeInfo) => n.memoryAvailable);
    SumOverIsSum(infos, MemoryTotalOf, (n: NodeInfo) => n.memoryTotal);
  }

  lemma ClusterShows(c: Cluster, v: real)
    ensures var samples := ClusterSamples(c);
      && ThreeIn(samples, ClusterAmount(NodeCPU), [], c.availableCPUs as real, c.usedCPUs as real, c.totalCPUs as real, v)
      && ThreeIn(samples, ClusterAmount(NodeGPU), [], c.availableGPUs as real, c.usedGPUs as real, c.totalGPUs as real, v)
      && ThreeIn(samples, ClusterAmount(NodeMemory), [], c.availableMemory, c.usedMemory, c.totalMemory, v)
  {
    ResourcesShow(
      ClusterAmount(NodeCPU), ClusterAmount(NodeGPU), ClusterAmount(NodeMemory), [],
      c.availableCPUs as real, c.usedCPUs as real, c.totalCPUs as real,
      c.availableGPUs as real, c.usedGPUs as real, c.totalGPUs as real,
      c.availableMemory, c.usedMemory, c.totalMemory, 25, 26, 27, 28, v);
  }

  lemma TotalsCarried(samples: seq<Sample>, block: seq<Sample>, metric: Metric, available: real, used: real, total: real, v: real)
    requires Carries(samples, block, 25, 28) && 25 <= Rank(metric) < 28 && used == total - available
    requires ThreeIn(block, metric, [], available, used, total, v)
    ensures ShowsCluster(samples, metric, available, total, v)
  {
    assert forall kind: string :: [] + [kind] == [kind];
  }

  /** The cluster's amounts are sums over its nodes, in any order. */
  lemma ClusterSeries(c: Scrape, order: seq<string>, infos: seq<NodeInfo>, v: real)
    requires c.Valid() && c.snapshot.Some? && c.snapshot.value.nodes.Some?
    requires Delivers(c.snapshot.value.nodes.value.nodes, order, infos)
    ensures ShowsCluster(c.samples, ClusterAmount(NodeCPU), SumOver(infos, (n: NodeInfo) => n.cpusAvailable as real),
                         SumOver(infos, (n: NodeInfo) => n.cpusTotal as real), v)
    ensures ShowsCluster(c.samples, ClusterAmount(NodeGPU), SumOver(infos, (n: NodeInfo) => n.gpusAvailable as real),
                         SumOver(infos, (n: NodeInfo) => n.gpusTotal as real), v)
    ensures ShowsCluster(c.samples, ClusterAmount(NodeMemory), SumOver(infos, (n: NodeInfo) => n.memoryAvailable),
                         SumOver(infos, (n: NodeInfo) => n.memoryTotal), v)
  {
    SnapshotCarried(c);
    assert IsCluster(c.base.cluster, infos);
    NodesCarried(c, "", GetOr(c.snapshot.value.nodes.value.nodes, "", NO_NODE));
    ClusterCarried(c.samples, c.base.cluster, infos, v);
  }

  lemma ClusterCarried(samples: seq<Sample>, cluster: Cluster, infos: seq<NodeInfo>, v: real)
    requires IsCluster(cluster, infos) && Carries(samples, ClusterSamples(cluster), 25, 28)
    ensures ShowsCluster(samples, ClusterAmount(NodeCPU), SumOver(infos, (n: NodeInfo) => n.cpusAvailable as real),
                         SumOver(infos, (n: NodeInfo) => n.cpusTotal as real), v)
    ensures ShowsCluster(samples, ClusterAmount(NodeGPU), SumOver(infos, (n: NodeInfo) => n.gpusAvailable as real),
                         SumOver(infos, (n: NodeInfo) => n.gpusTotal as real), v)
    ensures ShowsCluster(samples, ClusterAmount(NodeMemory), SumOver(infos, (n: NodeInfo) => n.memoryAvailable),
                         SumOver(infos, (n: NodeInfo) => n.memoryTotal), v)
  {
    ClusterTotals(samples, cluster, v);
    ClusterSums(cluster, infos);
  }

  lemma ClusterTotals(samples: seq<Sample>, c: Cluster, v: real)
    requires Carries(samples, ClusterSamples(c), 25, 28)
    requires c.usedCPUs + c.availableCPUs == c.totalCPUs && c.usedGPUs + c.availableGPUs == c.totalGPUs
    requires c.usedMemory + c.availableMemory == c.totalMemory
    ensures ShowsCluster(samples, ClusterAmount(NodeCPU), c.availableCPUs as real, c.totalCPUs as real, v)
    ensures ShowsCluster(samples, ClusterAmount(NodeGPU), c.availableGPUs as real, c.totalGPUs as real, v)
    ensures ShowsCluster(samples, ClusterAmount(NodeMemory), c.availableMemory, c.totalMemory, v)
  {
    var block := ClusterSamples(c);
    ClusterShows(c, v);
    TotalsCarried(samples, block, ClusterAmount(NodeCPU),
                  c.availableCPUs as real, c.usedCPUs as real, c.totalCPUs as real, v);
    TotalsCarried(samples, block, ClusterAmount(NodeGPU),
                  c.availableGPUs as real, c.usedGPUs as real, c.totalGPUs as real, v);
    TotalsCarried(samples, block, ClusterAmount(NodeMemory), c.availableMemory, c.usedMemory, c.totalMemory, v);
  }
}
