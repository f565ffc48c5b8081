/** The cluster snapshot and the shape of one collection attempt. */
module Client {
  import opened Wrappers
  import opened Bags
  import opened Scalars
  import opened Jobs
  import opened QueueWaits
  import opened Inspection
  import opened Nodes
  import opened Queues

  datatype Snapshot = Snapshot(
    collectedAt: Time,
    version: string,
    jobs: Option<JobData>,
    jobInspection: Option<seq<InspectedJob>>,
    queueWaits: Option<map<string, QueueWaitInfo>>,
    nodes: Option<NodeData>,
    queues: Option<map<string, QueueInfo>>,
    queueSummary: QueueSummary)

  datatype CollectionResult = CollectionResult(
    snapshot: Option<Snapshot>, jobInspectionAttempted: bool, jobInspectionError: Option<string>)

  /** What a SnapshotCollector may answer: an error, a nil result, or a result. */
  datatype Outcome = Failed(error: string) | NilResult | Returned(result: CollectionResult)

  datatype Payloads = Payloads(
    jobs: map<string, JobRecord>,
    nodes: NodesPayload, nodeNames: seq<string>,
    queues: QueuesPayload, queueNames: seq<string>)

  /** The decoded answers of the four base commands, or the first error. */
  datatype BaseAnswer = BaseError(cause: string) | BasePayloads(payloads: Payloads)

  /** The decoded answer of the detailed command; a run error and a decoding error look alike. */
  datatype DetailAnswer = DetailError(cause: string) | Details(payload: map<string, InspectionRecord>, jobIDs: seq<string>)

  /** What Client.Collect promises: a snapshot, and inspection data exactly when inspection was tried without error. */
  predicate ClientShape(outcome: Outcome) {
    && !outcome.NilResult?
    && (outcome.Returned? ==>
         var r := outcome.result;
         && r.snapshot.Some?
         && (r.jobInspectionError.Some? ==> r.jobInspectionAttempted)
         && (r.snapshot.value.jobInspection.Some? <==> r.jobInspectionAttempted && r.jobInspectionError.None?))
  }

  /** Every part of the snapshot but the inspection data is the aggregate of one and the same set of payloads. */
  ghost predicate Reflects(
      s: Snapshot, p: Payloads, version: string, collectedAt: Time, parseQtime: TimeParser, pf: FloatParser)
  {
    && s.collectedAt == collectedAt && s.version == version
    && s.jobs.Some? && s.queueWaits.Some? && s.nodes.Some? && s.queues.Some?
    && IsTallyOf(s.jobs.value, p.jobs) && IsWaitTableOf(s.queueWaits.value, p.jobs, collectedAt, parseQtime)
    && Stores(s.nodes.value.nodes, p.nodes.Records(), p.nodes.Records().Keys, pf) && CountsMatch(s.nodes.value)
    && s.queues.value.Keys == p.queues.Records().Keys
    && (forall q :: q in s.queues.value ==> Reports(s.queues.value[q], p.queues.Records()[q]))
    && IsSummary(s.queueSummary, s.queues.value)
  }

  /** All that one attempt depends on besides the detailed command. */
  datatype Inputs = Inputs(base: BaseAnswer, version: string, collectedAt: Time, parseQtime: TimeParser, pf: FloatParser)

  /** `outcome` is an answer of Client.Collect to these inputs, whatever order it walked its maps in. */
  ghost predicate Answers(outcome: Outcome, i: Inputs, includeDetailedJobData: bool, detail: DetailAnswer) {
    && ClientShape(outcome)
    && (outcome.Failed? <==> i.base.BaseError?)
    && (i.base.BaseError? ==> outcome == Failed(i.base.cause))
    && (outcome.Returned? ==>
         var r := outcome.result;
         && Reflects(r.snapshot.value, i.base.payloads, i.version, i.collectedAt, i.parseQtime, i.pf)
         && r.jobInspectionAttempted == includeDetailedJobData
         && r.jobInspectionError == (if includeDetailedJobData && detail.DetailError? then Some(detail.cause) else None)
         && (r.snapshot.value.jobInspection.Some? ==>
              && detail.Details?
              && IsInspection(r.snapshot.value.jobInspection.value,
                              detail.payload, detail.jobIDs, i.collectedAt, i.parseQtime, i.pf)))
  }

  method Collect(
      base: BaseAnswer, version: string, collectedAt: Time, includeDetailedJobData: bool, detail: DetailAnswer,
      parseQtime: TimeParser, pf: FloatParser)
    returns (outcome: Outcome)
    requires base.BasePayloads? ==>
      && IsOrder(base.payloads.nodeNames, base.payloads.nodes.Records().Keys)
      && IsOrder(base.payloads.queueNames, base.payloads.queues.Records().Keys)
    requires detail.Details? ==> IsOrder(detail.jobIDs, detail.payload.Keys)
    ensures Answers(outcome, Inputs(base, version, collectedAt, parseQtime, pf), includeDetailedJobData, detail)
  {
    if base.BaseError? {
      return Failed(base.cause);
    }
    var payloads := base.payloads;
    var jobs := ParseJobs(Some(payloads.jobs));
    var queueWaits := ParseQueueWaits(Some(payloads.jobs), collectedAt, parseQtime);
    var queues := ParseQueues(Some(payloads.queues), payloads.queueNames);
    var nodes := ParseNodes(Some(payloads.nodes), payloads.nodeNames, pf);
    var summary := SummarizeQueues(Some(queues));
    var snapshot := Snapshot(collectedAt, version, Some(jobs), None, Some(queueWaits), Some(nodes), Some(queues), summary);
    var result := CollectionResult(Some(snapshot), false, None);
    if !includeDetailedJobData {
      return Returned(result);
    }
    result := result.(jobInspectionAttempted := true);
    if detail.DetailError? {
      result := result.(jobInspectionError := Some(detail.cause));
      return Returned(result);
    }
    var inspected := ParseJobInspection(detail.payload, detail.jobIDs, collectedAt, parseQtime, pf);
    result := result.(snapshot := Some(snapshot.(jobInspection := Some(inspected))));
    outcome := Returned(result);
  }

  /** Apart from the inspection data a snapshot is a function of the payloads. */
  lemma SnapshotsAgree(
      a: Snapshot, b: Snapshot, p: Payloads, version: string, collectedAt: Time, parseQtime: TimeParser, pf: FloatParser)
    requires Reflects(a, p, version, collectedAt, parseQtime, pf) && Reflects(b, p, version, collectedAt, parseQtime, pf)
    ensures a.(jobInspection := None) == b.(jobInspection := None)
  {
    var order, records := SomeDelivery(p.jobs);
    Jobs.FunctionOfRecords(a.jobs.value, b.jobs.value, records, records);
    QueueWaits.FunctionOfRecords(a.queueWaits.value, records, b.queueWaits.value, records, collectedAt, parseQtime);
    NodesUnique(a.nodes.value, b.nodes.value, p.nodes.Records(), pf);
    QueuesUnique(a.queues.value, a.queueSummary, b.queues.value, b.queueSummary, p.queues.Records());
  }

  /**
   Whatever the detailed command answers, and whether or not it is run, two collections of the same
   base payloads return snapshots that differ in their inspection data at most; they carry it exactly
   when the command was run and answered.
   */
  lemma DetailsOnlyAddInspection(
      a: Outcome, includeA: bool, detailA: DetailAnswer, b: Outcome, includeB: bool, detailB: DetailAnswer, i: Inputs)
    requires Answers(a, i, includeA, detailA) && Answers(b, i, includeB, detailB) && i.base.BasePayloads?
    ensures a.Returned? && b.Returned?
    ensures a.result.snapshot.value.(jobInspection := None) == b.result.snapshot.value.(jobInspection := None)
    ensures a.result.snapshot.value.jobInspection.Some? <==> includeA && detailA.Details?
    ensures b.result.snapshot.value.jobInspection.Some? <==> includeB && detailB.Details?
  {
    SnapshotsAgree(a.result.snapshot.value, b.result.snapshot.value,
                   i.base.payloads, i.version, i.collectedAt, i.parseQtime, i.pf);
  }

  /** Every queue's entry is a correct distribution of the waits its records contribute. */
  ghost predicate AllDistributions(
      queues: map<string, QueueWaitInfo>, records: seq<JobRecord>, collectedAt: Time, parseQtime: TimeParser)
  {
    forall q :: q in queues ==> IsDistribution(queues[q], FilterMap(records, WaitIn(q, collectedAt, parseQtime)))
  }

  /** What a snapshot says adds up, whatever the payloads and whatever order they were walked in. */
  lemma SnapshotAddsUp(
      s: Snapshot, p: Payloads, version: string, collectedAt: Time, parseQtime: TimeParser, pf: FloatParser)
    requires Reflects(s, p, version, collectedAt, parseQtime, pf)
    ensures SumValues(s.jobs.value.statusCount) == SumValues(s.jobs.value.queueTotalCount) == |p.jobs|
    ensures SumValues(s.jobs.value.userJobCount) <= SumValues(s.jobs.value.queueJobCount)
         <= GetOr(s.jobs.value.statusCount, "running", 0)
    ensures forall q :: NotOvercounted(s.jobs.value, s.queueWaits.value, q)
    ensures forall order, records :: Delivers(p.jobs, order, records) ==>
      AllDistributions(s.queueWaits.value, records, collectedAt, parseQtime)
    ensures var n := s.nodes.value;
      n.countFree + n.countBusy + n.countOffline + n.countDown
      == |set name | name in p.nodes.Records() && !Unknown(p.nodes.Records()[name])|
  {
    JobsAddUp(s.jobs.value, s.queueWaits.value, p.jobs, collectedAt, parseQtime);
    forall order, records | Delivers(p.jobs, order, records)
      ensures AllDistributions(s.queueWaits.value, records, collectedAt, parseQtime)
    {
      TableIsDistributions(s.queueWaits.value, records, collectedAt, parseQtime);
    }
    StatesPartition(s.nodes.value, p.nodes.Records(), pf);
  }

  /** Running jobs and counted waits of a queue stay within its total. */
  ghost predicate NotOvercounted(data: JobData, queues: map<string, QueueWaitInfo>, q: string) {
    GetOr(data.queueJobCount, q, 0) + GetOr(queues, q, NO_WAITS).count <= GetOr(data.queueTotalCount, q, 0)
  }

  lemma JobsAddUp(
      data: JobData, queues: map<string, QueueWaitInfo>, jobs: map<string, JobRecord>,
      collectedAt: Time, parseQtime: TimeParser)
    requires IsTallyOf(data, jobs) && IsWaitTableOf(queues, jobs, collectedAt, parseQtime)
    ensures SumValues(data.statusCount) == SumValues(data.queueTotalCount) == |jobs|
    ensures SumValues(data.userJobCount) <= SumValues(data.queueJobCount) <= GetOr(data.statusCount, "running", 0)
    ensures forall q :: NotOvercounted(data, queues, q)
  {
    var order, records := SomeDelivery(jobs);
    OrderHasKeys(order, jobs.Keys);
    JobsConserved(data, records);
    UserlessJobsAreTheGap(data, records);
    RunningStatusCount(data, records);
    forall q ensures NotOvercounted(data, queues, q) {
      QueueNeverOvercounted(data, queues, records, q, collectedAt, parseQtime);
    }
  }

  lemma TableIsDistributions(
      queues: map<string, QueueWaitInfo>, records: seq<JobRecord>, collectedAt: Time, parseQtime: TimeParser)
    requires IsWaitTable(queues, records, collectedAt, parseQtime)
    ensures AllDistributions(queues, records, collectedAt, parseQtime)
  {
    forall q | q in queues
      ensures IsDistribution(queues[q], FilterMap(records, WaitIn(q, collectedAt, parseQtime)))
    {
      var waits := FilterMap(records, WaitIn(q, collectedAt, parseQtime));
      assert IsEntry(queues, q, waits);
      WaitsNonNegative(records, q, collectedAt, parseQtime);
      EntriesAreDistributions(waits);
    }
  }
}
