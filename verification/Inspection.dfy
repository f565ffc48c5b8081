/** The detailed per-job payload, its typed form, and the labels derived from it. */
module Inspection {
  import opened Wrappers
  import opened Bags
  import opened Text
  import opened Scalars
  import opened Jobs
  import opened QueueWaits

  datatype Resources = Resources(
    mem: Scalar, mpiProcs: Scalar, ncpus: Scalar, ngpus: Scalar, nodeCount: Scalar, walltime: Scalar,
    cpuPercent: Scalar, cpuTime: Scalar, vmem: Scalar)

  datatype InspectionRecord = InspectionRecord(
    queue: string, project: string, jobOwner: string, jobState: string, qtime: string, stime: string,
    resourceList: Resources, resourcesUsed: Resources)

  datatype Requested = Requested(
    memoryBytes: Option<real>, walltimeSeconds: Option<real>, cpuCores: Option<real>,
    gpuDevices: Option<real>, mpiProcesses: Option<real>, nodes: Option<real>)

  datatype Used = Used(
    cpuPercent: Option<real>, cpuTimeSeconds: Option<real>, memoryBytes: Option<real>,
    virtualMemoryBytes: Option<real>, cpuCores: Option<real>, gpuDevices: Option<real>, walltimeSeconds: Option<real>)

  const NOT_USED := Used(None, None, None, None, None, None, None)

  datatype InspectedJob = InspectedJob(
    jobID: string, queue: string, project: string, jobOwner: string, jobState: string,
    requested: Requested, used: Used, runtimeSeconds: Option<real>, queueWaitSeconds: Option<real>)

  // ----- labels -----

  /** The leading digits of `s`. */
  function DigitRun(s: string): (run: string)
    ensures AllDigits(run) && (run == "" <==> s == "" || !IsDigit(s[0]))
  {
    if s == "" || !IsDigit(s[0]) then "" else [s[0]] + DigitRun(s[1..])
  }

  /** The leftmost longest run of digits: regexp `[0-9]+`, FindString. */
  function FirstNumber(s: string): (run: string)
    ensures AllDigits(run)
  {
    if s == "" then "" else if IsDigit(s[0]) then DigitRun(s) else FirstNumber(s[1..])
  }

  function NormalizeJobID(raw: string): string {
    var jobID := TrimSpace(raw);
    if FirstNumber(jobID) != "" then FirstNumber(jobID) else jobID
  }

  /** strings.LastIndex; -1 when absent. */
  function LastIndexOf(s: string, c: char): (i: int)
    ensures -1 <= i < |s| && (i >= 0 ==> s[i] == c)
    ensures forall j :: i < j < |s| ==> s[j] != c
  {
    if s == "" then -1
    else if s[|s| - 1] == c then |s| - 1
    else LastIndexOf(s[..|s| - 1], c)
  }

  function NormalizeJobOwner(raw: string): string {
    var owner := TrimSpace(raw);
    var separator := LastIndexOf(owner, '@');
    if separator <= 0 then owner else owner[..separator]
  }

  /** The id is the first number of the text, whatever stands around it. */
  lemma {:induction false} FirstNumberFound(prefix: string, d: string, rest: string)
    requires (forall i :: 0 <= i < |prefix| ==> !IsDigit(prefix[i])) && d != "" && AllDigits(d)
    requires rest == "" || !IsDigit(rest[0])
    ensures FirstNumber(prefix + d + rest) == d
  {
    var s := prefix + d + rest;
    if prefix == "" {
      assert s == d + rest;
      DigitRunStops(d, rest);
    } else {
      assert s[0] == prefix[0] && s[1..] == prefix[1..] + d + rest;
      FirstNumberFound(prefix[1..], d, rest);
    }
  }

  lemma {:induction false} DigitRunStops(d: string, rest: string)
    requires AllDigits(d) && (rest == "" || !IsDigit(rest[0]))
    ensures DigitRun(d + rest) == d
  {
    if d == "" {
      assert d + rest == rest;
    } else {
      assert (d + rest)[0] == d[0] && (d + rest)[1..] == d[1..] + rest;
      DigitRunStops(d[1..], rest);
    }
  }

  /** So a job id loses its server and its array index, and keeps its number. */
  lemma JobIDIsItsNumber(raw: string, prefix: string, d: string, rest: string)
    requires TrimSpace(raw) == prefix + d + rest && d != "" && AllDigits(d)
    requires (forall i :: 0 <= i < |prefix| ==> !IsDigit(prefix[i])) && (rest == "" || !IsDigit(rest[0]))
    ensures NormalizeJobID(raw) == d
  {
    FirstNumberFound(prefix, d, rest);
  }

  /** An owner loses what follows the last '@', and the '@'. */
  lemma OwnerLosesHost(raw: string, owner: string, host: string)
    requires TrimSpace(raw) == owner + "@" + host && owner != "" && '@' !in host
    ensures NormalizeJobOwner(raw) == owner
  {
    var s := owner + "@" + host;
    assert s[|owner|] == '@' && forall j :: |owner| < j < |s| ==> s[j] == host[j - |owner| - 1];
    assert s[..|owner|] == owner;
  }

  lemma {:induction false} DigitRunOfDigits(s: string)
    requires AllDigits(s)
    ensures DigitRun(s) == s
  {
    if s != "" {
      DigitRunOfDigits(s[1..]);
    }
  }

  /** Normalising twice, once when parsing and once when emitting, changes nothing for job ids. */
  lemma JobIDIdempotent(raw: string)
    ensures NormalizeJobID(NormalizeJobID(raw)) == NormalizeJobID(raw)
  {
    var jobID := TrimSpace(raw);
    var number := FirstNumber(jobID);
    TrimSpaceShape(raw);
    TrimSpaceShape(jobID);
    if number != "" {
      DigitsUnpadded(number);
      DigitRunOfDigits(number);
      assert IsDigit(number[0]);
    }
  }

  /** An owner text that normalisation leaves alone. */
  predicate OwnerFixed(s: string) {
    Unpadded(s) && forall i :: 0 < i < |s| ==> s[i] != '@'
  }

  lemma OwnerFixedPoints(s: string)
    ensures NormalizeJobOwner(s) == s <==> OwnerFixed(s)
  {
    TrimSpaceShape(s);
    TrimLeftShape(s);
    TrimRightShape(TrimLeft(s));
  }

  /** At most one '@' after the first character, and no space right before it. */
  predicate SingleHostSuffix(owner: string) {
    forall i :: 0 < i < |owner| && owner[i] == '@' ==>
      && !IsSpace(owner[i - 1])
      && forall j :: 0 < j < |owner| && owner[j] == '@' ==> j == i
  }

  /** The emitted owner is the documented single strip exactly for owners with one host suffix at most. */
  lemma EmittedOwnerExactly(raw: string)
    ensures NormalizeJobOwner(NormalizeJobOwner(raw)) == NormalizeJobOwner(raw)
       <==> SingleHostSuffix(TrimSpace(raw))
  {
    var owner := TrimSpace(raw);
    var separator := LastIndexOf(owner, '@');
    var once := NormalizeJobOwner(raw);
    TrimSpaceShape(raw);
    OwnerFixedPoints(once);
    if separator > 0 {
      assert forall i :: 0 <= i < separator ==> once[i] == owner[i];
    }
  }

  /** The documented example: stripping `foo@bar@host` gives `foo@bar`, but the emitted label is `foo`. */
  lemma TwoHostsLoseTwo()
    ensures NormalizeJobOwner("foo@bar@host") == "foo@bar"
    ensures NormalizeJobOwner(NormalizeJobOwner("foo@bar@host")) == "foo"
  {
    var raw := "foo@bar@host";
    TrimSpaceShape(raw);
    assert raw[7] == '@' && forall j :: 7 < j < 12 ==> raw[j] != '@';
    assert raw[..7] == "foo@bar";
    TrimSpaceShape("foo@bar");
    assert "foo@bar"[3] == '@' && forall j :: 3 < j < 7 ==> "foo@bar"[j] != '@';
    assert "foo@bar"[..3] == "foo";
  }

  // ----- the typed jobs -----

  function AsReal(n: Option<int>): Option<real> {
    match n case Some(v) => Some(v as real) case None => None
  }

  function OptionalElapsedSeconds(raw: string, collectedAt: Time, parseQtime: TimeParser): Option<real> {
    match parseQtime(raw) case Some(at) => Some(Elapsed(at, collectedAt)) case None => None
  }

  function RequestedOf(r: Resources, pf: FloatParser): Requested {
    Requested(r.mem.OptionalBytes(pf), AsReal(r.walltime.OptionalDurationSeconds()), r.ncpus.OptionalNumber(pf),
              r.ngpus.OptionalNumber(pf), r.mpiProcs.OptionalNumber(pf), r.nodeCount.OptionalNumber(pf))
  }

  function UsedOf(r: Resources, pf: FloatParser): Used {
    Used(r.cpuPercent.OptionalNumber(pf), AsReal(r.cpuTime.OptionalDurationSeconds()), r.mem.OptionalBytes(pf),
         r.vmem.OptionalBytes(pf), r.ncpus.OptionalNumber(pf), r.ngpus.OptionalNumber(pf),
         AsReal(r.walltime.OptionalDurationSeconds()))
  }

  /** `job` is the typed form of `record`: usage and runtime only while running, waits only while queued. */
  ghost predicate Describes(
      job: InspectedJob, id: string, record: InspectionRecord, collectedAt: Time,
      parseQtime: TimeParser, pf: FloatParser)
  {
    && job.jobID == NormalizeJobID(id) && job.jobOwner == NormalizeJobOwner(record.jobOwner)
    && job.queue == record.queue && job.project == record.project && job.jobState == record.jobState
    && job.requested == RequestedOf(record.resourceList, pf)
    && (record.jobState in {"R", "r"} ==>
         && job.used == UsedOf(record.resourcesUsed, pf)
         && job.runtimeSeconds == OptionalElapsedSeconds(record.stime, collectedAt, parseQtime))
    && (record.jobState !in {"R", "r"} ==> job.used == NOT_USED && job.runtimeSeconds == None)
    && job.queueWaitSeconds == (if record.jobState in {"Q", "q"}
         then OptionalElapsedSeconds(record.qtime, collectedAt, parseQtime) else None)
  }

  /** How long a job has waited or run, from its own timestamps, and in which states it shows either. */
  lemma InspectedTimes(
      job: InspectedJob, id: string, record: InspectionRecord, collectedAt: Time,
      parseQtime: TimeParser, pf: FloatParser)
    requires Describes(job, id, record, collectedAt, parseQtime, pf)
    ensures job.queueWaitSeconds.Some? <==> record.jobState in {"Q", "q"} && parseQtime(record.qtime).Some?
    ensures job.queueWaitSeconds.Some? ==>
      Measures(job.queueWaitSeconds.value, Nanoseconds(parseQtime(record.qtime).value, collectedAt))
    ensures job.runtimeSeconds.Some? <==> record.jobState in {"R", "r"} && parseQtime(record.stime).Some?
    ensures job.runtimeSeconds.Some? ==>
      Measures(job.runtimeSeconds.value, Nanoseconds(parseQtime(record.stime).value, collectedAt))
  {
    if parseQtime(record.qtime).Some? {
      ElapsedMeasured(parseQtime(record.qtime).value, collectedAt);
    }
    if parseQtime(record.stime).Some? {
      ElapsedMeasured(parseQtime(record.stime).value, collectedAt);
    }
  }

  method InspectJob(
      id: string, record: InspectionRecord, collectedAt: Time, parseQtime: TimeParser, pf: FloatParser)
    returns (job: InspectedJob)
    ensures Describes(job, id, record, collectedAt, parseQtime, pf)
  {
    job := InspectedJob(
      NormalizeJobID(id), record.queue, record.project, NormalizeJobOwner(record.jobOwner), record.jobState,
      RequestedOf(record.resourceList, pf), NOT_USED, None, None);
    StateFolds(record.jobState);
    if EqualFold(record.jobState, "R") {
      job := job.(used := UsedOf(record.resourcesUsed, pf),
                  runtimeSeconds := OptionalElapsedSeconds(record.stime, collectedAt, parseQtime));
    }
    if EqualFold(record.jobState, "Q") {
      job := job.(queueWaitSeconds := OptionalElapsedSeconds(record.qtime, collectedAt, parseQtime));
    }
  }

  /** The listed jobs are the typed forms of the payload's records, in the order of `jobIDs`. */
  ghost predicate IsInspection(
      jobs: seq<InspectedJob>, payload: map<string, InspectionRecord>, jobIDs: seq<string>,
      collectedAt: Time, parseQtime: TimeParser, pf: FloatParser)
  {
    && |jobs| == |jobIDs|
    && forall i :: 0 <= i < |jobIDs| ==>
         jobIDs[i] in payload && Describes(jobs[i], jobIDs[i], payload[jobIDs[i]], collectedAt, parseQtime, pf)
  }

  /** After decoding: `jobIDs` is what sort.Strings makes of the payload's keys. */
  method ParseJobInspection(
      payload: map<string, InspectionRecord>, jobIDs: seq<string>, collectedAt: Time,
      parseQtime: TimeParser, pf: FloatParser)
    returns (jobs: seq<InspectedJob>)
    requires IsOrder(jobIDs, payload.Keys)
    ensures IsInspection(jobs, payload, jobIDs, collectedAt, parseQtime, pf)
  {
    OrderHasKeys(jobIDs, payload.Keys);
    jobs := [];
    for i := 0 to |jobIDs|
      invariant IsInspection(jobs, payload, jobIDs[..i], collectedAt, parseQtime, pf)
    {
      assert jobIDs[i] in jobIDs;
      var job := InspectJob(jobIDs[i], payload[jobIDs[i]], collectedAt, parseQtime, pf);
      jobs := jobs + [job];
    }
    assert jobIDs[..|jobIDs|] == jobIDs;
  }

  // ----- agreement with the queue-wait aggregate -----

  /** The wait an inspected job shows in `queue`. */
  function InspectedWaitIn(queue: string): InspectedJob -> Option<real> {
    (job: InspectedJob) => if job.queue == queue then job.queueWaitSeconds else None
  }

  /** The two payloads describe the same jobs. */
  ghost predicate SameJobs(jobs: map<string, JobRecord>, payload: map<string, InspectionRecord>) {
    && jobs.Keys == payload.Keys
    && forall id :: id in jobs ==>
         && jobs[id].queue == payload[id].queue
         && jobs[id].jobState == payload[id].jobState
         && jobs[id].qtime == payload[id].qtime
  }

  /**
   The aggregate built by walking the job map in any order equals, in every named queue, the
   statistics of the per-job waits listed in id order.
   */
  lemma AggregateMatchesInspection(
      jobs: map<string, JobRecord>, payload: map<string, InspectionRecord>, jobIDs: seq<string>,
      collectedAt: Time, parseQtime: TimeParser, pf: FloatParser,
      queues: map<string, QueueWaitInfo>, inspected: seq<InspectedJob>, queue: string)
    requires SameJobs(jobs, payload) && IsOrder(jobIDs, payload.Keys)
    requires parseQtime("") == None
    requires IsWaitTableOf(queues, jobs, collectedAt, parseQtime)
    requires IsInspection(inspected, payload, jobIDs, collectedAt, parseQtime, pf)
    ensures IsEntry(queues, queue, FilterMap(inspected, InspectedWaitIn(queue)))
       <==> queue != "" || FilterMap(inspected, InspectedWaitIn("")) == []
  {
    OrderHasKeys(jobIDs, jobs.Keys);
    var records := Values(jobs, jobIDs);
    assert Delivers(jobs, jobIDs, records);
    assert IsWaitTable(queues, records, collectedAt, parseQtime);
    var f := WaitIn(queue, collectedAt, parseQtime);
    assert IsEntry(queues, queue, FilterMap(records, f));
    if queue == "" {
      NothingIn(records, f);
    } else {
      forall i | 0 <= i < |records| ensures f(records[i]) == InspectedWaitIn(queue)(inspected[i]) {
        WaitsCorrespond(records[i], inspected[i], jobIDs[i], payload[jobIDs[i]], collectedAt, parseQtime, pf, queue);
      }
      FilterMapsAgree(records, f, inspected, InspectedWaitIn(queue));
    }
  }

  lemma WaitsCorrespond(
      record: JobRecord, job: InspectedJob, id: string, detail: InspectionRecord, collectedAt: Time,
      parseQtime: TimeParser, pf: FloatParser, queue: string)
    requires record.queue == detail.queue && record.jobState == detail.jobState && record.qtime == detail.qtime
    requires Describes(job, id, detail, collectedAt, parseQtime, pf) && parseQtime("") == None && queue != ""
    ensures WaitIn(queue, collectedAt, parseQtime)(record) == InspectedWaitIn(queue)(job)
  {
    StateFolds(record.jobState);
  }

  lemma {:induction false} NothingIn<T, V>(xs: seq<T>, f: T -> Option<V>)
    requires forall x :: f(x).None?
    ensures FilterMap(xs, f) == []
  {
    if xs != [] {
      NothingIn(xs[1..], f);
    }
  }

  lemma {:induction false} FilterMapsAgree<S, T, V>(xs: seq<S>, f: S -> Option<V>, ys: seq<T>, g: T -> Option<V>)
    requires |xs| == |ys| && forall i :: 0 <= i < |xs| ==> f(xs[i]) == g(ys[i])
    ensures FilterMap(xs, f) == FilterMap(ys, g)
  {
    if xs != [] {
      forall i | 0 <= i < |xs| - 1 ensures f(xs[1..][i]) == g(ys[1..][i]) {
        assert xs[1..][i] == xs[i + 1] && ys[1..][i] == ys[i + 1];
      }
      FilterMapsAgree(xs[1..], f, ys[1..], g);
    }
  }
}
