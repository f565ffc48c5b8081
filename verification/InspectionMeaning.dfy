/** What the per-job series show, in terms of the detailed payload. */
module InspectionMeaning {
  import opened Wrappers
  import opened Bags
  import opened Scalars
  import opened QueueWaits
  import opened Inspection
  import opened Client
  import opened Collector
  import opened Identities
  import opened Exposition
  import opened SeriesMeaning

  /** Some job satisfies `p`. */
  predicate Any(jobs: seq<InspectedJob>, p: InspectedJob -> bool) {
    exists job :: job in jobs && p(job)
  }

  lemma AnySnoc(front: seq<InspectedJob>, last: InspectedJob, p: InspectedJob -> bool)
    ensures Any(front + [last], p) <==> Any(front, p) || p(last)
  {
    var jobs := front + [last];
    assert last in jobs && forall job :: job in front ==> job in jobs;
  }

  /** The blocks of all jobs, one after the other. */
  function Blocks(jobs: seq<InspectedJob>, block: InspectedJob -> seq<Sample>): seq<Sample> {
    if jobs == [] then [] else Blocks(jobs[..|jobs| - 1], block) + block(jobs[|jobs| - 1])
  }

  lemma {:induction false} InBlocks(jobs: seq<InspectedJob>, block: InspectedJob -> seq<Sample>, s: Sample)
    ensures s in Blocks(jobs, block) <==> Any(jobs, (job: InspectedJob) => s in block(job))
  {
    if jobs != [] {
      var front, last := jobs[..|jobs| - 1], jobs[|jobs| - 1];
      InBlocks(front, block, s);
      AnySnoc(front, last, (job: InspectedJob) => s in block(job));
      assert jobs == front + [last];
    }
  }

  lemma {:induction false} JobSeriesIsBlocks(jobs: seq<InspectedJob>)
    ensures JobSeries(jobs) == Blocks(jobs, JobSamples)
  {
    if jobs != [] {
      JobSeriesIsBlocks(jobs[..|jobs| - 1]);
    }
  }

  lemma InJobSeries(jobs: seq<InspectedJob>, s: Sample)
    ensures s in JobSeries(jobs) <==> exists job :: job in jobs && s in JobSamples(job)
  {
    InBlocks(jobs, JobSamples, s);
    JobSeriesIsBlocks(jobs);
  }

  lemma SameLabels(job: InspectedJob, s: Sample)
    requires s in JobSamples(job)
    ensures LabelsOf(s) == JobLabels(job)
  {
    RequestedLabels(job.requested, JobLabels(job), s);
    UsedLabels(job.used, JobLabels(job), s);
  }

  lemma RequestedLabels(r: Requested, labels: seq<string>, s: Sample)
    ensures s in RequestedSamples(r, labels) ==> LabelsOf(s) == labels
  {
  }

  lemma UsedLabels(u: Used, labels: seq<string>, s: Sample)
    ensures s in UsedSamples(u, labels) ==> LabelsOf(s) == labels
  {
  }

  /** The job has the labels of the series, and the series is among its own. */
  function Shows(s: Sample): InspectedJob -> bool {
    (job: InspectedJob) => LabelsOf(s) == JobLabels(job) && s in JobSamples(job)
  }

  lemma JobPlace(samples: seq<Sample>, jobs: seq<InspectedJob>, s: Sample)
    requires Carries(samples, JobSeries(jobs), PER_JOB, TOP) && PER_JOB <= Rank(s.metric)
    ensures s in samples <==> Any(jobs, Shows(s))
  {
    InJobSeries(jobs, s);
    forall job | job in jobs && s in JobSamples(job) ensures LabelsOf(s) == JobLabels(job) {
      SameLabels(job, s);
    }
  }

  /** The job of the payload has these labels, and its documented field holds `v`. */
  function Reads(
      payload: map<string, InspectionRecord>, collectedAt: Time, parseQtime: TimeParser, pf: FloatParser,
      field: JobField, labels: seq<string>, v: real): string -> bool
  {
    (id: string) => id in payload && labels == LabelsFrom(id, payload[id])
      && SourceOf(payload[id], field, collectedAt, parseQtime, pf) == Some(v)
  }

  /** Some job of the payload satisfies `p`. */
  predicate AnyID(ids: set<string>, p: string -> bool) {
    exists id :: id in ids && p(id)
  }

  lemma JobShows(
      job: InspectedJob, id: string, record: InspectionRecord, collectedAt: Time, parseQtime: TimeParser, pf: FloatParser,
      field: JobField, labels: seq<string>, v: real)
    requires Describes(job, id, record, collectedAt, parseQtime, pf)
    ensures Shows(Gauge(JobValue(field), labels, v))(job)
       <==> labels == LabelsFrom(id, record) && SourceOf(record, field, collectedAt, parseQtime, pf) == Some(v)
  {
    LabelsOfInspected(job, id, record, collectedAt, parseQtime, pf);
    FieldsFromPayload(job, id, record, collectedAt, parseQtime, pf, field, v);
  }

  /** When the jobs match the payload one by one, something holds of one of them when it holds of one of its records. */
  lemma OneByOne(
      jobs: seq<InspectedJob>, jobIDs: seq<string>, keys: set<string>, shown: InspectedJob -> bool, read: string -> bool)
    requires |jobs| == |jobIDs| && IsOrder(jobIDs, keys)
    requires forall i :: 0 <= i < |jobs| ==> (shown(jobs[i]) <==> read(jobIDs[i]))
    ensures Any(jobs, shown) <==> AnyID(keys, read)
  {
    OrderHasKeys(jobIDs, keys);
    if Any(jobs, shown) {
      var job :| job in jobs && shown(job);
      var i :| 0 <= i < |jobs| && jobs[i] == job;
      assert jobIDs[i] in jobIDs && read(jobIDs[i]);
    }
    if AnyID(keys, read) {
      var id :| id in keys && read(id);
      var i :| 0 <= i < |jobIDs| && jobIDs[i] == id;
      assert jobs[i] in jobs && shown(jobs[i]);
    }
  }

  lemma ShownFromPayload(
      jobs: seq<InspectedJob>, payload: map<string, InspectionRecord>, jobIDs: seq<string>, collectedAt: Time,
      parseQtime: TimeParser, pf: FloatParser, field: JobField, labels: seq<string>, v: real)
    requires IsOrder(jobIDs, payload.Keys) && IsInspection(jobs, payload, jobIDs, collectedAt, parseQtime, pf)
    ensures Any(jobs, Shows(Gauge(JobValue(field), labels, v)))
       <==> AnyID(payload.Keys, Reads(payload, collectedAt, parseQtime, pf, field, labels, v))
  {
    var shown := Shows(Gauge(JobValue(field), labels, v));
    var read := Reads(payload, collectedAt, parseQtime, pf, field, labels, v);
    forall i | 0 <= i < |jobs| ensures shown(jobs[i]) <==> read(jobIDs[i]) {
      JobShows(jobs[i], jobIDs[i], payload[jobIDs[i]], collectedAt, parseQtime, pf, field, labels, v);
    }
    OneByOne(jobs, jobIDs, payload.Keys, shown, read);
  }

  /** From payload to scrape: a per-job series shows a field of a job of the payload, under that job's labels. */
  lemma JobValueSeries(
      c: Scrape, payload: map<string, InspectionRecord>, jobIDs: seq<string>, collectedAt: Time, parseQtime: TimeParser,
      pf: FloatParser, field: JobField, labels: seq<string>, v: real)
    requires c.Valid() && c.options.includeJobInspectionMetrics
    requires c.snapshot.Some? && c.snapshot.value.jobInspection.Some? && IsOrder(jobIDs, payload.Keys)
    requires IsInspection(c.snapshot.value.jobInspection.value, payload, jobIDs, collectedAt, parseQtime, pf)
    ensures Gauge(JobValue(field), labels, v) in c.samples
       <==> AnyID(payload.Keys, Reads(payload, collectedAt, parseQtime, pf, field, labels, v))
  {
    var jobs := c.snapshot.value.jobInspection.value;
    PartsOfScrape(c);
    JobPlace(c.samples, jobs, Gauge(JobValue(field), labels, v));
    ShownFromPayload(jobs, payload, jobIDs, collectedAt, parseQtime, pf, field, labels, v);
  }

  ghost predicate HasLabels(jobs: seq<InspectedJob>, labels: seq<string>) {
    exists job :: job in jobs && labels == JobLabels(job)
  }

  /** And every job shown has its info series, of value one. */
  lemma JobInfoSeries(c: Scrape, labels: seq<string>, v: real)
    requires c.Valid()
    ensures Gauge(JobInfo, labels, v) in c.samples <==> v == 1.0 && HasLabels(ShownJobs(c.snapshot, c.options), labels)
  {
    PartsOfScrape(c);
    InfoInSeries(c.samples, ShownJobs(c.snapshot, c.options), labels, v);
  }

  lemma InfoInSeries(samples: seq<Sample>, jobs: seq<InspectedJob>, labels: seq<string>, v: real)
    requires Carries(samples, JobSeries(jobs), PER_JOB, TOP)
    ensures Gauge(JobInfo, labels, v) in samples <==> v == 1.0 && HasLabels(jobs, labels)
  {
    JobPlace(samples, jobs, Gauge(JobInfo, labels, v));
    forall job | job in jobs && labels == JobLabels(job) ensures Gauge(JobInfo, labels, v) in JobSamples(job) <==> v == 1.0 {
      InfoOnce(job, v);
    }
  }

  lemma InfoOnce(job: InspectedJob, v: real)
    ensures Gauge(JobInfo, JobLabels(job), v) in JobSamples(job) <==> v == 1.0
  {
    InfoOfLabels(job, JobLabels(job), v);
  }

  lemma InfoOfLabels(job: InspectedJob, labels: seq<string>, v: real)
    ensures var samples := [Gauge(JobInfo, labels, 1.0)] + RequestedSamples(job.requested, labels)
                         + UsedSamples(job.used, labels) + OptionalSample(Runtime, job.runtimeSeconds, labels)
                         + OptionalSample(QueueWait, job.queueWaitSeconds, labels);
      Gauge(JobInfo, labels, v) in samples <==> v == 1.0
  {
    var s := Gauge(JobInfo, labels, v);
    RequestedBlock(job.requested, labels);
    UsedBlock(job.used, labels);
    OptionalBlock(Runtime, job.runtimeSeconds, labels, 51, 52);
    OptionalBlock(QueueWait, job.queueWaitSeconds, labels, 52, 53);
    InBlock(RequestedSamples(job.requested, labels), labels, 37, 43, s);
    InBlock(UsedSamples(job.used, labels), labels, 43, 51, s);
    InBlock(OptionalSample(Runtime, job.runtimeSeconds, labels), labels, 51, 52, s);
    InBlock(OptionalSample(QueueWait, job.queueWaitSeconds, labels), labels, 52, 53, s);
    OnlyFirst([Gauge(JobInfo, labels, 1.0)], RequestedSamples(job.requested, labels), UsedSamples(job.used, labels),
              OptionalSample(Runtime, job.runtimeSeconds, labels), OptionalSample(QueueWait, job.queueWaitSeconds, labels), s);
  }

  lemma OnlyFirst(a: seq<Sample>, b: seq<Sample>, c: seq<Sample>, d: seq<Sample>, e: seq<Sample>, s: Sample)
    requires s !in b && s !in c && s !in d && s !in e
    ensures s in a + b + c + d + e <==> s in a
  {
  }
}
