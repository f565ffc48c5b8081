/** What the series of a queue show, in terms of the queue's record and of the jobs of the payload. */
module QueueMeaning {
  import opened Wrappers
  import opened Bags
  import opened Text
  import opened Jobs
  import opened QueueWaits
  import opened Queues
  import opened Client
  import opened Collector
  import opened Identities
  import opened Exposition
  import opened SeriesMeaning
  import opened NodeMeaning

  const NO_QUEUE := QueueInfo(0, 0, false, false, 0)

  /** The finite thresholds, which are their own labels. */
  const WAIT_SECONDS: seq<nat> := [300, 1800, 3600, 7200, 21600, 43200, 86400, 172800, 432000]

  // ----- what is shown -----

  /** The state counts of the queue's record, and its total: the jobs listed in it, or else those two. */
  predicate ShowsQueueJobs(
      samples: seq<Sample>, present: bool, name: string, info: QueueInfo, jobs: map<string, JobRecord>, v: real)
  {
    var listed := CountWhere(jobs, (j: JobRecord) => j.queue == name);
    ShowsTotals(samples, present, name, info, if listed > 0 then listed else info.running + info.queued, v)
  }

  predicate ShowsTotals(samples: seq<Sample>, present: bool, name: string, info: QueueInfo, total: int, v: real) {
    && (Gauge(QueueJobs, [name, "running"], v) in samples <==> present && v == info.running as real)
    && (Gauge(QueueJobs, [name, "queued"], v) in samples <==> present && v == info.queued as real)
    && (Gauge(QueueJobs, [name, "total"], v) in samples <==> present && v == total as real)
  }

  /** Its two flags as one and zero, and its walltime. */
  predicate ShowsQueueFlags(samples: seq<Sample>, present: bool, name: string, info: QueueInfo, v: real) {
    && (Gauge(QueueEnabled, [name], v) in samples <==> present && v == if info.enabled then 1.0 else 0.0)
    && (Gauge(QueueStarted, [name], v) in samples <==> present && v == if info.started then 1.0 else 0.0)
    && (Gauge(QueueWalltime, [name], v) in samples <==> present && v == info.walltime as real)
  }

  /** The jobs waiting in the queue no longer than a threshold's seconds. */
  function WaitingWithin(
      jobs: map<string, JobRecord>, queue: string, seconds: nat, collectedAt: Time, parseQtime: TimeParser): nat
  {
    CountWhere(jobs, (j: JobRecord) =>
      Waits(j, queue, parseQtime) && (collectedAt - parseQtime(j.qtime).value) as real <= seconds as real * 1000000000.0)
  }

  /** The bucket with a threshold's label, the last bucket and the count. */
  predicate ShowsWaits(
      samples: seq<Sample>, present: bool, name: string, jobs: map<string, JobRecord>, collectedAt: Time,
      parseQtime: TimeParser, i: nat, v: real)
    requires i < 9
  {
    var all := CountWhere(jobs, (j: JobRecord) => Waits(j, name, parseQtime));
    var within := WaitingWithin(jobs, name, WAIT_SECONDS[i], collectedAt, parseQtime);
    && (Gauge(QueueWaitBucket, [name, Digits(WAIT_SECONDS[i])], v) in samples <==> present && v == within as real)
    && (Gauge(QueueWaitBucket, [name, "+Inf"], v) in samples <==> present && v == all as real)
    && (Gauge(QueueWaitCount, [name], v) in samples <==> present && v == all as real)
  }

  predicate ShowsSum(samples: seq<Sample>, present: bool, name: string, nanoseconds: int, v: real) {
    Gauge(QueueWaitSum, [name], v) in samples <==> present && Measures(v, nanoseconds)
  }

  ghost predicate IsOldest(records: seq<JobRecord>, queue: string, collectedAt: Time, parseQtime: TimeParser, v: real) {
    && (forall j :: j in records && Waits(j, queue, parseQtime) ==>
         Nanoseconds(parseQtime(j.qtime).value, collectedAt) as real <= v * 1000000000.0)
    && exists j :: (
         j in records && Waits(j, queue, parseQtime) && Measures(v, Nanoseconds(parseQtime(j.qtime).value, collectedAt)))
  }

  // ----- where a queue's series can stand -----

  /** The part of a queue's block after its buckets. */
  function WaitTail(name: string, info: QueueWaitInfo): seq<Sample> {
    [Gauge(QueueWaitCount, [name], info.count as real), Gauge(QueueWaitSum, [name], info.sum),
     Gauge(QueueOldestWait, [name], info.oldest)]
  }

  lemma PartsOfQueue(
      name: string, info: QueueInfo, jobs: Option<JobData>, queueWaits: Option<map<string, QueueWaitInfo>>)
    ensures var block, entry := QueueSamples(jobs, queueWaits)(name, info), EntryOf(queueWaits, name);
      && Carries(block, QueueHead(name, info, QueueTotal(name, info, jobs)), 28, 32)
      && Carries(block, InfoSamples(name, entry, THRESHOLDS), 32, 33)
      && Carries(block, WaitTail(name, entry), 33, 36)
  {
    var entry := EntryOf(queueWaits, name);
    var head, buckets := QueueHead(name, info, QueueTotal(name, info, jobs)), InfoSamples(name, entry, THRESHOLDS);
    QueueHeadBlock(name, info, QueueTotal(name, info, jobs));
    BucketsBlock(name, entry);
    WaitTailBlock(name, entry.count, entry.sum, entry.oldest);
    CarriesThree(head, buckets, WaitTail(name, entry), [name], 28, 32, 33, 36);
    assert head + buckets + WaitTail(name, entry) == head + (buckets + WaitTail(name, entry));
  }

  lemma PartsOfQueues(
      samples: seq<Sample>, queues: map<string, QueueInfo>, jobs: Option<JobData>,
      queueWaits: Option<map<string, QueueWaitInfo>>, name: string, info: QueueInfo)
    requires Covers(samples, queues, QueueSamples(jobs, queueWaits)) && info == GetOr(queues, name, info)
    ensures KeyCarries(samples, name in queues, QueueSamples(jobs, queueWaits)(name, info), name, 28, 36)
  {
    forall k, w ensures IsBlock(QueueSamples(jobs, queueWaits)(k, w), [k], 28, 36) {
      QueueBlock(k, w, jobs, queueWaits);
    }
    KeyOfCover(samples, queues, QueueSamples(jobs, queueWaits), 28, 36, name, info);
  }

  lemma KeyCarriesPart(
      samples: seq<Sample>, present: bool, block: seq<Sample>, part: seq<Sample>, key: string, low: nat, high: nat,
      from: nat, to: nat)
    requires KeyCarries(samples, present, block, key, low, high) && Carries(block, part, from, to)
    requires low <= from && to <= high
    ensures KeyCarries(samples, present, part, key, from, to)
  {
  }

  lemma QueueCarried(c: Scrape, name: string, info: QueueInfo)
    requires c.Valid() && c.snapshot.Some? && c.snapshot.value.queues.Some?
    requires info == GetOr(c.snapshot.value.queues.value, name, info)
    ensures var s := c.snapshot.value;
      KeyCarries(c.samples, name in s.queues.value, QueueSamples(s.jobs, s.queueWaits)(name, info), name, 28, 36)
  {
    var s := c.snapshot.value;
    SnapshotCarried(c);
    PartsOfQueues(c.base.queues, s.queues.value, s.jobs, s.queueWaits, name, info);
    KeyOfPart(c.samples, c.base.queues, name in s.queues.value, QueueSamples(s.jobs, s.queueWaits)(name, info), name,
              28, 36, 28, 36);
  }

  /** The three parts of what a scrape shows under a queue's name. */
  lemma QueueParts(c: Scrape, name: string, info: QueueInfo)
    requires c.Valid() && c.snapshot.Some? && c.snapshot.value.queues.Some?
    requires info == GetOr(c.snapshot.value.queues.value, name, info)
    ensures var s := c.snapshot.value;
      var present, entry := name in s.queues.value, EntryOf(s.queueWaits, name);
      && KeyCarries(c.samples, present, QueueHead(name, info, QueueTotal(name, info, s.jobs)), name, 28, 32)
      && KeyCarries(c.samples, present, InfoSamples(name, entry, THRESHOLDS), name, 32, 33)
      && KeyCarries(c.samples, present, WaitTail(name, entry), name, 33, 36)
  {
    var s := c.snapshot.value;
    QueueCarried(c, name, info);
    ThreePartsOfQueue(c.samples, name in s.queues.value, name, info, s.jobs, s.queueWaits);
  }

  lemma ThreePartsOfQueue(
      samples: seq<Sample>, present: bool, name: string, info: QueueInfo, jobs: Option<JobData>,
      queueWaits: Option<map<string, QueueWaitInfo>>)
    requires KeyCarries(samples, present, QueueSamples(jobs, queueWaits)(name, info), name, 28, 36)
    ensures var entry := EntryOf(queueWaits, name);
      && KeyCarries(samples, present, QueueHead(name, info, QueueTotal(name, info, jobs)), name, 28, 32)
      && KeyCarries(samples, present, InfoSamples(name, entry, THRESHOLDS), name, 32, 33)
      && KeyCarries(samples, present, WaitTail(name, entry), name, 33, 36)
  {
    var block, entry := QueueSamples(jobs, queueWaits)(name, info), EntryOf(queueWaits, name);
    PartsOfQueue(name, info, jobs, queueWaits);
    KeyCarriesPart(samples, present, block, QueueHead(name, info, QueueTotal(name, info, jobs)), name, 28, 36, 28, 32);
    KeyCarriesPart(samples, present, block, InfoSamples(name, entry, THRESHOLDS), name, 28, 36, 32, 33);
    KeyCarriesPart(samples, present, block, WaitTail(name, entry), name, 28, 36, 33, 36);
  }

  // ----- the queue's own numbers -----

  lemma TotalsInHead(name: string, info: QueueInfo, total: int, v: real)
    ensures ShowsTotals(QueueHead(name, info, total), true, name, info, total, v)
  {
    assert "running"[0] != "queued"[0] && "running"[0] != "total"[0] && "queued"[0] != "total"[0];
    assert [name, "running"][1] == "running" && [name, "queued"][1] == "queued" && [name, "total"][1] == "total";
  }

  lemma FlagsInHead(name: string, info: QueueInfo, total: int, v: real)
    ensures ShowsQueueFlags(QueueHead(name, info, total), true, name, info, v)
  {
  }

  lemma TotalsUnderKey(
      samples: seq<Sample>, present: bool, block: seq<Sample>, name: string, info: QueueInfo, total: int, v: real)
    requires KeyCarries(samples, present, block, name, 28, 32) && ShowsTotals(block, true, name, info, total, v)
    ensures ShowsTotals(samples, present, name, info, total, v)
  {
  }

  lemma FlagsUnderKey(samples: seq<Sample>, present: bool, block: seq<Sample>, name: string, info: QueueInfo, v: real)
    requires KeyCarries(samples, present, block, name, 28, 32) && ShowsQueueFlags(block, true, name, info, v)
    ensures ShowsQueueFlags(samples, present, name, info, v)
  {
  }

  lemma TotalOfPayload(name: string, info: QueueInfo, data: JobData, jobs: map<string, JobRecord>)
    requires IsTallyOf(data, jobs)
    ensures var listed := CountWhere(jobs, (j: JobRecord) => j.queue == name);
      QueueTotal(name, info, Some(data)) == if listed > 0 then listed else info.running + info.queued
  {
    JobCountsMeaning(data, jobs, name);
  }

  /** What is shown under a queue's name: its own numbers, or nothing when it is not stored. */
  lemma QueueSeries(c: Scrape, jobs: map<string, JobRecord>, name: string, v: real)
    requires c.Valid() && c.snapshot.Some? && c.snapshot.value.queues.Some?
    requires c.snapshot.value.jobs.Some? && IsTallyOf(c.snapshot.value.jobs.value, jobs)
    ensures var queues := c.snapshot.value.queues.value;
      && ShowsQueueJobs(c.samples, name in queues, name, GetOr(queues, name, NO_QUEUE), jobs, v)
      && ShowsQueueFlags(c.samples, name in queues, name, GetOr(queues, name, NO_QUEUE), v)
  {
    var queues, data := c.snapshot.value.queues.value, c.snapshot.value.jobs.value;
    var info := GetOr(queues, name, NO_QUEUE);
    QueueParts(c, name, info);
    HeadUnderKey(c.samples, name in queues, name, info, data, jobs, v);
  }

  lemma HeadUnderKey(
      samples: seq<Sample>, present: bool, name: string, info: QueueInfo, data: JobData, jobs: map<string, JobRecord>, v: real)
    requires KeyCarries(samples, present, QueueHead(name, info, QueueTotal(name, info, Some(data))), name, 28, 32)
    requires IsTallyOf(data, jobs)
    ensures ShowsQueueJobs(samples, present, name, info, jobs, v) && ShowsQueueFlags(samples, present, name, info, v)
  {
    var total := QueueTotal(name, info, Some(data));
    TotalOfPayload(name, info, data, jobs);
    TotalsInHead(name, info, total, v);
    FlagsInHead(name, info, total, v);
    TotalsUnderKey(samples, present, QueueHead(name, info, total), name, info, total, v);
    FlagsUnderKey(samples, present, QueueHead(name, info, total), name, info, v);
  }

  // ----- waits -----

  lemma WaitThresholds(i: nat)
    requires i < 9
    ensures THRESHOLDS[i] == Finite(WAIT_SECONDS[i] as real) && BoundLabel(THRESHOLDS[i]) == Digits(WAIT_SECONDS[i])
  {
    assert (WAIT_SECONDS[i] as real).Floor == WAIT_SECONDS[i];
  }

  /** Of the bucket series, the one with a threshold's label shows that threshold's bucket. */
  lemma BucketShows(name: string, info: QueueWaitInfo, i: nat, v: real)
    requires i < |THRESHOLDS|
    ensures Gauge(QueueWaitBucket, [name, BoundLabel(THRESHOLDS[i])], v) in InfoSamples(name, info, THRESHOLDS)
       <==> v == GetOr(info.buckets, THRESHOLDS[i], 0) as real
  {
    var samples, s := InfoSamples(name, info, THRESHOLDS), Gauge(QueueWaitBucket, [name, BoundLabel(THRESHOLDS[i])], v);
    BucketAt(name, info, THRESHOLDS);
    assert samples[i] in samples;
    if s in samples {
      var j :| 0 <= j < |samples| && samples[j] == s;
      assert LabelsOf(samples[j])[1] == BoundLabel(THRESHOLDS[j]);
      BoundLabelsDiffer(THRESHOLDS[i], THRESHOLDS[j]);
    }
  }

  lemma TailShows(name: string, info: QueueWaitInfo, v: real)
    ensures var samples := WaitTail(name, info);
      && (Gauge(QueueWaitCount, [name], v) in samples <==> v == info.count as real)
      && (Gauge(QueueWaitSum, [name], v) in samples <==> v == info.sum)
      && (Gauge(QueueOldestWait, [name], v) in samples <==> v == info.oldest)
  {
  }

  lemma BucketsUnderKey(
      samples: seq<Sample>, present: bool, name: string, entry: QueueWaitInfo, i: nat, within: int, all: int, v: real)
    requires KeyCarries(samples, present, InfoSamples(name, entry, THRESHOLDS), name, 32, 33) && i < 9
    requires GetOr(entry.buckets, Finite(WAIT_SECONDS[i] as real), 0) == within && GetOr(entry.buckets, Infinite, 0) == all
    ensures Gauge(QueueWaitBucket, [name, Digits(WAIT_SECONDS[i])], v) in samples <==> present && v == within as real
    ensures Gauge(QueueWaitBucket, [name, "+Inf"], v) in samples <==> present && v == all as real
  {
    WaitThresholds(i);
    BucketShows(name, entry, i, v);
    assert THRESHOLDS[9] == Infinite && BoundLabel(Infinite) == "+Inf";
    BucketShows(name, entry, 9, v);
  }

  lemma TailUnderKey(samples: seq<Sample>, present: bool, name: string, entry: QueueWaitInfo, v: real)
    requires KeyCarries(samples, present, WaitTail(name, entry), name, 33, 36)
    ensures Gauge(QueueWaitCount, [name], v) in samples <==> present && v == entry.count as real
    ensures Gauge(QueueWaitSum, [name], v) in samples <==> present && v == entry.sum
    ensures Gauge(QueueOldestWait, [name], v) in samples <==> present && v == entry.oldest
  {
    TailShows(name, entry, v);
  }

  /** What the aggregation put into an entry. */
  lemma EntryMeaning(
      queues: map<string, QueueWaitInfo>, jobs: map<string, JobRecord>, collectedAt: Time, parseQtime: TimeParser,
      name: string, i: nat)
    requires IsWaitTableOf(queues, jobs, collectedAt, parseQtime) && i < 9
    ensures var entry := EntryOf(Some(queues), name);
      && GetOr(entry.buckets, Finite(WAIT_SECONDS[i] as real), 0)
         == WaitingWithin(jobs, name, WAIT_SECONDS[i], collectedAt, parseQtime)
      && GetOr(entry.buckets, Infinite, 0) == entry.count
         == CountWhere(jobs, (j: JobRecord) => Waits(j, name, parseQtime))
  {
    WaitThresholds(i);
    assert THRESHOLDS[i] in THRESHOLDS && THRESHOLDS[9] == Infinite;
    BucketMeaning(queues, jobs, name, WAIT_SECONDS[i] as real, collectedAt, parseQtime);
    CountMeaning(queues, jobs, name, collectedAt, parseQtime);
    LastBucketIsCount(queues, jobs, name, collectedAt, parseQtime);
  }

  lemma LastBucketIsCount(
      queues: map<string, QueueWaitInfo>, jobs: map<string, JobRecord>, name: string, collectedAt: Time, parseQtime: TimeParser)
    requires IsWaitTableOf(queues, jobs, collectedAt, parseQtime)
    ensures var entry := GetOr(queues, name, NO_WAITS);
      GetOr(entry.buckets, THRESHOLDS[9], 0) == entry.count
  {
    var order, records := SomeDelivery(jobs);
    assert IsEntry(queues, name, FilterMap(records, WaitIn(name, collectedAt, parseQtime)));
    assert THRESHOLDS[9] in THRESHOLDS;
  }

  lemma WaitsUnderKey(
      samples: seq<Sample>, present: bool, queues: map<string, QueueWaitInfo>, jobs: map<string, JobRecord>,
      collectedAt: Time, parseQtime: TimeParser, name: string, i: nat, v: real)
    requires IsWaitTableOf(queues, jobs, collectedAt, parseQtime) && i < 9
    requires KeyCarries(samples, present, InfoSamples(name, EntryOf(Some(queues), name), THRESHOLDS), name, 32, 33)
    requires KeyCarries(samples, present, WaitTail(name, EntryOf(Some(queues), name)), name, 33, 36)
    ensures ShowsWaits(samples, present, name, jobs, collectedAt, parseQtime, i, v)
  {
    var entry := EntryOf(Some(queues), name);
    EntryMeaning(queues, jobs, collectedAt, parseQtime, name, i);
    BucketsUnderKey(samples, present, name, entry, i,
                    WaitingWithin(jobs, name, WAIT_SECONDS[i], collectedAt, parseQtime),
                    CountWhere(jobs, (j: JobRecord) => Waits(j, name, parseQtime)), v);
    TailUnderKey(samples, present, name, entry, v);
  }

  /** From payload to series: buckets and count are numbers of jobs waiting in the queue, by how long they have. */
  lemma WaitSeries(
      c: Scrape, jobs: map<string, JobRecord>, collectedAt: Time, parseQtime: TimeParser, name: string, i: nat, v: real)
    requires c.Valid() && c.snapshot.Some? && c.snapshot.value.queues.Some? && c.snapshot.value.queueWaits.Some?
    requires IsWaitTableOf(c.snapshot.value.queueWaits.value, jobs, collectedAt, parseQtime) && i < 9
    ensures ShowsWaits(c.samples, name in c.snapshot.value.queues.value, name, jobs, collectedAt, parseQtime, i, v)
  {
    var queues := c.snapshot.value.queues.value;
    QueueParts(c, name, GetOr(queues, name, NO_QUEUE));
    WaitsUnderKey(c.samples, name in queues, c.snapshot.value.queueWaits.value, jobs, collectedAt, parseQtime, name, i, v);
  }

  lemma SumUnderKey(
      samples: seq<Sample>, present: bool, queues: map<string, QueueWaitInfo>, records: seq<JobRecord>,
      collectedAt: Time, parseQtime: TimeParser, name: string, v: real)
    requires IsWaitTable(queues, records, collectedAt, parseQtime)
    requires KeyCarries(samples, present, WaitTail(name, EntryOf(Some(queues), name)), name, 33, 36)
    ensures ShowsSum(samples, present, name, TotalNanoseconds(records, name, collectedAt, parseQtime), v)
  {
    TailUnderKey(samples, present, name, EntryOf(Some(queues), name), v);
    SumMeaning(queues, records, name, collectedAt, parseQtime);
    MeasuresOnce(v, EntryOf(Some(queues), name).sum, TotalNanoseconds(records, name, collectedAt, parseQtime));
  }

  lemma MeasuresOnce(a: real, b: real, n: int)
    requires Measures(b, n)
    ensures Measures(a, n) <==> a == b
  {
  }

  /** The sum is the total time waited, in every order of the jobs. */
  lemma WaitSumSeries(
      c: Scrape, records: seq<JobRecord>, collectedAt: Time, parseQtime: TimeParser, name: string, v: real)
    requires c.Valid() && c.snapshot.Some? && c.snapshot.value.queues.Some? && c.snapshot.value.queueWaits.Some?
    requires IsWaitTable(c.snapshot.value.queueWaits.value, records, collectedAt, parseQtime)
    ensures ShowsSum(c.samples, name in c.snapshot.value.queues.value, name,
                     TotalNanoseconds(records, name, collectedAt, parseQtime), v)
  {
    var queues := c.snapshot.value.queues.value;
    QueueParts(c, name, GetOr(queues, name, NO_QUEUE));
    SumUnderKey(c.samples, name in queues, c.snapshot.value.queueWaits.value, records, collectedAt, parseQtime, name, v);
  }

  lemma OldestUnderKey(
      samples: seq<Sample>, present: bool, queues: map<string, QueueWaitInfo>, records: seq<JobRecord>,
      collectedAt: Time, parseQtime: TimeParser, name: string, v: real)
    requires IsWaitTable(queues, records, collectedAt, parseQtime)
    requires KeyCarries(samples, present, WaitTail(name, EntryOf(Some(queues), name)), name, 33, 36)
    ensures Gauge(QueueOldestWait, [name], v) in samples ==>
      present && ShownOldest(queues, records, collectedAt, parseQtime, name, v)
  {
    TailUnderKey(samples, present, name, EntryOf(Some(queues), name), v);
    if name in queues {
      OldestMeaning(queues, records, name, collectedAt, parseQtime);
    }
  }

  /** The wait of a waiting job, exceeded by none; zero when no job waits. */
  ghost predicate ShownOldest(
      queues: map<string, QueueWaitInfo>, records: seq<JobRecord>, collectedAt: Time, parseQtime: TimeParser,
      name: string, v: real)
  {
    if name in queues then IsOldest(records, name, collectedAt, parseQtime, v) else v == 0.0
  }

  lemma OldestWaitSeries(
      c: Scrape, records: seq<JobRecord>, collectedAt: Time, parseQtime: TimeParser, name: string, v: real)
    requires c.Valid() && c.snapshot.Some? && c.snapshot.value.queues.Some? && c.snapshot.value.queueWaits.Some?
    requires IsWaitTable(c.snapshot.value.queueWaits.value, records, collectedAt, parseQtime)
    ensures Gauge(QueueOldestWait, [name], v) in c.samples ==>
      name in c.snapshot.value.queues.value
      && ShownOldest(c.snapshot.value.queueWaits.value, records, collectedAt, parseQtime, name, v)
  {
    var queues := c.snapshot.value.queues.value;
    QueueParts(c, name, GetOr(queues, name, NO_QUEUE));
    OldestUnderKey(c.samples, name in queues, c.snapshot.value.queueWaits.value, records, collectedAt, parseQtime, name, v);
  }
}
