/** Waiting times of queued jobs, aggregated per queue into cumulative buckets. */
module QueueWaits {
  import opened Wrappers
  import opened Bags
  import opened Text
  import opened Jobs

  /** Nanoseconds; zero is Go's zero time. */
  type Time = int

  /** The timestamp reader (time.Parse over several layouts); it stays abstract. */
  type TimeParser = string -> Option<Time>

  datatype Bound = Finite(seconds: real) | Infinite

  /** queueWaitBuckets */
  const THRESHOLDS: seq<Bound> := [
    Finite(300.0), Finite(1800.0), Finite(3600.0), Finite(7200.0), Finite(21600.0),
    Finite(43200.0), Finite(86400.0), Finite(172800.0), Finite(432000.0), Infinite
  ]

  predicate Within(wait: real, bound: Bound) {
    match bound case Finite(seconds) => wait <= seconds case Infinite => true
  }

  predicate NoLater(a: Bound, b: Bound) {
    b.Infinite? || (a.Finite? && a.seconds <= b.seconds)
  }

  datatype QueueWaitInfo = QueueWaitInfo(buckets: map<Bound, int>, count: int, sum: real, oldest: real)

  /** Go's zero value, which a lookup of an absent queue yields. */
  const NO_WAITS := QueueWaitInfo(map[], 0, 0.0, 0.0)

  // ----- what an entry should hold -----

  function CountWithin(waits: seq<real>, bound: Bound): (n: nat)
    ensures n <= |waits|
  {
    match bound case Finite(seconds) => CountAtMost(waits, seconds) case Infinite => |waits|
  }

  function Oldest(waits: seq<real>): real {
    if waits == [] then 0.0
    else
      var before, last := Oldest(waits[..|waits| - 1]), waits[|waits| - 1];
      if last > before then last else before
  }

  function Histogram(waits: seq<real>): map<Bound, int> {
    map b | b in THRESHOLDS :: CountWithin(waits, b)
  }

  /** The batch statistics of a list of waiting times. */
  function Aggregate(waits: seq<real>): QueueWaitInfo {
    QueueWaitInfo(Histogram(waits), |waits|, Sum(waits), Oldest(waits))
  }

  /** Absent queues are those without waits; present ones hold the statistics of theirs. */
  predicate IsEntry(queues: map<string, QueueWaitInfo>, queue: string, waits: seq<real>) {
    if waits == [] then queue !in queues else queue in queues && queues[queue] == Aggregate(waits)
  }

  /** QueueWaitData, with the waits recorded so far as its history. */
  class QueueWaitData {
    var queues: map<string, QueueWaitInfo>
    ghost var waits: map<string, seq<real>>

    ghost predicate Valid()
      reads this
    {
      && queues.Keys == waits.Keys
      && forall q :: q in waits ==> waits[q] != [] && queues[q] == Aggregate(waits[q])
    }

    ghost function Recorded(queue: string): seq<real>
      reads this
    {
      GetOr(waits, queue, [])
    }

    constructor ()
      ensures Valid() && waits == map[]
    {
      queues, waits := map[], map[];
    }

    method AddQueueWait(queue: string, wait: real)
      requires Valid()
      modifies this
      ensures Valid() && waits == old(waits)[queue := old(Recorded(queue)) + [wait]]
      ensures queues == old(queues)[queue := Aggregate(waits[queue])]
    {
      ghost var before := Recorded(queue);
      var info := GetOr(queues, queue, NO_WAITS);
      info := AddWait(info, before, wait);
      queues := queues[queue := info];
      waits := waits[queue := before + [wait]];
    }
  }

  method AddWait(entry: QueueWaitInfo, ghost before: seq<real>, wait: real) returns (info: QueueWaitInfo)
    requires entry == if before == [] then NO_WAITS else Aggregate(before)
    ensures info == Aggregate(before + [wait])
  {
    info := entry;
    if info.buckets == map[] {
      HistogramNonEmpty(before);
      var zeros := ZeroBuckets();
      info := info.(buckets := zeros);
    }
    info := info.(count := info.count + 1, sum := info.sum + wait);
    if wait > info.oldest {
      info := info.(oldest := wait);
    }
    var buckets := CountInto(info.buckets, before, wait);
    info := info.(buckets := buckets);
    AggregateSnoc(before, wait);
  }

  lemma HistogramNonEmpty(waits: seq<real>)
    ensures Histogram(waits) != map[]
  {
    assert THRESHOLDS[0] in Histogram(waits);
  }

  method ZeroBuckets() returns (zeros: map<Bound, int>)
    ensures zeros == Histogram([])
  {
    zeros := map[];
    for i := 0 to |THRESHOLDS|
      invariant zeros.Keys == set b | b in THRESHOLDS[..i]
      invariant forall b :: b in zeros ==> zeros[b] == 0
    {
      assert THRESHOLDS[..i + 1] == THRESHOLDS[..i] + [THRESHOLDS[i]];
      zeros := zeros[THRESHOLDS[i] := 0];
    }
    assert THRESHOLDS[..|THRESHOLDS|] == THRESHOLDS;
    assert forall b :: b in Histogram([]) ==> Histogram([])[b] == 0;
  }

  /** The bucket loop: every threshold the wait fits under goes up by one. */
  method CountInto(buckets: map<Bound, int>, ghost before: seq<real>, wait: real) returns (r: map<Bound, int>)
    requires buckets == Histogram(before)
    ensures r == Histogram(before + [wait])
  {
    ThresholdsDiffer();
    r := CountOver(buckets, THRESHOLDS, wait);
    HistogramSnoc(buckets, r, before, wait);
  }

  lemma ThresholdsDiffer()
    ensures Distinct(THRESHOLDS)
  {
  }

  method CountOver(buckets: map<Bound, int>, bounds: seq<Bound>, wait: real) returns (r: map<Bound, int>)
    requires Distinct(bounds) && forall b :: b in bounds ==> b in buckets
    ensures r.Keys == buckets.Keys
    ensures forall b :: b in buckets ==> r[b] == buckets[b] + (if b in bounds && Within(wait, b) then 1 else 0)
  {
    r := buckets;
    for i := 0 to |bounds|
      invariant r.Keys == buckets.Keys
      invariant forall b :: b in buckets ==>
        r[b] == buckets[b] + (if b in bounds[..i] && Within(wait, b) then 1 else 0)
    {
      var bucket := bounds[i];
      assert bounds[..i + 1] == bounds[..i] + [bucket] && bucket !in bounds[..i];
      if Within(wait, bucket) {
        r := r[bucket := r[bucket] + 1];
      }
    }
    assert bounds[..|bounds|] == bounds;
  }

  lemma HistogramSnoc(buckets: map<Bound, int>, next: map<Bound, int>, before: seq<real>, wait: real)
    requires buckets == Histogram(before) && next.Keys == buckets.Keys
    requires forall b :: b in buckets ==> next[b] == buckets[b] + (if Within(wait, b) then 1 else 0)
    ensures next == Histogram(before + [wait])
  {
    forall b | b in buckets ensures next[b] == Histogram(before + [wait])[b] {
      CountWithinSnoc(before, wait, b);
    }
  }

  lemma ThresholdsDistinct(i: nat)
    requires i < |THRESHOLDS|
    ensures THRESHOLDS[i] !in THRESHOLDS[..i]
  {
    assert forall j :: 0 <= j < i ==> THRESHOLDS[j] != THRESHOLDS[i];
  }

  lemma CountWithinSnoc(waits: seq<real>, wait: real, bound: Bound)
    ensures CountWithin(waits + [wait], bound) == CountWithin(waits, bound) + (if Within(wait, bound) then 1 else 0)
  {
    if bound.Finite? {
      CountAppend(waits, [wait], bound.seconds);
      assert [wait][1..] == [];
    }
  }

  lemma AggregateSnoc(waits: seq<real>, wait: real)
    ensures var old_, next := Aggregate(waits), Aggregate(waits + [wait]);
      && next.count == old_.count + 1
      && next.sum == old_.sum + wait
      && next.oldest == if wait > old_.oldest then wait else old_.oldest
  {
    SumAppend(waits, [wait]);
    assert [wait][1..] == [];
    assert (waits + [wait])[..|waits|] == waits;
  }

  // ----- from job records -----

  function Seconds(duration: int): real {
    duration as real / 1000000000.0
  }

  /** The non-negative time from `since` to `collectedAt`. */
  function Elapsed(since: Time, collectedAt: Time): (seconds: real)
    ensures seconds >= 0.0
  {
    var elapsed := Seconds(collectedAt - since);
    if elapsed < 0.0 then 0.0 else elapsed
  }

  /** The wait a record contributes to `queue`, if any. */
  function WaitIn(queue: string, collectedAt: Time, parseQtime: TimeParser): JobRecord -> Option<real> {
    (record: JobRecord) =>
      if EqualFold(record.jobState, "Q") && record.queue == queue && queue != "" && record.qtime != "" then
        match parseQtime(record.qtime) case Some(at) => Some(Elapsed(at, collectedAt)) case None => None
      else None
  }

  /** The loop body up to the update: the clamped wait, unless the record is skipped. */
  method WaitOf(record: JobRecord, collectedAt: Time, parseQtime: TimeParser) returns (wait: Option<real>)
    ensures forall q :: WaitIn(q, collectedAt, parseQtime)(record) == if q == record.queue then wait else None
  {
    if !EqualFold(record.jobState, "Q") || record.queue == "" || record.qtime == "" {
      return None;
    }
    var queuedAt := parseQtime(record.qtime);
    if queuedAt.None? {
      return None;
    }
    var waitSeconds := Seconds(collectedAt - queuedAt.value);
    if waitSeconds < 0.0 {
      waitSeconds := 0.0;
    }
    wait := Some(waitSeconds);
  }

  method RecordWait(data: QueueWaitData, record: JobRecord, collectedAt: Time, parseQtime: TimeParser)
    requires data.Valid()
    modifies data
    ensures data.Valid()
    ensures forall q :: data.Recorded(q) == old(data.Recorded(q)) + AsSeq(WaitIn(q, collectedAt, parseQtime)(record))
  {
    var wait := WaitOf(record, collectedAt, parseQtime);
    if wait.Some? {
      data.AddQueueWait(record.queue, wait.value);
    }
  }

  /** Whatever order the map is walked in, each queue's entry is the batch statistics of its waits. */
  method ParseQueueWaits(payload: Option<map<string, JobRecord>>, collectedAt: Time, parseQtime: TimeParser)
    returns (queues: map<string, QueueWaitInfo>)
    ensures payload.None? ==> queues == map[]
    ensures payload.Some? ==> IsWaitTableOf(queues, payload.value, collectedAt, parseQtime)
  {
    var data := new QueueWaitData();
    if payload.None? {
      return map[];
    }
    var jobs := payload.value;
    var todo := jobs.Keys;
    ghost var order, records := [], [];
    while todo != {}
      invariant todo <= jobs.Keys
      invariant IsOrder(order, jobs.Keys - todo)
      invariant (forall k :: k in order ==> k in jobs) && records == Values(jobs, order)
      invariant data.Valid() && fresh(data)
      invariant forall q :: data.Recorded(q) == FilterMap(records, WaitIn(q, collectedAt, parseQtime))
    {
      var id :| id in todo;
      RecordWait(data, jobs[id], collectedAt, parseQtime);
      DeliverySnoc(jobs, todo, order, records, id);
      WaitsSnoc(records, jobs[id], collectedAt, parseQtime);
      order, records, todo := order + [id], records + [jobs[id]], todo - {id};
    }
    queues := data.queues;
    assert jobs.Keys - todo == jobs.Keys;
    RecordedIsTable(data, records, collectedAt, parseQtime);
    forall o, rs | Delivers(jobs, o, rs) ensures IsWaitTable(queues, rs, collectedAt, parseQtime) {
      DeliveriesPermute(jobs, order, records, o, rs);
      TablePermutes(queues, records, rs, collectedAt, parseQtime);
    }
  }

  /** Every queue's entry is the batch statistics of the waits the records contribute to it. */
  ghost predicate IsWaitTable(
      queues: map<string, QueueWaitInfo>, records: seq<JobRecord>, collectedAt: Time, parseQtime: TimeParser)
  {
    forall q :: IsEntry(queues, q, FilterMap(records, WaitIn(q, collectedAt, parseQtime)))
  }

  /** The table of a payload's jobs, whatever order they are walked in. */
  ghost predicate IsWaitTableOf(
      queues: map<string, QueueWaitInfo>, jobs: map<string, JobRecord>, collectedAt: Time, parseQtime: TimeParser)
  {
    forall order, records :: Delivers(jobs, order, records) ==> IsWaitTable(queues, records, collectedAt, parseQtime)
  }

  lemma RecordedIsTable(data: QueueWaitData, records: seq<JobRecord>, collectedAt: Time, parseQtime: TimeParser)
    requires data.Valid()
    requires forall q :: data.Recorded(q) == FilterMap(records, WaitIn(q, collectedAt, parseQtime))
    ensures IsWaitTable(data.queues, records, collectedAt, parseQtime)
  {
    forall q ensures IsEntry(data.queues, q, FilterMap(records, WaitIn(q, collectedAt, parseQtime))) {
      assert IsEntry(data.queues, q, data.Recorded(q));
    }
  }

  lemma WaitsSnoc(records: seq<JobRecord>, record: JobRecord, collectedAt: Time, parseQtime: TimeParser)
    ensures forall q ::
      FilterMap(records + [record], WaitIn(q, collectedAt, parseQtime))
      == FilterMap(records, WaitIn(q, collectedAt, parseQtime)) + AsSeq(WaitIn(q, collectedAt, parseQtime)(record))
  {
    forall q
      ensures FilterMap(records + [record], WaitIn(q, collectedAt, parseQtime))
           == FilterMap(records, WaitIn(q, collectedAt, parseQtime)) + AsSeq(WaitIn(q, collectedAt, parseQtime)(record))
    {
      FilterMapSnoc(records, record, WaitIn(q, collectedAt, parseQtime));
    }
  }

  // ----- order independence -----

  lemma {:induction false} OldestIsMaximum(waits: seq<real>)
    ensures forall w :: w in waits ==> w <= Oldest(waits)
    ensures Oldest(waits) >= 0.0 && (Oldest(waits) > 0.0 ==> Oldest(waits) in waits)
  {
    if waits != [] {
      var front := waits[..|waits| - 1];
      OldestIsMaximum(front);
      assert waits == front + [waits[|waits| - 1]];
    }
  }

  lemma AggregatePermutes(xs: seq<real>, ys: seq<real>)
    requires multiset(xs) == multiset(ys)
    ensures Aggregate(xs) == Aggregate(ys)
  {
    forall b | b in THRESHOLDS ensures CountWithin(xs, b) == CountWithin(ys, b) {
      if b.Finite? {
        CountPermutes(xs, ys, b.seconds);
      }
      assert |multiset(xs)| == |multiset(ys)|;
    }
    SumPermutes(xs, ys);
    OldestIsMaximum(xs);
    OldestIsMaximum(ys);
    assert forall w :: w in xs <==> w in multiset(xs);
    assert forall w :: w in ys <==> w in multiset(ys);
    assert |multiset(xs)| == |multiset(ys)|;
  }

  lemma EntryPermutes(queues: map<string, QueueWaitInfo>, queue: string, xs: seq<real>, ys: seq<real>)
    requires multiset(xs) == multiset(ys) && IsEntry(queues, queue, xs)
    ensures IsEntry(queues, queue, ys)
  {
    AggregatePermutes(xs, ys);
    assert |multiset(xs)| == |multiset(ys)|;
  }

  lemma TablePermutes(
      queues: map<string, QueueWaitInfo>, xs: seq<JobRecord>, ys: seq<JobRecord>,
      collectedAt: Time, parseQtime: TimeParser)
    requires multiset(xs) == multiset(ys) && IsWaitTable(queues, xs, collectedAt, parseQtime)
    ensures IsWaitTable(queues, ys, collectedAt, parseQtime)
  {
    forall q ensures IsEntry(queues, q, FilterMap(ys, WaitIn(q, collectedAt, parseQtime))) {
      var f := WaitIn(q, collectedAt, parseQtime);
      FilterMapPermutes(xs, ys, f);
      EntryPermutes(queues, q, FilterMap(xs, f), FilterMap(ys, f));
    }
  }

  /** The whole table is a function of the multiset of records. */
  lemma FunctionOfRecords(
      a: map<string, QueueWaitInfo>, xs: seq<JobRecord>, b: map<string, QueueWaitInfo>, ys: seq<JobRecord>,
      collectedAt: Time, parseQtime: TimeParser)
    requires multiset(xs) == multiset(ys)
    requires IsWaitTable(a, xs, collectedAt, parseQtime) && IsWaitTable(b, ys, collectedAt, parseQtime)
    ensures a == b
  {
    TablePermutes(a, xs, ys, collectedAt, parseQtime);
    forall q ensures (q in a <==> q in b) && (q in a ==> a[q] == b[q]) {
      assert IsEntry(a, q, FilterMap(ys, WaitIn(q, collectedAt, parseQtime)));
      assert IsEntry(b, q, FilterMap(ys, WaitIn(q, collectedAt, parseQtime)));
    }
  }

  // ----- the shape of an entry -----

  /** Ten cumulative buckets, the last one full, each other one full exactly when it reaches `oldest`. */
  ghost predicate AreCumulative(buckets: map<Bound, int>, count: int, oldest: real) {
    && buckets.Keys == (set b | b in THRESHOLDS) && |buckets| == 10
    && (forall a, b :: a in buckets && b in buckets && NoLater(a, b) ==> 0 <= buckets[a] <= buckets[b] <= count)
    && Infinite in buckets && buckets[Infinite] == count
    && (forall b :: b in buckets ==> (buckets[b] == count <==> Within(oldest, b)))
  }

  /** The sum of `count` waits of at most `oldest` each. */
  predicate SumWithin(sum: real, count: int, oldest: real) {
    0.0 <= sum <= count as real * oldest
  }

  /** A correct cumulative distribution of `waits`. */
  ghost predicate IsDistribution(info: QueueWaitInfo, waits: seq<real>) {
    && AreCumulative(info.buckets, info.count, info.oldest) && info.count == |waits|
    && info.oldest in waits && (forall w :: w in waits ==> w <= info.oldest)
    && SumWithin(info.sum, info.count, info.oldest)
  }

  lemma EntriesAreDistributions(waits: seq<real>)
    requires waits != [] && forall w :: w in waits ==> w >= 0.0
    ensures IsDistribution(Aggregate(waits), waits)
  {
    OldestAttained(waits);
    SumBounded(waits, Oldest(waits));
    BucketsAreCumulative(waits);
    Distribution(Aggregate(waits), waits);
  }

  lemma Distribution(info: QueueWaitInfo, waits: seq<real>)
    requires AreCumulative(info.buckets, info.count, info.oldest) && info.count == |waits|
    requires info.oldest in waits && forall w :: w in waits ==> w <= info.oldest
    requires SumWithin(info.sum, info.count, info.oldest)
    ensures IsDistribution(info, waits)
  {
  }

  lemma BucketsAreCumulative(waits: seq<real>)
    requires waits != [] && forall w :: w in waits ==> w >= 0.0
    ensures AreCumulative(Histogram(waits), |waits|, Oldest(waits))
  {
    var buckets := Histogram(waits);
    TenThresholds(buckets);
    assert THRESHOLDS[9] in buckets;
    forall a, b | a in buckets && b in buckets && NoLater(a, b) ensures 0 <= buckets[a] <= buckets[b] <= |waits| {
      CountWithinMonotone(waits, a, b);
    }
    forall b | b in buckets ensures buckets[b] == |waits| <==> Within(Oldest(waits), b) {
      FullBucket(waits, b);
    }
  }

  /** A later threshold admits at least as many waits. */
  lemma CountWithinMonotone(waits: seq<real>, a: Bound, b: Bound)
    requires NoLater(a, b)
    ensures CountWithin(waits, a) <= CountWithin(waits, b)
  {
    if b.Finite? {
      CountMonotone(waits, a.seconds, b.seconds);
    }
  }

  /** A bucket is full exactly when the oldest wait fits under its threshold. */
  lemma FullBucket(waits: seq<real>, bound: Bound)
    requires waits != [] && forall w :: w in waits ==> w >= 0.0
    ensures CountWithin(waits, bound) == |waits| <==> Within(Oldest(waits), bound)
  {
    if bound.Finite? {
      CountIsAll(waits, bound.seconds);
    }
  }

  lemma TenThresholds<V>(buckets: map<Bound, V>)
    requires buckets.Keys == set b | b in THRESHOLDS
    ensures |buckets| == 10
  {
    DistinctSize(THRESHOLDS);
    assert |buckets| == |buckets.Keys|;
  }

  lemma OldestAttained(waits: seq<real>)
    requires waits != [] && forall w :: w in waits ==> w >= 0.0
    ensures Oldest(waits) in waits && forall w :: w in waits ==> w <= Oldest(waits)
  {
    OldestIsMaximum(waits);
    assert waits[0] in waits;
    if Oldest(waits) == 0.0 {
      assert waits[0] == Oldest(waits);
    }
  }

  lemma {:induction false} SumBounded(waits: seq<real>, top: real)
    requires forall w :: w in waits ==> 0.0 <= w <= top
    ensures SumWithin(Sum(waits), |waits|, top)
  {
    if waits != [] {
      assert waits[0] in waits && forall w :: w in waits[1..] ==> w in waits;
      SumBounded(waits[1..], top);
      assert |waits| as real * top == top + |waits[1..]| as real * top;
    }
  }

  lemma CountIsAll(waits: seq<real>, bound: real)
    requires waits != [] && forall w :: w in waits ==> w >= 0.0
    ensures CountAtMost(waits, bound) == |waits| <==> Oldest(waits) <= bound
  {
    OldestAttained(waits);
    CountFull(waits, bound);
  }

  lemma {:induction false} CountFull(waits: seq<real>, bound: real)
    ensures CountAtMost(waits, bound) == |waits| <==> forall w :: w in waits ==> w <= bound
  {
    if waits != [] {
      CountFull(waits[1..], bound);
      assert waits[0] in waits;
      assert forall w :: w in waits <==> w == waits[0] || w in waits[1..];
    }
  }

  /** Contributed waits are never negative, so every emitted entry is a distribution. */
  lemma {:induction false} WaitsNonNegative(records: seq<JobRecord>, queue: string, collectedAt: Time, parseQtime: TimeParser)
    ensures forall w :: w in FilterMap(records, WaitIn(queue, collectedAt, parseQtime)) ==> w >= 0.0
  {
    if records != [] {
      var f := WaitIn(queue, collectedAt, parseQtime);
      WaitsNonNegative(records[1..], queue, collectedAt, parseQtime);
      assert FilterMap(records, f) == AsSeq(f(records[0])) + FilterMap(records[1..], f);
      var at := parseQtime(records[0].qtime);
      assert at.Some? ==> Elapsed(at.value, collectedAt) >= 0.0;
    }
  }

  // ----- against the job counts -----

  /** In a named queue, running jobs and wait-counted jobs are different jobs of that queue. */
  lemma {:induction false} WaitingAndRunningAreDisjoint(
      records: seq<JobRecord>, queue: string, collectedAt: Time, parseQtime: TimeParser)
    ensures multiset(FilterMap(records, RunningQueueKey))[queue]
          + |FilterMap(records, WaitIn(queue, collectedAt, parseQtime))|
         <= multiset(FilterMap(records, TotalKey))[queue]
  {
    if records != [] {
      WaitingAndRunningAreDisjoint(records[1..], queue, collectedAt, parseQtime);
      StateFolds(records[0].jobState);
      assert FilterMap(records, TotalKey) == [records[0].queue] + FilterMap(records[1..], TotalKey);
    }
  }

  /** The waits of a queue never outnumber the jobs counted as queued. */
  lemma {:induction false} WaitsAreQueued(
      records: seq<JobRecord>, queue: string, collectedAt: Time, parseQtime: TimeParser)
    ensures |FilterMap(records, WaitIn(queue, collectedAt, parseQtime))|
         <= multiset(FilterMap(records, StatusKey))["queued"]
  {
    if records != [] {
      WaitsAreQueued(records[1..], queue, collectedAt, parseQtime);
      StateFolds(records[0].jobState);
      assert FilterMap(records, StatusKey) == [MapStatusLabel(records[0].jobState)] + FilterMap(records[1..], StatusKey);
    }
  }

  /** So the published numbers of a queue never exceed its job total. */
  lemma QueueNeverOvercounted(
      data: JobData, queues: map<string, QueueWaitInfo>, records: seq<JobRecord>, queue: string,
      collectedAt: Time, parseQtime: TimeParser)
    requires IsTally(data, records) && IsWaitTable(queues, records, collectedAt, parseQtime)
    ensures GetOr(data.queueJobCount, queue, 0) + GetOr(queues, queue, NO_WAITS).count
         <= GetOr(data.queueTotalCount, queue, 0)
    ensures GetOr(queues, queue, NO_WAITS).count <= GetOr(data.statusCount, "queued", 0)
  {
    WaitingAndRunningAreDisjoint(records, queue, collectedAt, parseQtime);
    WaitsAreQueued(records, queue, collectedAt, parseQtime);
    var waits := FilterMap(records, WaitIn(queue, collectedAt, parseQtime));
    assert IsEntry(queues, queue, waits);
    EntryCount(queues, queue, waits);
  }

  lemma EntryCount(queues: map<string, QueueWaitInfo>, queue: string, waits: seq<real>)
    requires IsEntry(queues, queue, waits)
    ensures GetOr(queues, queue, NO_WAITS).count == |waits|
  {
  }

  // ----- what an entry means -----

  /** The record waits in a named queue, since a readable time. */
  predicate Waits(j: JobRecord, queue: string, parseQtime: TimeParser) {
    j.jobState in {"Q", "q"} && j.queue == queue != "" && j.qtime != "" && parseQtime(j.qtime).Some?
  }

  /** How long, in nanoseconds; a time still to come counts as none. */
  function Nanoseconds(since: Time, collectedAt: Time): int {
    if since <= collectedAt then collectedAt - since else 0
  }

  /** A number of seconds is a number of nanoseconds. */
  predicate Measures(seconds: real, nanoseconds: int) {
    seconds * 1000000000.0 == nanoseconds as real
  }

  lemma ElapsedMeasured(since: Time, collectedAt: Time)
    ensures Measures(Elapsed(since, collectedAt), Nanoseconds(since, collectedAt))
  {
  }

  lemma ElapsedBounded(since: Time, collectedAt: Time, seconds: real)
    requires seconds >= 0.0
    ensures Elapsed(since, collectedAt) <= seconds <==> (collectedAt - since) as real <= seconds * 1000000000.0
  {
  }

  lemma WaitMeaning(j: JobRecord, queue: string, collectedAt: Time, parseQtime: TimeParser)
    ensures WaitIn(queue, collectedAt, parseQtime)(j)
         == if Waits(j, queue, parseQtime) then Some(Elapsed(parseQtime(j.qtime).value, collectedAt)) else None
  {
    StateFolds(j.jobState);
  }

  /** A queue has an entry when some job waits in it, which counts the jobs that do. */
  lemma CountMeaning(
      queues: map<string, QueueWaitInfo>, jobs: map<string, JobRecord>, queue: string, collectedAt: Time, parseQtime: TimeParser)
    requires IsWaitTableOf(queues, jobs, collectedAt, parseQtime)
    ensures GetOr(queues, queue, NO_WAITS).count == CountWhere(jobs, (j: JobRecord) => Waits(j, queue, parseQtime))
    ensures queue in queues <==> GetOr(queues, queue, NO_WAITS).count > 0
  {
    var order, records := SomeDelivery(jobs);
    var f := WaitIn(queue, collectedAt, parseQtime);
    assert IsEntry(queues, queue, FilterMap(records, f));
    EntryCount(queues, queue, FilterMap(records, f));
    forall j ensures f(j).Some? <==> Waits(j, queue, parseQtime) {
      WaitMeaning(j, queue, collectedAt, parseQtime);
    }
    DeliveredCount(jobs, order, records, f, (j: JobRecord) => Waits(j, queue, parseQtime));
  }

  /** Each finite bucket counts the jobs that have waited no longer than its threshold. */
  lemma BucketMeaning(
      queues: map<string, QueueWaitInfo>, jobs: map<string, JobRecord>, queue: string, seconds: real,
      collectedAt: Time, parseQtime: TimeParser)
    requires IsWaitTableOf(queues, jobs, collectedAt, parseQtime)
    requires Finite(seconds) in THRESHOLDS
    ensures GetOr(GetOr(queues, queue, NO_WAITS).buckets, Finite(seconds), 0) == CountWhere(jobs, (j: JobRecord) =>
      Waits(j, queue, parseQtime) && (collectedAt - parseQtime(j.qtime).value) as real <= seconds * 1000000000.0)
  {
    var order, records := SomeDelivery(jobs);
    var f := WaitIn(queue, collectedAt, parseQtime);
    var waits := FilterMap(records, f);
    assert IsEntry(queues, queue, waits);
    BucketOfEntry(queues, queue, waits, seconds);
    BucketIsCount(records, f, seconds);
    var p := (j: JobRecord) =>
      Waits(j, queue, parseQtime) && (collectedAt - parseQtime(j.qtime).value) as real <= seconds * 1000000000.0;
    forall j ensures AtMost(f, seconds)(j).Some? <==> p(j) {
      WaitMeaning(j, queue, collectedAt, parseQtime);
      if Waits(j, queue, parseQtime) {
        ElapsedBounded(parseQtime(j.qtime).value, collectedAt, seconds);
      }
    }
    DeliveredCount(jobs, order, records, AtMost(f, seconds), p);
  }

  lemma BucketOfEntry(queues: map<string, QueueWaitInfo>, queue: string, waits: seq<real>, seconds: real)
    requires IsEntry(queues, queue, waits) && Finite(seconds) in THRESHOLDS
    ensures seconds >= 0.0
    ensures GetOr(GetOr(queues, queue, NO_WAITS).buckets, Finite(seconds), 0) == CountAtMost(waits, seconds)
  {
  }

  /** The total time waited, in nanoseconds. */
  function TotalNanoseconds(records: seq<JobRecord>, queue: string, collectedAt: Time, parseQtime: TimeParser): int {
    if records == [] then 0
    else
      var j := records[0];
      (if Waits(j, queue, parseQtime) then Nanoseconds(parseQtime(j.qtime).value, collectedAt) else 0)
      + TotalNanoseconds(records[1..], queue, collectedAt, parseQtime)
  }

  lemma {:induction false} SumMeasured(records: seq<JobRecord>, queue: string, collectedAt: Time, parseQtime: TimeParser)
    ensures Measures(Sum(FilterMap(records, WaitIn(queue, collectedAt, parseQtime))),
                     TotalNanoseconds(records, queue, collectedAt, parseQtime))
  {
    if records != [] {
      var j := records[0];
      var f := WaitIn(queue, collectedAt, parseQtime);
      SumMeasured(records[1..], queue, collectedAt, parseQtime);
      SumAppend(AsSeq(f(j)), FilterMap(records[1..], f));
      WaitMeaning(j, queue, collectedAt, parseQtime);
      if Waits(j, queue, parseQtime) {
        ElapsedMeasured(parseQtime(j.qtime).value, collectedAt);
        assert [f(j).value][1..] == [];
      }
    }
  }

  /** In every order the sum is the total time waited. */
  lemma SumMeaning(
      queues: map<string, QueueWaitInfo>, records: seq<JobRecord>, queue: string, collectedAt: Time, parseQtime: TimeParser)
    requires IsWaitTable(queues, records, collectedAt, parseQtime)
    ensures Measures(GetOr(queues, queue, NO_WAITS).sum, TotalNanoseconds(records, queue, collectedAt, parseQtime))
  {
    SumMeasured(records, queue, collectedAt, parseQtime);
    assert IsEntry(queues, queue, FilterMap(records, WaitIn(queue, collectedAt, parseQtime)));
  }

  /** No job of the queue has waited longer than the oldest wait, and one has waited that long. */
  lemma OldestMeaning(
      queues: map<string, QueueWaitInfo>, records: seq<JobRecord>, queue: string, collectedAt: Time, parseQtime: TimeParser)
    requires IsWaitTable(queues, records, collectedAt, parseQtime) && queue in queues
    ensures forall j :: j in records && Waits(j, queue, parseQtime) ==>
      Nanoseconds(parseQtime(j.qtime).value, collectedAt) as real <= queues[queue].oldest * 1000000000.0
    ensures exists j :: (
      j in records && Waits(j, queue, parseQtime)
      && Measures(queues[queue].oldest, Nanoseconds(parseQtime(j.qtime).value, collectedAt)))
  {
    var f := WaitIn(queue, collectedAt, parseQtime);
    var waits := FilterMap(records, f);
    assert IsEntry(queues, queue, waits);
    WaitsNonNegative(records, queue, collectedAt, parseQtime);
    OldestAttained(waits);
    forall j | j in records && Waits(j, queue, parseQtime)
      ensures Nanoseconds(parseQtime(j.qtime).value, collectedAt) as real <= queues[queue].oldest * 1000000000.0
    {
      WaitMeaning(j, queue, collectedAt, parseQtime);
      ElapsedMeasured(parseQtime(j.qtime).value, collectedAt);
      Kept(records, f, j);
    }
    var j := Origin(records, f, queues[queue].oldest);
    WaitMeaning(j, queue, collectedAt, parseQtime);
    ElapsedMeasured(parseQtime(j.qtime).value, collectedAt);
  }

  lemma {:induction false} Kept<T, V>(xs: seq<T>, f: T -> Option<V>, x: T)
    requires x in xs && f(x).Some?
    ensures f(x).value in FilterMap(xs, f)
  {
    if xs[0] != x {
      Kept(xs[1..], f, x);
    }
  }

  lemma {:induction false} Origin<T, V>(xs: seq<T>, f: T -> Option<V>, v: V) returns (x: T)
    requires v in FilterMap(xs, f)
    ensures x in xs && f(x) == Some(v)
  {
    if f(xs[0]) == Some(v) {
      x := xs[0];
    } else {
      x := Origin(xs[1..], f, v);
    }
  }

  /** One job alone: its queue counts one wait, of exactly the time since it was queued. */
  lemma LoneWait(
      queues: map<string, QueueWaitInfo>, id: string, record: JobRecord, at: Time, collectedAt: Time, parseQtime: TimeParser)
    requires IsWaitTableOf(queues, map[id := record], collectedAt, parseQtime)
    requires record.jobState in {"Q", "q"} && record.queue != "" && record.qtime != "" && parseQtime(record.qtime) == Some(at)
    ensures record.queue in queues && queues[record.queue].count == 1
    ensures at <= collectedAt ==> queues[record.queue].sum * 1000000000.0 == (collectedAt - at) as real
    ensures at > collectedAt ==> queues[record.queue].sum == 0.0
  {
    var q := record.queue;
    assert Values(map[id := record], [id]) == [record];
    assert Delivers(map[id := record], [id], [record]);
    SumMeaning(queues, [record], q, collectedAt, parseQtime);
    WaitMeaning(record, q, collectedAt, parseQtime);
    var f := WaitIn(q, collectedAt, parseQtime);
    FilterMapSnoc([], record, f);
    assert [] + [record] == [record];
    assert FilterMap([record], f) == [f(record).value];
    assert IsEntry(queues, q, FilterMap([record], f));
    assert [record][1..] == [];
    assert TotalNanoseconds([record], q, collectedAt, parseQtime) == Nanoseconds(at, collectedAt);
  }
}
