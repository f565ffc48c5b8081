/** The queue payload and its cluster-wide summary. */
module Queues {
  import opened Wrappers
  import opened Bags
  import opened Text
  import opened Scalars
  import opened NamedCounts

  datatype QueueRecord = QueueRecord(
    stateCount: string, enabled: Scalar, started: Scalar,
    maxWalltime: Scalar, defaultWalltime: Scalar, availableWalltime: Scalar)

  datatype QueuesPayload = QueuesPayload(queue: map<string, QueueRecord>, queues: map<string, QueueRecord>) {
    function Records(): map<string, QueueRecord> {
      if |queue| > 0 then queue else queues
    }
  }

  datatype QueueInfo = QueueInfo(running: int, queued: int, enabled: bool, started: bool, walltime: int)

  datatype QueueSummary = QueueSummary(running: int, queued: int)

  /** What a queue's record says about it. */
  ghost predicate Reports(info: QueueInfo, record: QueueRecord) {
    && info.running == GetOr(CountsOf(record.stateCount), "Running", 0)
    && info.queued == GetOr(CountsOf(record.stateCount), "Queued", 0)
    && info.enabled == record.enabled.BoolValue() && info.started == record.started.BoolValue()
    && info.walltime == FirstDurationSeconds([record.maxWalltime, record.defaultWalltime, record.availableWalltime])
  }

  /** `names` is what sort.Strings makes of the payload's keys. */
  method ParseQueues(payload: Option<QueuesPayload>, names: seq<string>) returns (queues: map<string, QueueInfo>)
    requires payload.Some? ==> IsOrder(names, payload.value.Records().Keys)
    ensures payload.None? ==> queues == map[]
    ensures payload.Some? ==> queues.Keys == payload.value.Records().Keys
    ensures payload.Some? ==> forall q :: q in queues ==> Reports(queues[q], payload.value.Records()[q])
  {
    queues := map[];
    if payload.None? {
      return;
    }
    var records := payload.value.Records();
    OrderHasKeys(names, records.Keys);
    for i := 0 to |names|
      invariant queues.Keys == set n | n in names[..i]
      invariant forall q :: q in queues ==> q in records && Reports(queues[q], records[q])
    {
      assert names[i] in names;
      assert names[..i + 1] == names[..i] + [names[i]];
      var record := records[names[i]];
      var stateCounts := ParseNamedCounts(record.stateCount);
      queues := queues[names[i] := QueueInfo(
        GetOr(stateCounts, "Running", 0), GetOr(stateCounts, "Queued", 0),
        record.enabled.BoolValue(), record.started.BoolValue(),
        FirstDurationSeconds([record.maxWalltime, record.defaultWalltime, record.availableWalltime]))];
    }
    assert names[..|names|] == names;
  }

  function RunningIn(info: QueueInfo): Option<real> {
    Some(info.running as real)
  }

  function QueuedIn(info: QueueInfo): Option<real> {
    Some(info.queued as real)
  }

  /** The summary is the sum over the queues, in every enumeration order. */
  ghost predicate IsSummary(summary: QueueSummary, queues: map<string, QueueInfo>) {
    forall order, infos :: Delivers(queues, order, infos) ==>
      && summary.running as real == Sum(FilterMap(infos, RunningIn))
      && summary.queued as real == Sum(FilterMap(infos, QueuedIn))
  }

  method SummarizeQueues(data: Option<map<string, QueueInfo>>) returns (summary: QueueSummary)
    ensures data.None? ==> summary == QueueSummary(0, 0)
    ensures data.Some? ==> IsSummary(summary, data.value)
  {
    summary := QueueSummary(0, 0);
    if data.None? {
      return;
    }
    var queues := data.value;
    var todo := queues.Keys;
    ghost var order, infos := [], [];
    while todo != {}
      invariant todo <= queues.Keys
      invariant IsOrder(order, queues.Keys - todo)
      invariant (forall k :: k in order ==> k in queues) && infos == Values(queues, order)
      invariant summary.running as real == Sum(FilterMap(infos, RunningIn))
      invariant summary.queued as real == Sum(FilterMap(infos, QueuedIn))
    {
      var name :| name in todo;
      var info := queues[name];
      TotalSnoc(infos, info, RunningIn);
      TotalSnoc(infos, info, QueuedIn);
      DeliverySnoc(queues, todo, order, infos, name);
      summary := QueueSummary(summary.running + info.running, summary.queued + info.queued);
      order, infos, todo := order + [name], infos + [info], todo - {name};
    }
    assert queues.Keys - todo == queues.Keys;
    forall o, vs | Delivers(queues, o, vs)
      ensures Sum(FilterMap(vs, RunningIn)) == Sum(FilterMap(infos, RunningIn))
      ensures Sum(FilterMap(vs, QueuedIn)) == Sum(FilterMap(infos, QueuedIn))
    {
      DeliveriesPermute(queues, order, infos, o, vs);
      TotalPermutes(infos, vs, RunningIn);
      TotalPermutes(infos, vs, QueuedIn);
    }
  }

  function Total(infos: seq<QueueInfo>, f: QueueInfo -> int): int {
    if infos == [] then 0 else f(infos[0]) + Total(infos[1..], f)
  }

  lemma {:induction false} TotalIsSum(infos: seq<QueueInfo>, g: QueueInfo -> Option<real>, f: QueueInfo -> int)
    requires forall q :: g(q) == Some(f(q) as real)
    ensures Sum(FilterMap(infos, g)) == Total(infos, f) as real
  {
    if infos != [] {
      TotalIsSum(infos[1..], g, f);
      assert FilterMap(infos, g) == [f(infos[0]) as real] + FilterMap(infos[1..], g);
    }
  }

  /** The summary's two numbers are whole sums over the queues, in every order. */
  lemma SummaryMeaning(summary: QueueSummary, queues: map<string, QueueInfo>, order: seq<string>, infos: seq<QueueInfo>)
    requires IsSummary(summary, queues) && Delivers(queues, order, infos)
    ensures summary.running == Total(infos, (q: QueueInfo) => q.running)
    ensures summary.queued == Total(infos, (q: QueueInfo) => q.queued)
  {
    TotalIsSum(infos, RunningIn, (q: QueueInfo) => q.running);
    TotalIsSum(infos, QueuedIn, (q: QueueInfo) => q.queued);
  }

  /** The reports and the summary are determined by the payload. */
  lemma QueuesUnique(
      a: map<string, QueueInfo>, x: QueueSummary, b: map<string, QueueInfo>, y: QueueSummary,
      records: map<string, QueueRecord>)
    requires a.Keys == records.Keys && (forall q :: q in a ==> Reports(a[q], records[q])) && IsSummary(x, a)
    requires b.Keys == records.Keys && (forall q :: q in b ==> Reports(b[q], records[q])) && IsSummary(y, b)
    ensures a == b && x == y
  {
    forall q ensures (q in a <==> q in b) && (q in a ==> a[q] == b[q]) {
      if q in records {
        ReportUnique(a[q], b[q], records[q]);
      }
    }
    assert a == b;
    var order, infos := SomeDelivery(a);
  }

  lemma ReportUnique(a: QueueInfo, b: QueueInfo, record: QueueRecord)
    requires Reports(a, record) && Reports(b, record)
    ensures a == b
  {
  }

  /** The singular key's queues count, unless there are none. */
  lemma RecordsChosen(payload: QueuesPayload)
    ensures payload.queue != map[] ==> payload.Records() == payload.queue
    ensures payload.queue == map[] ==> payload.Records() == payload.queues
  {
  }

  /** What a report says, of a printed state count: the last entries under its two names. */
  lemma ReportReadsBack(info: QueueInfo, record: QueueRecord, pairs: seq<(string, int)>)
    requires Reports(info, record) && record.stateCount == PrintCounts(pairs)
    requires forall i :: 0 <= i < |pairs| ==> CleanKey(pairs[i].0)
    ensures info.running == GetOr(LastWins(pairs), "Running", 0)
    ensures info.queued == GetOr(LastWins(pairs), "Queued", 0)
  {
    RoundTripExactly(pairs);
  }

  /** The flags hold for five spellings, however padded and cased. */
  lemma FlagsMeaning(info: QueueInfo, record: QueueRecord)
    requires Reports(info, record)
    ensures info.enabled <==> ToLower(TrimSpace(record.enabled.text)) in {"true", "t", "yes", "y", "1"}
    ensures info.started <==> ToLower(TrimSpace(record.started.text)) in {"true", "t", "yes", "y", "1"}
  {
  }

  /** The walltime is the maximum's, else the default's, else the available one's. */
  lemma WalltimeMeaning(info: QueueInfo, record: QueueRecord)
    requires Reports(info, record)
    ensures if Usable(record.maxWalltime) then Some(info.walltime) == record.maxWalltime.OptionalDurationSeconds()
            else if Usable(record.defaultWalltime) then Some(info.walltime) == record.defaultWalltime.OptionalDurationSeconds()
            else if Usable(record.availableWalltime) then
              Some(info.walltime) == record.availableWalltime.OptionalDurationSeconds()
            else info.walltime == 0
  {
    var candidates := [record.maxWalltime, record.defaultWalltime, record.availableWalltime];
    FirstDurationIsFirstUsable(candidates);
    assert candidates[0] == record.maxWalltime && candidates[1] == record.defaultWalltime
        && candidates[2] == record.availableWalltime;
  }
}
