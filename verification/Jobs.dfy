/** The job payload and the per-status, per-queue and per-user counts made from it. */
module Jobs {
  import opened Wrappers
  import opened Bags
  import opened Text

  datatype JobRecord = JobRecord(
    queue: string, jobState: string, jobOwner: string, effectiveUser: string, qtime: string)

  datatype JobData = JobData(
    userJobCount: map<string, int>,
    queuedJobsByUser: map<string, int>,
    queueJobCount: map<string, int>,
    queueTotalCount: map<string, int>,
    statusCount: map<string, int>)

  const NO_JOBS := JobData(map[], map[], map[], map[], map[])

  function MapStatusLabel(status: string): string {
    match ToUpper(status)
    case "F" => "finished"
    case "H" => "held"
    case "R" => "running"
    case "Q" => "queued"
    case "E" => "exiting"
    case "B" => "array_job_running"
    case _ => ToLower(status)
  }

  /** State letters and the labels they are documented under. */
  const LABELS: seq<(char, string)> := [
    ('F', "finished"), ('H', "held"), ('R', "running"), ('Q', "queued"), ('E', "exiting"), ('B', "array_job_running")
  ]

  /** A label is reached by its letter in either case, or by spelling it out; by nothing else. */
  lemma LabelReached(status: string, letter: char, name: string)
    requires (letter, name) in LABELS
    ensures MapStatusLabel(status) == name <==> ToUpper(status) == [letter] || ToLower(status) == name
  {
    if |status| == 1 {
      assert |ToLower(status)| == 1 && |name| > 1;
    } else {
      LongStatusSpelled(status);
    }
  }

  lemma LongStatusSpelled(status: string)
    requires |status| != 1
    ensures |ToUpper(status)| != 1 && MapStatusLabel(status) == ToLower(status)
  {
    assert |ToUpper(status)| == |status|;
  }

  /** The effective user, else the owner up to its first '@', else nobody. */
  function JobUser(record: JobRecord): (user: string)
    ensures record.effectiveUser != "" ==> user == record.effectiveUser
    ensures record.effectiveUser == "" ==>
      '@' !in user && user <= record.jobOwner && (|user| < |record.jobOwner| ==> record.jobOwner[|user|] == '@')
  {
    if record.effectiveUser != "" then record.effectiveUser
    else record.jobOwner[..IndexOf(record.jobOwner, '@')]
  }

  predicate Running(record: JobRecord) {
    ToUpper(record.jobState) == "R"
  }

  predicate Queued(record: JobRecord) {
    ToUpper(record.jobState) == "Q"
  }

  /** The source's two spellings of a state test, upper-casing and case folding, agree. */
  lemma StateFolds(s: string)
    ensures ToUpper(s) == "R" <==> s in {"R", "r"}
    ensures ToUpper(s) == "Q" <==> s in {"Q", "q"}
    ensures EqualFold(s, "R") <==> s in {"R", "r"}
    ensures EqualFold(s, "Q") <==> s in {"Q", "q"}
  {
    assert ToLower("R") == "r" && ToLower("Q") == "q";
    assert |s| == 1 ==> s == [s[0]];
    if |s| == 1 {
      assert ToUpper(s) == [UpperChar(s[0])] && ToLower(s) == [LowerChar(s[0])];
    }
  }

  // ----- which key each counter gets from one record -----

  function StatusKey(record: JobRecord): Option<string> {
    Some(MapStatusLabel(record.jobState))
  }

  function TotalKey(record: JobRecord): Option<string> {
    Some(record.queue)
  }

  function RunningQueueKey(record: JobRecord): Option<string> {
    if Running(record) then Some(record.queue) else None
  }

  function RunningUserKey(record: JobRecord): Option<string> {
    if Running(record) && JobUser(record) != "" then Some(JobUser(record)) else None
  }

  function QueuedUserKey(record: JobRecord): Option<string> {
    if Queued(record) && JobUser(record) != "" then Some(JobUser(record)) else None
  }

  function UserlessRunning(record: JobRecord): Option<JobRecord> {
    if Running(record) && JobUser(record) == "" then Some(record) else None
  }

  /** Every counter holds exactly its key's multiplicity among the records. */
  ghost predicate IsTally(data: JobData, records: seq<JobRecord>) {
    && Tallies(data.statusCount, multiset(FilterMap(records, StatusKey)))
    && Tallies(data.queueTotalCount, multiset(FilterMap(records, TotalKey)))
    && Tallies(data.queueJobCount, multiset(FilterMap(records, RunningQueueKey)))
    && Tallies(data.userJobCount, multiset(FilterMap(records, RunningUserKey)))
    && Tallies(data.queuedJobsByUser, multiset(FilterMap(records, QueuedUserKey)))
  }

  /** The counters tally the jobs of a payload, whatever order they are walked in. */
  ghost predicate IsTallyOf(data: JobData, jobs: map<string, JobRecord>) {
    forall order, records :: Delivers(jobs, order, records) ==> IsTally(data, records)
  }

  /** `next` counts `record` on top of `data`. */
  ghost predicate CountsOneMore(data: JobData, next: JobData, record: JobRecord) {
    && next.statusCount == Bump(data.statusCount, StatusKey(record))
    && next.queueTotalCount == Bump(data.queueTotalCount, TotalKey(record))
    && next.queueJobCount == Bump(data.queueJobCount, RunningQueueKey(record))
    && next.userJobCount == Bump(data.userJobCount, RunningUserKey(record))
    && next.queuedJobsByUser == Bump(data.queuedJobsByUser, QueuedUserKey(record))
  }

  function Bump(counts: map<string, int>, key: Option<string>): map<string, int> {
    match key case Some(k) => Increment(counts, k) case None => counts
  }

  method CountJob(data: JobData, record: JobRecord) returns (next: JobData)
    ensures CountsOneMore(data, next, record)
  {
    var statusCount := Increment(data.statusCount, MapStatusLabel(record.jobState));
    var queueTotalCount := Increment(data.queueTotalCount, record.queue);
    var queueJobCount, userJobCount, queuedJobsByUser := data.queueJobCount, data.userJobCount, data.queuedJobsByUser;
    var user := JobUser(record);
    if Running(record) {
      if user != "" {
        userJobCount := Increment(userJobCount, user);
      }
      queueJobCount := Increment(queueJobCount, record.queue);
    } else if Queued(record) {
      if user != "" {
        queuedJobsByUser := Increment(queuedJobsByUser, user);
      }
    }
    assert !(Running(record) && Queued(record));
    next := JobData(userJobCount, queuedJobsByUser, queueJobCount, queueTotalCount, statusCount);
  }

  /** Whatever order the map is walked in, the result tallies every order's deliveries. */
  method ParseJobs(payload: Option<map<string, JobRecord>>) returns (data: JobData)
    ensures payload.None? ==> data == NO_JOBS
    ensures payload.Some? ==> IsTallyOf(data, payload.value)
  {
    data := NO_JOBS;
    if payload.None? {
      return;
    }
    var jobs := payload.value;
    var todo := jobs.Keys;
    ghost var order, records := [], [];
    while todo != {}
      invariant todo <= jobs.Keys
      invariant IsOrder(order, jobs.Keys - todo)
      invariant (forall k :: k in order ==> k in jobs) && records == Values(jobs, order)
      invariant IsTally(data, records)
    {
      var id :| id in todo;
      var record := jobs[id];
      ghost var before := data;
      data := CountJob(data, record);
      TallyOneMore(before, data, records, record);
      DeliverySnoc(jobs, todo, order, records, id);
      order, records, todo := order + [id], records + [record], todo - {id};
    }
    assert jobs.Keys - todo == jobs.Keys;
    forall o, rs | Delivers(jobs, o, rs) ensures IsTally(data, rs) {
      DeliveriesPermute(jobs, order, records, o, rs);
      TallyPermutes(data, records, rs);
    }
  }

  lemma TallyOneMore(data: JobData, next: JobData, records: seq<JobRecord>, record: JobRecord)
    requires IsTally(data, records) && CountsOneMore(data, next, record)
    ensures IsTally(next, records + [record])
  {
    BumpTallies(data.statusCount, records, record, StatusKey);
    BumpTallies(data.queueTotalCount, records, record, TotalKey);
    BumpTallies(data.queueJobCount, records, record, RunningQueueKey);
    BumpTallies(data.userJobCount, records, record, RunningUserKey);
    BumpTallies(data.queuedJobsByUser, records, record, QueuedUserKey);
  }

  lemma BumpTallies(counts: map<string, int>, records: seq<JobRecord>, record: JobRecord, key: JobRecord -> Option<string>)
    requires Tallies(counts, multiset(FilterMap(records, key)))
    ensures Tallies(Bump(counts, key(record)), multiset(FilterMap(records + [record], key)))
  {
    FilterMapSnoc(records, record, key);
    if key(record).Some? {
      IncrementTallies(counts, multiset(FilterMap(records, key)), key(record).value);
    }
  }

  lemma TallyPermutes(data: JobData, xs: seq<JobRecord>, ys: seq<JobRecord>)
    requires multiset(xs) == multiset(ys) && IsTally(data, xs)
    ensures IsTally(data, ys)
  {
    FilterMapPermutes(xs, ys, StatusKey);
    FilterMapPermutes(xs, ys, TotalKey);
    FilterMapPermutes(xs, ys, RunningQueueKey);
    FilterMapPermutes(xs, ys, RunningUserKey);
    FilterMapPermutes(xs, ys, QueuedUserKey);
  }

  /** The counts are a function of the multiset of records: job ids and order do not matter. */
  lemma FunctionOfRecords(a: JobData, b: JobData, xs: seq<JobRecord>, ys: seq<JobRecord>)
    requires IsTally(a, xs) && IsTally(b, ys) && multiset(xs) == multiset(ys)
    ensures a == b
  {
    TallyPermutes(a, xs, ys);
    TalliesUnique(a.statusCount, b.statusCount, multiset(FilterMap(ys, StatusKey)));
    TalliesUnique(a.queueTotalCount, b.queueTotalCount, multiset(FilterMap(ys, TotalKey)));
    TalliesUnique(a.queueJobCount, b.queueJobCount, multiset(FilterMap(ys, RunningQueueKey)));
    TalliesUnique(a.userJobCount, b.userJobCount, multiset(FilterMap(ys, RunningUserKey)));
    TalliesUnique(a.queuedJobsByUser, b.queuedJobsByUser, multiset(FilterMap(ys, QueuedUserKey)));
  }

  // ----- conservation -----

  /** Every job is counted once by status and once by queue. */
  lemma JobsConserved(data: JobData, records: seq<JobRecord>)
    requires IsTally(data, records)
    ensures SumValues(data.statusCount) == SumValues(data.queueTotalCount) == |records|
  {
    SumOfTally(data.statusCount, multiset(FilterMap(records, StatusKey)));
    SumOfTally(data.queueTotalCount, multiset(FilterMap(records, TotalKey)));
    TotalKeysKeepLength(records, StatusKey);
    TotalKeysKeepLength(records, TotalKey);
  }

  lemma {:induction false} TotalKeysKeepLength(records: seq<JobRecord>, key: JobRecord -> Option<string>)
    requires forall r :: key(r).Some?
    ensures |FilterMap(records, key)| == |records|
  {
    if records != [] {
      TotalKeysKeepLength(records[1..], key);
    }
  }

  /** Per-user running counts miss exactly the running jobs that have no user. */
  lemma UserlessJobsAreTheGap(data: JobData, records: seq<JobRecord>)
    requires IsTally(data, records)
    ensures SumValues(data.userJobCount) + |FilterMap(records, UserlessRunning)| == SumValues(data.queueJobCount)
  {
    SumOfTally(data.userJobCount, multiset(FilterMap(records, RunningUserKey)));
    SumOfTally(data.queueJobCount, multiset(FilterMap(records, RunningQueueKey)));
    RunningSplits(records);
  }

  lemma {:induction false} RunningSplits(records: seq<JobRecord>)
    ensures |FilterMap(records, RunningUserKey)| + |FilterMap(records, UserlessRunning)|
         == |FilterMap(records, RunningQueueKey)|
  {
    if records != [] {
      RunningSplits(records[1..]);
    }
  }

  function HasLetter(letter: char): JobRecord -> Option<JobRecord> {
    (record: JobRecord) => if ToUpper(record.jobState) == [letter] then Some(record) else None
  }

  /** A raw state that merely spells a label in full, such as "running". */
  function Spells(name: string): JobRecord -> Option<JobRecord> {
    (record: JobRecord) => if ToLower(record.jobState) == name then Some(record) else None
  }

  /** A status count is the jobs in its state plus the jobs whose raw state already spells its label. */
  lemma StatusCountExactly(data: JobData, records: seq<JobRecord>, letter: char, name: string)
    requires IsTally(data, records) && (letter, name) in LABELS
    ensures GetOr(data.statusCount, name, 0)
         == |FilterMap(records, HasLetter(letter))| + |FilterMap(records, Spells(name))|
  {
    LabelMultiplicity(records, letter, name);
  }

  lemma {:induction false} LabelMultiplicity(records: seq<JobRecord>, letter: char, name: string)
    requires (letter, name) in LABELS
    ensures multiset(FilterMap(records, StatusKey))[name]
         == |FilterMap(records, HasLetter(letter))| + |FilterMap(records, Spells(name))|
  {
    if records != [] {
      LabelMultiplicity(records[1..], letter, name);
      var s := records[0].jobState;
      LabelReached(s, letter, name);
      LetterOrSpelling(s, letter, name);
      assert FilterMap(records, StatusKey) == [MapStatusLabel(s)] + FilterMap(records[1..], StatusKey);
    }
  }

  lemma LetterOrSpelling(status: string, letter: char, name: string)
    requires (letter, name) in LABELS
    ensures !(ToUpper(status) == [letter] && ToLower(status) == name)
  {
    assert |name| > 1;
  }

  /** So running jobs never outnumber the "running" status, and equal it unless some state spells the word. */
  lemma RunningStatusCount(data: JobData, records: seq<JobRecord>)
    requires IsTally(data, records)
    ensures GetOr(data.statusCount, "running", 0)
         == SumValues(data.queueJobCount) + |FilterMap(records, Spells("running"))|
  {
    SumOfTally(data.queueJobCount, multiset(FilterMap(records, RunningQueueKey)));
    assert LABELS[2] in LABELS;
    StatusCountExactly(data, records, 'R', "running");
    RunningHaveLetter(records);
  }

  lemma {:induction false} RunningHaveLetter(records: seq<JobRecord>)
    ensures |FilterMap(records, RunningQueueKey)| == |FilterMap(records, HasLetter('R'))|
  {
    if records != [] {
      RunningHaveLetter(records[1..]);
    }
  }

  // ----- what the counters mean -----

  /** A status that is no letter of the table is its own label, in lower case. */
  lemma OtherStatusesLowered(status: string)
    requires ToUpper(status) !in {"F", "H", "R", "Q", "E", "B"}
    ensures MapStatusLabel(status) == ToLower(status)
  {
  }

  /** What each counter holds under a key: a number of jobs of the payload, and no entry for none. */
  lemma JobCountsMeaning(data: JobData, jobs: map<string, JobRecord>, key: string)
    requires IsTallyOf(data, jobs)
    ensures Holds(data.statusCount, key, CountWhere(jobs, (j: JobRecord) => MapStatusLabel(j.jobState) == key))
    ensures Holds(data.queueTotalCount, key, CountWhere(jobs, (j: JobRecord) => j.queue == key))
    ensures Holds(data.queueJobCount, key, CountWhere(jobs, (j: JobRecord) => j.queue == key && j.jobState in {"R", "r"}))
    ensures Holds(data.userJobCount, key,
                  CountWhere(jobs, (j: JobRecord) => JobUser(j) == key != "" && j.jobState in {"R", "r"}))
    ensures Holds(data.queuedJobsByUser, key,
                  CountWhere(jobs, (j: JobRecord) => JobUser(j) == key != "" && j.jobState in {"Q", "q"}))
  {
    var order, records := SomeDelivery(jobs);
    TallyCountsKeys(data.statusCount, jobs, order, records, StatusKey, key,
                    (j: JobRecord) => MapStatusLabel(j.jobState) == key);
    TallyCountsKeys(data.queueTotalCount, jobs, order, records, TotalKey, key, (j: JobRecord) => j.queue == key);
    StateCountsMeaning(data, jobs, order, records, key);
  }

  lemma StateCountsMeaning(
      data: JobData, jobs: map<string, JobRecord>, order: seq<string>, records: seq<JobRecord>, key: string)
    requires Delivers(jobs, order, records) && IsTally(data, records)
    ensures Holds(data.queueJobCount, key, CountWhere(jobs, (j: JobRecord) => j.queue == key && j.jobState in {"R", "r"}))
    ensures Holds(data.userJobCount, key,
                  CountWhere(jobs, (j: JobRecord) => JobUser(j) == key != "" && j.jobState in {"R", "r"}))
    ensures Holds(data.queuedJobsByUser, key,
                  CountWhere(jobs, (j: JobRecord) => JobUser(j) == key != "" && j.jobState in {"Q", "q"}))
  {
    StatesFold();
    TallyCountsKeys(data.queueJobCount, jobs, order, records, RunningQueueKey, key,
                    (j: JobRecord) => j.queue == key && j.jobState in {"R", "r"});
    TallyCountsKeys(data.userJobCount, jobs, order, records, RunningUserKey, key,
                    (j: JobRecord) => JobUser(j) == key != "" && j.jobState in {"R", "r"});
    TallyCountsKeys(data.queuedJobsByUser, jobs, order, records, QueuedUserKey, key,
                    (j: JobRecord) => JobUser(j) == key != "" && j.jobState in {"Q", "q"});
  }

  /** `counts` has `n` under `key`, and no entry for none. */
  predicate Holds(counts: map<string, int>, key: string, n: nat) {
    if n > 0 then key in counts && counts[key] == n else key !in counts
  }

  lemma StatesFold()
    ensures forall j: JobRecord :: Running(j) <==> j.jobState in {"R", "r"}
    ensures forall j: JobRecord :: Queued(j) <==> j.jobState in {"Q", "q"}
  {
    forall j: JobRecord
      ensures Running(j) <==> j.jobState in {"R", "r"}
      ensures Queued(j) <==> j.jobState in {"Q", "q"}
    {
      StateFolds(j.jobState);
    }
  }
}
