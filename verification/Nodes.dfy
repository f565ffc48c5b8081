/** The node payload: states, jobs and resource fractions of every node. */
module Nodes {
  import opened Wrappers
  import opened Bags
  import opened Text
  import opened Scalars

  datatype NodeRecord = NodeRecord(
    state: string, stateSummary: string,
    jobs: Scalar, jobsList: seq<string>, jobCount: Scalar, totalJobs: Scalar, runningJobs: Scalar,
    memory: Scalar, memoryFraction: Scalar, cpus: Scalar, cpusFraction: Scalar, gpus: Scalar, gpusFraction: Scalar)

  datatype NodesPayload = NodesPayload(nodes: map<string, NodeRecord>, nodesAlt: map<string, NodeRecord>) {
    function Records(): map<string, NodeRecord> {
      if |nodes| > 0 then nodes else nodesAlt
    }
  }

  datatype NodeInfo = NodeInfo(
    state: string, jobs: int,
    cpusAvailable: int, cpusTotal: int, gpusAvailable: int, gpusTotal: int,
    memoryAvailable: real, memoryTotal: real)

  datatype NodeData = NodeData(
    nodes: map<string, NodeInfo>, countFree: int, countBusy: int, countOffline: int, countDown: int)

  const NO_NODES := NodeData(map[], 0, 0, 0, 0)

  const STATES: set<string> := {"free", "job-busy", "offline", "down"}

  function NormalizeNodeState(state: string): (normalized: string)
    ensures normalized in STATES
    ensures state in STATES ==> normalized == state
  {
    if state == "<various>" then "job-busy"
    else if state in STATES then state
    else "down"
  }

  function FirstText(values: seq<string>): string {
    if values == [] then ""
    else if TrimSpace(values[0]) != "" then TrimSpace(values[0])
    else FirstText(values[1..])
  }

  function FirstScalarText(values: seq<Scalar>): string {
    if values == [] then ""
    else if values[0].set_ && values[0].TextValue() != "" then values[0].TextValue()
    else FirstScalarText(values[1..])
  }

  function FirstPositiveInt(values: seq<Scalar>, pf: FloatParser): int {
    if values == [] then 0
    else if values[0].set_ && values[0].IntValue(pf) > 0 then values[0].IntValue(pf)
    else FirstPositiveInt(values[1..], pf)
  }

  /** Blank candidates are passed over; the next one wins whatever follows. */
  lemma {:induction false} FirstTextWins(blank: seq<string>, text: string, rest: seq<string>)
    requires forall v :: v in blank ==> TrimSpace(v) == ""
    ensures TrimSpace(text) != "" ==> FirstText(blank + [text] + rest) == TrimSpace(text)
    ensures FirstText(blank) == ""
  {
    var all := blank + [text] + rest;
    if blank != [] {
      assert all[1..] == blank[1..] + [text] + rest;
      FirstTextWins(blank[1..], text, rest);
    }
  }

  /** Unset and non-positive counts are passed over; the next one wins whatever follows. */
  lemma {:induction false} FirstPositiveIntWins(unusable: seq<Scalar>, count: Scalar, rest: seq<Scalar>, pf: FloatParser)
    requires forall v :: v in unusable && v.set_ ==> v.IntValue(pf) <= 0
    ensures count.set_ && count.IntValue(pf) > 0
         ==> FirstPositiveInt(unusable + [count] + rest, pf) == count.IntValue(pf)
    ensures FirstPositiveInt(unusable, pf) == 0
  {
    var all := unusable + [count] + rest;
    if unusable != [] {
      assert all[1..] == unusable[1..] + [count] + rest;
      FirstPositiveIntWins(unusable[1..], count, rest, pf);
    }
  }

  /** `free/total` counts; anything else reads as zero of zero. */
  function ParseFraction(text: string): (int, int) {
    var parts := Split(text, '/');
    if text == "--" || text == "" || |parts| != 2 then (0, 0)
    else (AtoiOrZero(parts[0]), AtoiOrZero(parts[1]))
  }

  /** Printed fractions are read back exactly. */
  lemma FractionRoundTrip(free: int, total: int)
    ensures ParseFraction(Itoa(free) + "/" + Itoa(total)) == (free, total)
  {
    NoSlash(free);
    NoSlash(total);
    SplitPair(Itoa(free), Itoa(total));
    AtoiOfItoa(free);
    AtoiOfItoa(total);
  }

  lemma NoSlash(n: int)
    ensures Free(Itoa(n), Is('/'))
  {
    assert forall i :: 0 <= i < |Itoa(n)| ==> IsDigit(Itoa(n)[i]) || Itoa(n)[i] == '-';
  }

  function ParseFractionalMemory(text: string, pf: FloatParser): (real, real) {
    var parts := Split(text, '/');
    if |parts| != 2 then (0.0, 0.0) else (MemoryToBytes(pf, parts[0]), MemoryToBytes(pf, parts[1]))
  }

  function RawState(record: NodeRecord): string {
    FirstText([record.state, record.stateSummary])
  }

  /** Records the exporter drops. */
  predicate Unknown(record: NodeRecord) {
    RawState(record) == "state-unknown"
  }

  function InfoOf(record: NodeRecord, pf: FloatParser): (info: NodeInfo)
    ensures info.state in STATES
  {
    var memory := ParseFractionalMemory(FirstScalarText([record.memory, record.memoryFraction]), pf);
    var cpus := ParseFraction(FirstScalarText([record.cpus, record.cpusFraction]));
    var gpus := ParseFraction(FirstScalarText([record.gpus, record.gpusFraction]));
    var listed := FirstPositiveInt([record.jobs, record.jobCount, record.totalJobs, record.runningJobs], pf);
    NodeInfo(NormalizeNodeState(RawState(record)), if listed == 0 then |record.jobsList| else listed,
             cpus.0, cpus.1, gpus.0, gpus.1, memory.0, memory.1)
  }

  predicate Shows(scalar: Scalar, text: string) {
    scalar.set_ && scalar.text == text
  }

  predicate Blank(scalar: Scalar) {
    !scalar.set_ || scalar.TextValue() == ""
  }

  /** The text stands in the first field, or in the second beside an empty first. */
  predicate Offers(first: Scalar, second: Scalar, text: string) {
    Shows(first, text) || (Blank(first) && Shows(second, text))
  }

  /** A size text that survives being put beside a '/'. */
  predicate SizeText(text: string) {
    text != "" && Unpadded(text) && Free(text, Is('/'))
  }

  /** Printed counts and any size texts are read back, each into its own field, from either of its two places. */
  lemma NodeReadsBack(
      record: NodeRecord, pf: FloatParser, c: int, cs: int, g: int, gs: int, m: string, ms: string)
    requires Offers(record.cpus, record.cpusFraction, Itoa(c) + "/" + Itoa(cs))
    requires Offers(record.gpus, record.gpusFraction, Itoa(g) + "/" + Itoa(gs))
    requires SizeText(m) && SizeText(ms) && Offers(record.memory, record.memoryFraction, m + "/" + ms)
    ensures var n := InfoOf(record, pf);
      && n.cpusAvailable == c && n.cpusTotal == cs && n.gpusAvailable == g && n.gpusTotal == gs
      && n.memoryAvailable == MemoryToBytes(pf, m) && n.memoryTotal == MemoryToBytes(pf, ms)
  {
    CountsReadBack(record.cpus, record.cpusFraction, c, cs);
    CountsReadBack(record.gpus, record.gpusFraction, g, gs);
    SizesReadBack(record.memory, record.memoryFraction, m, ms, pf);
  }

  lemma OfferTaken(first: Scalar, second: Scalar, a: string, b: string)
    requires a != "" && b != "" && !IsSpace(a[0]) && !IsSpace(b[|b| - 1])
    requires Offers(first, second, a + "/" + b)
    ensures FirstScalarText([first, second]) == a + "/" + b
  {
    PairUnpadded(a, b);
    assert [first, second][1..] == [second];
  }

  lemma CountsReadBack(first: Scalar, second: Scalar, free: int, total: int)
    requires Offers(first, second, Itoa(free) + "/" + Itoa(total))
    ensures ParseFraction(FirstScalarText([first, second])) == (free, total)
  {
    var a, b := Itoa(free), Itoa(total);
    assert !IsSpace(a[0]) && !IsSpace(b[|b| - 1]);
    OfferTaken(first, second, a, b);
    FractionRoundTrip(free, total);
  }

  lemma SizesReadBack(first: Scalar, second: Scalar, a: string, b: string, pf: FloatParser)
    requires SizeText(a) && SizeText(b) && Offers(first, second, a + "/" + b)
    ensures ParseFractionalMemory(FirstScalarText([first, second]), pf) == (MemoryToBytes(pf, a), MemoryToBytes(pf, b))
  {
    OfferTaken(first, second, a, b);
    SplitPair(a, b);
  }

  lemma PairUnpadded(a: string, b: string)
    requires a != "" && b != "" && !IsSpace(a[0]) && !IsSpace(b[|b| - 1])
    ensures TrimSpace(a + "/" + b) == a + "/" + b
  {
    var text := a + "/" + b;
    assert text[0] == a[0] && text[|text| - 1] == b[|b| - 1];
    TrimSpaceShape(text);
  }

  lemma SplitPair(a: string, b: string)
    requires Free(a, Is('/')) && Free(b, Is('/'))
    ensures Split(a + "/" + b, '/') == [a, b]
  {
    SplitFree(a, Is('/'));
    SplitFree(b, Is('/'));
    SplitAt(a, '/', b, Is('/'));
    assert (a + "/" + b)[|a|] == '/';
  }

  /** The names of the stored nodes in a given state. */
  function InState(nodes: map<string, NodeInfo>, state: string): set<string> {
    set n | n in nodes && nodes[n].state == state
  }

  /** Each counter is the number of stored nodes in its state. */
  ghost predicate CountsMatch(data: NodeData) {
    && data.countFree == |InState(data.nodes, "free")|
    && data.countBusy == |InState(data.nodes, "job-busy")|
    && data.countOffline == |InState(data.nodes, "offline")|
    && data.countDown == |InState(data.nodes, "down")|
  }

  /** Of the names seen, exactly those with a known state are stored, as their records describe them. */
  ghost predicate Stores(nodes: map<string, NodeInfo>, records: map<string, NodeRecord>, seen: set<string>, pf: FloatParser) {
    && seen <= records.Keys
    && (forall n :: n in nodes <==> n in seen && !Unknown(records[n]))
    && forall n :: n in nodes ==> nodes[n] == InfoOf(records[n], pf)
  }

  /** `names` is what sort.Strings makes of the payload's keys. */
  method ParseNodes(payload: Option<NodesPayload>, names: seq<string>, pf: FloatParser) returns (data: NodeData)
    requires payload.Some? ==> IsOrder(names, payload.value.Records().Keys)
    ensures payload.None? ==> data == NO_NODES
    ensures payload.Some? ==> Stores(data.nodes, payload.value.Records(), payload.value.Records().Keys, pf)
    ensures CountsMatch(data)
  {
    data := NO_NODES;
    if payload.None? {
      return;
    }
    var records := payload.value.Records();
    ghost var seen := {};
    OrderHasKeys(names, records.Keys);
    for i := 0 to |names|
      invariant seen == SetOf(names[..i])
      invariant Stores(data.nodes, records, seen, pf)
      invariant CountsMatch(data)
    {
      NamesDistinct(names, records.Keys, i);
      var name := names[i];
      assert name in names;
      var record := records[name];
      NameSeen(names, i);
      if Unknown(record) {
        StoresNoMore(data.nodes, records, seen, name, pf);
        seen := seen + {name};
        continue;
      }
      StoresOneMore(data.nodes, records, seen, name, pf);
      assert name !in data.nodes;
      seen := seen + {name};
      var info := InfoOf(record, pf);
      data := StoreNode(data, name, info);
    }
    assert names[..|names|] == names;
    assert seen == records.Keys;
  }

  lemma StoresNoMore(
      nodes: map<string, NodeInfo>, records: map<string, NodeRecord>, seen: set<string>, name: string, pf: FloatParser)
    requires Stores(nodes, records, seen, pf) && name in records && Unknown(records[name])
    ensures Stores(nodes, records, seen + {name}, pf)
  {
  }

  lemma StoresOneMore(
      nodes: map<string, NodeInfo>, records: map<string, NodeRecord>, seen: set<string>, name: string, pf: FloatParser)
    requires Stores(nodes, records, seen, pf) && name in records && !Unknown(records[name])
    ensures Stores(nodes[name := InfoOf(records[name], pf)], records, seen + {name}, pf)
  {
  }

  function SetOf(names: seq<string>): set<string> {
    set n | n in names
  }

  lemma NameSeen(names: seq<string>, i: nat)
    requires i < |names|
    ensures SetOf(names[..i + 1]) == SetOf(names[..i]) + {names[i]}
  {
    assert names[..i + 1] == names[..i] + [names[i]];
  }

  lemma NamesDistinct(names: seq<string>, keys: set<string>, i: nat)
    requires IsOrder(names, keys) && i < |names|
    ensures names[i] !in names[..i]
  {
    var n := names[i];
    assert names == names[..i] + [n] + names[i + 1..];
    assert multiset(names)[n] == multiset(names[..i])[n] + 1 + multiset(names[i + 1..])[n];
    assert multiset(keys)[n] <= 1;
  }

  method StoreNode(data: NodeData, name: string, info: NodeInfo) returns (next: NodeData)
    requires CountsMatch(data) && name !in data.nodes && info.state in STATES
    ensures CountsMatch(next) && next.nodes == data.nodes[name := info]
  {
    next := data;
    if info.state == "free" {
      next := next.(countFree := next.countFree + 1);
    } else if info.state == "job-busy" {
      next := next.(countBusy := next.countBusy + 1);
    } else if info.state == "offline" {
      next := next.(countOffline := next.countOffline + 1);
    } else {
      next := next.(countDown := next.countDown + 1);
    }
    next := next.(nodes := next.nodes[name := info]);
    StoredInState(data.nodes, name, info, "free");
    StoredInState(data.nodes, name, info, "job-busy");
    StoredInState(data.nodes, name, info, "offline");
    StoredInState(data.nodes, name, info, "down");
  }

  lemma StoredInState(nodes: map<string, NodeInfo>, name: string, info: NodeInfo, state: string)
    requires name !in nodes
    ensures |InState(nodes[name := info], state)| == |InState(nodes, state)| + (if info.state == state then 1 else 0)
  {
    if info.state == state {
      assert InState(nodes[name := info], state) == InState(nodes, state) + {name};
    } else {
      assert InState(nodes[name := info], state) == InState(nodes, state);
    }
  }

  /** The four counters partition the records that are not unknown. */
  lemma StatesPartition(data: NodeData, records: map<string, NodeRecord>, pf: FloatParser)
    requires CountsMatch(data) && Stores(data.nodes, records, records.Keys, pf)
    ensures data.countFree + data.countBusy + data.countOffline + data.countDown
         == |set n | n in records && !Unknown(records[n])|
  {
    assert (set n | n in records && !Unknown(records[n])) == data.nodes.Keys;
    FourStates(data.nodes);
  }

  /** The stored nodes and counters are determined by the records. */
  lemma NodesUnique(a: NodeData, b: NodeData, records: map<string, NodeRecord>, pf: FloatParser)
    requires CountsMatch(a) && Stores(a.nodes, records, records.Keys, pf)
    requires CountsMatch(b) && Stores(b.nodes, records, records.Keys, pf)
    ensures a == b
  {
    assert forall n :: n in a.nodes <==> n in b.nodes;
    assert a.nodes == b.nodes;
  }

  lemma FourStates(nodes: map<string, NodeInfo>)
    requires forall n :: n in nodes ==> nodes[n].state in STATES
    ensures |InState(nodes, "free")| + |InState(nodes, "job-busy")| + |InState(nodes, "offline")| + |InState(nodes, "down")|
         == |nodes.Keys|
  {
    StatesDiffer();
    FourWay(nodes.Keys, InState(nodes, "free"), InState(nodes, "job-busy"), InState(nodes, "offline"), InState(nodes, "down"));
  }

  lemma StatesDiffer()
    ensures "free" != "job-busy" && "free" != "offline" && "free" != "down"
    ensures "job-busy" != "offline" && "job-busy" != "down" && "offline" != "down"
  {
  }

  lemma FourWay<T>(whole: set<T>, a: set<T>, b: set<T>, c: set<T>, d: set<T>)
    requires forall x :: x in whole <==> x in a || x in b || x in c || x in d
    requires a !! b && a !! c && a !! d && b !! c && b !! d && c !! d
    ensures |a| + |b| + |c| + |d| == |whole|
  {
    assert whole == a + b + c + d;
  }

  // ----- what is stored, over the payload -----

  /** The lower-case key's nodes count, unless there are none. */
  lemma RecordsChosen(payload: NodesPayload)
    ensures payload.nodes != map[] ==> payload.Records() == payload.nodes
    ensures payload.nodes == map[] ==> payload.Records() == payload.nodesAlt
  {
  }

  /** The state a record reports, in its lower-case field or else in the other. */
  function Reported(record: NodeRecord): string {
    if TrimSpace(record.state) != "" then TrimSpace(record.state) else TrimSpace(record.stateSummary)
  }

  /** Four states are told apart; everything unheard of counts as down, and a mixture as busy. */
  lemma StateMeaning(record: NodeRecord, pf: FloatParser)
    ensures Unknown(record) <==> Reported(record) == "state-unknown"
    ensures InfoOf(record, pf).state == "free" <==> Reported(record) == "free"
    ensures InfoOf(record, pf).state == "job-busy" <==> Reported(record) in {"job-busy", "<various>"}
    ensures InfoOf(record, pf).state == "offline" <==> Reported(record) == "offline"
    ensures InfoOf(record, pf).state == "down"
       <==> Reported(record) !in {"free", "job-busy", "<various>", "offline"}
  {
    RawStateIsReported(record);
    StatesDiffer();
  }

  lemma RawStateIsReported(record: NodeRecord)
    ensures RawState(record) == Reported(record)
  {
    var first, second := record.state, record.stateSummary;
    assert [first, second][1..] == [second] && [second][1..] == [];
    assert FirstText([second]) == TrimSpace(second);
  }

  /** The four counters, as numbers of nodes of the payload. */
  lemma CountersMeaning(data: NodeData, records: map<string, NodeRecord>, pf: FloatParser)
    requires CountsMatch(data) && Stores(data.nodes, records, records.Keys, pf)
    ensures data.countFree == CountWhere(records, (r: NodeRecord) => Reported(r) == "free")
    ensures data.countBusy == CountWhere(records, (r: NodeRecord) => Reported(r) in {"job-busy", "<various>"})
    ensures data.countOffline == CountWhere(records, (r: NodeRecord) => Reported(r) == "offline")
    ensures data.countDown == CountWhere(records, (r: NodeRecord) =>
      Reported(r) !in {"state-unknown", "free", "job-busy", "<various>", "offline"})
  {
    StateCount(data.nodes, records, "free", (r: NodeRecord) => Reported(r) == "free", pf);
    StateCount(data.nodes, records, "job-busy", (r: NodeRecord) => Reported(r) in {"job-busy", "<various>"}, pf);
    StateCount(data.nodes, records, "offline", (r: NodeRecord) => Reported(r) == "offline", pf);
    StateCount(data.nodes, records, "down",
               (r: NodeRecord) => Reported(r) !in {"state-unknown", "free", "job-busy", "<various>", "offline"}, pf);
  }

  lemma StateCount(
      nodes: map<string, NodeInfo>, records: map<string, NodeRecord>, state: string, p: NodeRecord -> bool, pf: FloatParser)
    requires Stores(nodes, records, records.Keys, pf)
    requires forall r :: p(r) <==> Reported(r) != "state-unknown" && ReportedAs(r, state)
    ensures |InState(nodes, state)| == CountWhere(records, p)
  {
    forall n | n in records ensures n in InState(nodes, state) <==> p(records[n]) {
      StateMeaning(records[n], pf);
      ReportedAsMeaning(records[n], state, pf);
    }
    assert InState(nodes, state) == KeysWhere(records, p);
  }

  /** The record reports what is stored as `state`. */
  predicate ReportedAs(record: NodeRecord, state: string) {
    match state
    case "free" => Reported(record) == "free"
    case "job-busy" => Reported(record) in {"job-busy", "<various>"}
    case "offline" => Reported(record) == "offline"
    case "down" => Reported(record) !in {"free", "job-busy", "<various>", "offline"}
    case _ => false
  }

  lemma ReportedAsMeaning(record: NodeRecord, state: string, pf: FloatParser)
    ensures ReportedAs(record, state) <==> InfoOf(record, pf).state == state
  {
    StateMeaning(record, pf);
  }

  /** The job count: the first positive one of four fields, or else the number of listed jobs. */
  lemma JobsMeaning(record: NodeRecord, pf: FloatParser)
    ensures var n := InfoOf(record, pf).jobs;
      if Positive(record.jobs, pf) then n == record.jobs.IntValue(pf)
      else if Positive(record.jobCount, pf) then n == record.jobCount.IntValue(pf)
      else if Positive(record.totalJobs, pf) then n == record.totalJobs.IntValue(pf)
      else if Positive(record.runningJobs, pf) then n == record.runningJobs.IntValue(pf)
      else n == |record.jobsList|
  {
    var a, b, c, d := record.jobs, record.jobCount, record.totalJobs, record.runningJobs;
    FourCandidates(a, b, c, d, pf);
  }

  predicate Positive(count: Scalar, pf: FloatParser) {
    count.set_ && count.IntValue(pf) > 0
  }

  lemma FourCandidates(a: Scalar, b: Scalar, c: Scalar, d: Scalar, pf: FloatParser)
    ensures FirstPositiveInt([a, b, c, d], pf)
         == if Positive(a, pf) then a.IntValue(pf) else if Positive(b, pf) then b.IntValue(pf)
            else if Positive(c, pf) then c.IntValue(pf) else if Positive(d, pf) then d.IntValue(pf) else 0
  {
    assert [a, b, c, d][1..] == [b, c, d] && [b, c, d][1..] == [c, d] && [c, d][1..] == [d] && [d][1..] == [];
    assert FirstPositiveInt([d], pf) == if Positive(d, pf) then d.IntValue(pf) else 0;
    assert FirstPositiveInt([c, d], pf) == if Positive(c, pf) then c.IntValue(pf) else FirstPositiveInt([d], pf);
    assert FirstPositiveInt([b, c, d], pf) == if Positive(b, pf) then b.IntValue(pf) else FirstPositiveInt([c, d], pf);
  }
}
