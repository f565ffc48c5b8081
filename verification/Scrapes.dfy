/**
 Scrapes running beside the worker. A scrape takes the store's lock three times, for the status,
 the histograms and the snapshot; the worker's writes and other scrapes may fall in between.
 */
module Scrapes {
  import opened Wrappers
  import opened Inspection
  import opened Histograms
  import opened Client
  import opened Store
  import opened Runs

  type ScrapeId = nat

  datatype Event =
    | Write(tick: Tick)
    | StatusRead(id: ScrapeId)
    | HistogramsRead(id: ScrapeId)
    | SnapshotRead(id: ScrapeId)

  /** What a scrape has read so far. */
  datatype Progress =
    | SawStatus(status: Status)
    | SawHistograms(status: Status, samples: Option<SampleSnapshots>)
    | Finished(status: Status, samples: Option<SampleSnapshots>, snapshot: Option<Snapshot>)

  datatype System = System(store: StoreState, scrapes: map<ScrapeId, Progress>)

  /** Each scrape reads in its program order; writes are always possible. */
  predicate Enabled(sys: System, e: Event) {
    match e
    case Write(_) => true
    case StatusRead(id) => id !in sys.scrapes
    case HistogramsRead(id) => id in sys.scrapes && sys.scrapes[id].SawStatus?
    case SnapshotRead(id) => id in sys.scrapes && sys.scrapes[id].SawHistograms?
  }

  /** One locked section. */
  function Next(sys: System, e: Event): System
    requires Enabled(sys, e)
  {
    match e
    case Write(tick) => sys.(store := Step(sys.store, tick))
    case StatusRead(id) => sys.(scrapes := sys.scrapes[id := SawStatus(sys.store.status)])
    case HistogramsRead(id) =>
      sys.(scrapes := sys.scrapes[id := SawHistograms(sys.scrapes[id].status, ExportedSamples(sys.store))])
    case SnapshotRead(id) =>
      sys.(scrapes := sys.scrapes[id :=
        Finished(sys.scrapes[id].status, sys.scrapes[id].samples, sys.store.snapshot)])
  }

  /** The state after an interleaving, or None when some scrape would read out of order. */
  function After(init: StoreState, events: seq<Event>): Option<System> {
    if events == [] then Some(System(init, map[]))
    else
      var last := |events| - 1;
      match After(init, events[..last])
      case None => None
      case Some(sys) => if Enabled(sys, events[last]) then Some(Next(sys, events[last])) else None
  }

  /** The worker's part of an interleaving. */
  function Ticks(events: seq<Event>): seq<Tick> {
    if events == [] then []
    else
      var front := Ticks(events[..|events| - 1]);
      match events[|events| - 1] case Write(tick) => front + [tick] case _ => front
  }

  /** The store's history: its state after the writes among the first n events. */
  function StoreAt(init: StoreState, events: seq<Event>, n: nat): StoreState
    requires n <= |events|
  {
    RunFrom(init, Ticks(events[..n]))
  }

  /** Positions p < q < r at which scrape `id` did its three reads, and what it read there. */
  ghost predicate ReadAt(init: StoreState, events: seq<Event>, id: ScrapeId, progress: Progress, p: nat, q: nat, r: nat) {
    && p < |events| && events[p] == StatusRead(id) && progress.status == StoreAt(init, events, p).status
    && (!progress.SawStatus? ==>
         p < q < |events| && events[q] == HistogramsRead(id)
         && progress.samples == ExportedSamples(StoreAt(init, events, q)))
    && (progress.Finished? ==>
         q < r < |events| && events[r] == SnapshotRead(id)
         && progress.snapshot == StoreAt(init, events, r).snapshot)
  }

  lemma {:induction false} StoreFollowsTicks(init: StoreState, events: seq<Event>)
    requires After(init, events).Some?
    ensures After(init, events).value.store == RunFrom(init, Ticks(events))
  {
    if events != [] {
      var last := |events| - 1;
      StoreFollowsTicks(init, events[..last]);
      if events[last].Write? {
        var front := Ticks(events[..last]);
        assert (front + [events[last].tick])[..|front|] == front;
      }
    }
  }

  /** In every interleaving each read of each scrape is the store's state at one point of its history, in order. */
  lemma {:induction false} ScrapeReads(init: StoreState, events: seq<Event>, id: ScrapeId) returns (p: nat, q: nat, r: nat)
    requires After(init, events).Some? && id in After(init, events).value.scrapes
    ensures ReadAt(init, events, id, After(init, events).value.scrapes[id], p, q, r)
  {
    var last := |events| - 1;
    var front, e := events[..last], events[last];
    var before := After(init, front).value;
    StoreFollowsTicks(init, front);
    assert events[..last] == front;
    if e == StatusRead(id) {
      p, q, r := last, 0, 0;
    } else {
      p, q, r := ScrapeReads(init, front, id);
      assert forall n: nat :: n <= last ==> events[..n] == front[..n];
      if e == HistogramsRead(id) {
        q := last;
      } else if e == SnapshotRead(id) {
        r := last;
      }
    }
  }

  lemma {:induction false} TicksAppend(a: seq<Event>, b: seq<Event>)
    ensures Ticks(a + b) == Ticks(a) + Ticks(b)
    decreases |b|
  {
    if b == [] {
      assert a + b == a;
    } else {
      assert (a + b)[..|a + b| - 1] == a + b[..|b| - 1];
      TicksAppend(a, b[..|b| - 1]);
    }
  }

  lemma TicksBetween(events: seq<Event>, m: nat, n: nat)
    requires m <= n <= |events|
    ensures Ticks(events[..n]) == Ticks(events[..m]) + Ticks(events[m..n])
  {
    assert events[..n] == events[..m] + events[m..n];
    TicksAppend(events[..m], events[m..n]);
  }

  /** A scrape with no write in its window saw one single state. */
  lemma QuietScrapeIsCoherent(init: StoreState, events: seq<Event>, id: ScrapeId, scrape: Progress, p: nat, q: nat, r: nat)
    requires scrape.Finished? && ReadAt(init, events, id, scrape, p, q, r)
    requires Ticks(events[p..r]) == []
    ensures var s := StoreAt(init, events, p);
      scrape == Finished(s.status, ExportedSamples(s), s.snapshot)
  {
    TicksBetween(events, p, q);
    TicksBetween(events, p, r);
    assert events[p..r] == events[p..q] + events[q..r];
    TicksAppend(events[p..q], events[q..r]);
    assert Ticks(events[p..q]) == [];
    assert Ticks(events[..q]) == Ticks(events[..p]) && Ticks(events[..r]) == Ticks(events[..p]);
  }

  predicate LastSucceeds(ticks: seq<Tick>) {
    ticks != [] && ticks[|ticks| - 1].Succeeds()
  }

  lemma LastTickDecides(config: SampleConfig, ticks: seq<Tick>)
    ensures RunFrom(Configured(config), ticks).status.up <==> LastSucceeds(ticks)
    ensures RunFrom(Configured(config), ticks).snapshot.Some? <==> LastSucceeds(ticks)
  {
  }

  /** The last write of a longer run is that of the window, when there is one. */
  lemma WindowDecides(before: seq<Tick>, window: seq<Tick>)
    ensures LastSucceeds(before + window) == if window == [] then LastSucceeds(before) else LastSucceeds(window)
    ensures LastCarries(before + window) == if window == [] then LastCarries(before) else LastCarries(window)
  {
    assert window == [] ==> before + window == before;
  }

  /**
   A scrape is torn, up without a snapshot or the reverse, exactly when there are writes in its
   window and the last of them differs in success from the last write before it.
   */
  lemma TornScrapesExactly(
      config: SampleConfig, events: seq<Event>, id: ScrapeId, scrape: Progress, p: nat, q: nat, r: nat)
    requires scrape.Finished? && ReadAt(Configured(config), events, id, scrape, p, q, r)
    ensures var before, window := Ticks(events[..p]), Ticks(events[p..r]);
      && (scrape.status.up != scrape.snapshot.Some? <==> window != [] && LastSucceeds(before) != LastSucceeds(window))
      && (scrape.status.up <==> LastSucceeds(before))
      && (scrape.snapshot.Some? <==> LastSucceeds(if window == [] then before else window))
  {
    TicksBetween(events, p, r);
    LastTickDecides(config, Ticks(events[..p]));
    LastTickDecides(config, Ticks(events[..r]));
    WindowDecides(Ticks(events[..p]), Ticks(events[p..r]));
  }

  /** Both kinds of tearing happen: any write followed by one of the other outcome can produce it. */
  lemma TornScrapeExists(init: StoreState, first: Tick, second: Tick) returns (events: seq<Event>)
    requires first.Succeeds() != second.Succeeds()
    ensures After(init, events).Some? && 0 in After(init, events).value.scrapes
    ensures var scrape := After(init, events).value.scrapes[0];
      scrape.Finished? && (scrape.status.up <==> first.Succeeds()) && (scrape.snapshot.Some? <==> second.Succeeds())
  {
    var e1, e2, e3, e4, e5 := Write(first), StatusRead(0), Write(second), HistogramsRead(0), SnapshotRead(0);
    assert [e1][..0] == [];
    assert [e1, e2][..1] == [e1];
    assert [e1, e2, e3][..2] == [e1, e2];
    assert [e1, e2, e3, e4][..3] == [e1, e2, e3];
    events := [e1, e2, e3, e4, e5];
    assert events[..4] == [e1, e2, e3, e4];
    var s1 := Step(init, first);
    assert After(init, [e1]) == Some(System(s1, map[]));
    assert After(init, [e1, e2]) == Some(System(s1, map[0 := SawStatus(s1.status)]));
    assert After(init, [e1, e2, e3]) == Some(System(Step(s1, second), map[0 := SawStatus(s1.status)]));
    assert After(init, [e1, e2, e3, e4]).Some?;
  }

  /** No counter of a later scrape is behind an earlier scrape that had finished before it began. */
  lemma LaterScrapesNeverFallBehind(
      config: SampleConfig, events: seq<Event>,
      id1: ScrapeId, first: Progress, p1: nat, q1: nat, r1: nat,
      id2: ScrapeId, second: Progress, p2: nat, q2: nat, r2: nat)
    requires first.Finished? && ReadAt(Configured(config), events, id1, first, p1, q1, r1)
    requires second.Finished? && ReadAt(Configured(config), events, id2, second, p2, q2, r2)
    requires r1 < p2
    ensures first.status.collectErrorsTotal <= second.status.collectErrorsTotal
    ensures first.status.jobInspectionErrorsTotal <= second.status.jobInspectionErrorsTotal
    ensures first.samples.Some? <==> second.samples.Some?
    ensures first.samples.Some? ==>
      forall r: Resource :: NoSmaller(first.samples.value.Of(r), second.samples.value.Of(r))
  {
    TicksBetween(events, p1, p2);
    CountersNeverDecrease(config, Ticks(events[..p1]), Ticks(events[p1..p2]));
    TicksBetween(events, q1, q2);
    CountersNeverDecrease(config, Ticks(events[..q1]), Ticks(events[q1..q2]));
  }

  predicate LastCarries(ticks: seq<Tick>) {
    LastSucceeds(ticks) && ticks[|ticks| - 1].outcome.result.snapshot.value.jobInspection.Some?
  }

  predicate CarriesJobs(snapshot: Option<Snapshot>) {
    snapshot.Some? && snapshot.value.jobInspection.Some?
  }

  lemma LastTickCarries(config: SampleConfig, ticks: seq<Tick>)
    requires forall i :: 0 <= i < |ticks| ==> ClientShape(ticks[i].outcome)
    ensures RunFrom(Configured(config), ticks).status.jobInspectionUp <==> LastCarries(ticks)
    ensures CarriesJobs(RunFrom(Configured(config), ticks).snapshot) <==> LastCarries(ticks)
  {
    InspectionInvariant(config, ticks);
  }

  /** Some write falls between the scrape's first and last read, and differs from the last before it in carrying jobs. */
  predicate JobsTorn(events: seq<Event>, p: nat, r: nat)
    requires p <= r <= |events|
  {
    var window := Ticks(events[p..r]);
    window != [] && LastCarries(Ticks(events[..p])) != LastCarries(window)
  }

  /** With the real client a scrape's inspection gauge and its stored jobs disagree exactly when they are torn. */
  lemma TornInspectionExactly(
      config: SampleConfig, events: seq<Event>, id: ScrapeId, scrape: Progress, p: nat, q: nat, r: nat)
    requires scrape.Finished? && ReadAt(Configured(config), events, id, scrape, p, q, r)
    requires forall i :: 0 <= i < |Ticks(events)| ==> ClientShape(Ticks(events)[i].outcome)
    ensures scrape.status.jobInspectionUp != CarriesJobs(scrape.snapshot) <==> JobsTorn(events, p, r)
  {
    TicksBetween(events, p, |events|);
    TicksBetween(events, r, |events|);
    TicksBetween(events, p, r);
    assert events[..|events|] == events;
    ShapesBefore(Ticks(events[..p]), Ticks(events[p..]), Ticks(events));
    ShapesBefore(Ticks(events[..r]), Ticks(events[r..]), Ticks(events));
    LastTickCarries(config, Ticks(events[..p]));
    LastTickCarries(config, Ticks(events[..r]));
    WindowDecides(Ticks(events[..p]), Ticks(events[p..r]));
  }

  lemma ShapesBefore(front: seq<Tick>, back: seq<Tick>, all: seq<Tick>)
    requires all == front + back && forall i :: 0 <= i < |all| ==> ClientShape(all[i].outcome)
    ensures forall i :: 0 <= i < |front| ==> ClientShape(front[i].outcome)
  {
    assert forall i :: 0 <= i < |front| ==> front[i] == all[i];
  }
}
