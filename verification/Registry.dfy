/** The `MeshRegistry` class of mesh/registry.py.

    `durable` is the content of the event store; each public method runs under the lock and is one
    step of `RegistryRuns`. Time stamps and store faults are arguments. */
module Registry {
  import opened Wrappers
  import opened Grouping
  import opened RegistryLog
  import opened Compaction
  import opened RegistryRuns
  import Scoring

  type Probe = Scoring.Probe

  class MeshRegistry {
    const settings: Settings
    var events: Log
    var pins: Pins
    var urls: map<NodeId, string>
    var catalog: map<SpecialistId, Domain>
    var durable: Log
    ghost var history: Log

    ghost function Now(): State
      reads this
    {
      State(events, pins, urls, durable, history)
    }

    /** Boot replay: rebuild the read model and the pins, first key seen wins. */
    constructor (settings: Settings, catalog: map<SpecialistId, Domain>, durable: Log, ghost history: Log)
      ensures this.settings == settings && this.catalog == catalog
      ensures Now() == Boot(durable, history)
    {
      this.settings, this.catalog, this.durable, this.history := settings, catalog, durable, history;
      events, pins, urls := [], map[], map[];
      new;
      for i := 0 to |durable|
        invariant this.settings == settings && this.catalog == catalog
        invariant Now() == State(durable[..i], PinsOf(durable[..i]), map[], durable, history)
      {
        var e := durable[i];
        assert durable[..i + 1][..i] == durable[..i];
        events := events + [e];
        if e.Heartbeat? && e.key != "" && e.beat.node !in pins {
          pins := pins[e.beat.node := e.key];
        }
      }
      assert durable[..|durable|] == durable;
    }

    method CheckNodeIdentity(n: NodeId, cert: Option<Cert>) returns (r: Identity)
      modifies this`pins
      ensures r == CheckIdentity(old(pins), settings.requireIdentity, n, cert)
      ensures pins == if r.Accepted? then r.pins else old(pins)
    {
      match cert {
        case Some(c) =>
          if !Verified(c) { return Refused; }
          if n in pins && pins[n] != c.key { return Refused; }
          pins := pins[n := c.key];
          return Accepted(pins, c.key);
        case None =>
          if settings.requireIdentity { return Refused; }
          if n in pins { return Refused; }
          return Accepted(pins, "");
      }
    }

    /** Durable first: when the store fails the read model is left alone. */
    method RecordEvent(e: Event, f: Fault) returns (o: Outcome)
      modifies this`durable, this`events, this`history
      ensures (Now(), o) == NoteStep(old(Now()), settings, e, f)
    {
      if Fails(settings, f) { return StoreFailed; }
      if !settings.kind.NoDurability? { durable := durable + [e]; }
      events := events + [e];
      history := history + [e];
      return Acked;
    }

    method RecordHeartbeat(r: Request, ts: Time, f: Fault) returns (o: Outcome)
      modifies this
      ensures catalog == old(catalog)
      ensures (Now(), o) == BeatStep(old(Now()), settings, r, ts, f)
    {
      var id := CheckNodeIdentity(r.beat.node, r.cert);
      if id.Refused? { return IdentityRefused; }
      if r.url != "" { urls := urls[r.beat.node := r.url]; }
      o := RecordEvent(Heartbeat(ts, r.url, id.key, r.beat), f);
      if o == Acked && |events| > settings.maxEvents {
        o := CompactHeartbeats(f);
      }
    }

    method CompactHeartbeats(f: Fault) returns (o: Outcome)
      modifies this`events, this`durable
      ensures Now() == CompactState(old(Now()), settings, f)
      ensures o == if settings.kind.Compacting? && f.CompactFails? then StoreFailed else Acked
    {
      var latest := LatestIndexes(events);
      events := Retain(events, latest);
      if settings.kind.Compacting? {
        if f.CompactFails? { return StoreFailed; }
        durable := events;
      }
      return Acked;
    }

    /** First pass: where each node was heard last. */
    static method LatestIndexes(log: Log) returns (latest: map<NodeId, nat>)
      ensures forall n :: n in latest ==> IsLatest(log, n, latest[n])
      ensures forall k :: 0 <= k < |log| && log[k].Heartbeat? ==> log[k].beat.node in latest
    {
      latest := map[];
      for i := 0 to |log|
        invariant forall n :: n in latest ==> IsLatest(log[..i], n, latest[n])
        invariant forall k :: 0 <= k < i && log[k].Heartbeat? ==> log[k].beat.node in latest
      {
        if log[i].Heartbeat? {
          latest := latest[log[i].beat.node := i];
        }
      }
      assert log[..|log|] == log;
    }

    /** Second pass: drop the heartbeats at other indexes. */
    static method Retain(log: Log, latest: map<NodeId, nat>) returns (kept: Log)
      requires forall n :: n in latest ==> IsLatest(log, n, latest[n])
      requires forall k :: 0 <= k < |log| && log[k].Heartbeat? ==> log[k].beat.node in latest
      ensures kept == Compact(log)
    {
      var keep := latest.Values;
      kept := [];
      for i := 0 to |log|
        invariant kept + Compact(log[i..]) == Compact(log)
      {
        var e := log[i];
        assert log[i..][0] == e && log[i..][1..] == log[i + 1..];
        if e.Heartbeat? {
          KeepsLatest(log, latest, i);
        }
        if !e.Heartbeat? || i in keep {
          assert kept + Compact(log[i..]) == kept + [e] + Compact(log[i + 1..]);
          kept := kept + [e];
        }
      }
    }

    /** Replay the log into a snapshot. */
    method TakeSnapshot(now: Time) returns (s: Snapshot)
      ensures s == SnapshotOf(Latest(events), View(now, urls, catalog))
    {
      var v := View(now, urls, catalog);
      var latest: Log := [];
      var left: set<NodeId> := {};
      for i := 0 to |events|
        invariant latest == Latest(events[..i]) && left == Left(events[..i])
      {
        assert events[..i + 1][..i] == events[..i];
        match events[i] {
          case Heartbeat(_, _, _, b) =>
            left := left - {b.node};
            latest := SetLatest(latest, events[i]);
          case NodeLeft(_, n) =>
            left := left + {n};
            latest := Without(latest, n);
          case Note(_, _) =>
        }
      }
      assert events[..|events|] == events;
      LatestIsCurrent(events, "");
      var nodes: map<NodeId, Summary> := map[];
      var specialists: map<SpecialistId, seq<Binding>> := map[];
      var coverage: map<Domain, seq<NodeId>> := map[];
      for i := 0 to |latest|
        invariant Snapshot(nodes, specialists, coverage) == SnapshotOf(latest[..i], v)
      {
        var e := latest[i];
        assert latest[..i + 1] == latest[..i] + [e];
        assert e.beat.node !in left by {
          LatestIsCurrent(events, e.beat.node);
          FindIn(latest, e);
        }
        if e.beat.node in left { continue; }
        nodes := nodes[e.beat.node := SummaryOf(e, v)];
        FlatSnoc(BindingPairs(v), latest[..i], e);
        FlatSnoc(CoveragePairs(v), latest[..i], e);
        specialists, coverage := AddModels(e, v, specialists, coverage, Flat(BindingPairs(v), latest[..i]),
                                           Flat(CoveragePairs(v), latest[..i]));
      }
      assert latest[..|latest|] == latest;
      s := Snapshot(nodes, specialists, coverage);
    }

    /** The inner loop over the models of one node. */
    static method AddModels(e: Event, v: View, sp: map<SpecialistId, seq<Binding>>, cov: map<Domain, seq<NodeId>>,
                            ghost bs0: seq<(SpecialistId, Binding)>, ghost cs0: seq<(Domain, NodeId)>)
      returns (specialists: map<SpecialistId, seq<Binding>>, coverage: map<Domain, seq<NodeId>>)
      requires e.Heartbeat? && sp == Group(bs0) && cov == Group(cs0)
      ensures specialists == Group(bs0 + BindingsFrom(e, v, e.beat.models))
      ensures coverage == Group(cs0 + CoverageFrom(e, v, e.beat.models))
    {
      specialists, coverage := sp, cov;
      ghost var bs, cs := bs0, cs0;
      var models := e.beat.models;
      assert models[..0] == [];
      for i := 0 to |models|
        invariant specialists == Group(bs) && bs == bs0 + BindingsFrom(e, v, models[..i])
        invariant coverage == Group(cs) && cs == cs0 + CoverageFrom(e, v, models[..i])
      {
        BindingsSnoc(bs0, e, v, models, i);
        CoverageSnoc(cs0, e, v, models, i);
        specialists, bs := Bind(e, v, models[i], specialists, bs);
        if models[i].specialist in v.catalog {
          coverage, cs := Cover(e, v, models[i], coverage, cs);
        }
      }
      assert models[..|models|] == models;
    }

    static method Bind(e: Event, v: View, m: LoadedModel, sp: map<SpecialistId, seq<Binding>>, ghost bs: seq<(SpecialistId, Binding)>)
      returns (specialists: map<SpecialistId, seq<Binding>>, ghost bs': seq<(SpecialistId, Binding)>)
      requires e.Heartbeat? && sp == Group(bs)
      ensures bs' == bs + [(m.specialist, BindingOf(e, m, v))] && specialists == Group(bs')
    {
      GroupSnoc(bs, m.specialist, BindingOf(e, m, v));
      bs' := bs + [(m.specialist, BindingOf(e, m, v))];
      specialists := Append(sp, m.specialist, BindingOf(e, m, v));
    }

    static method Cover(e: Event, v: View, m: LoadedModel, cov: map<Domain, seq<NodeId>>, ghost cs: seq<(Domain, NodeId)>)
      returns (coverage: map<Domain, seq<NodeId>>, ghost cs': seq<(Domain, NodeId)>)
      requires e.Heartbeat? && m.specialist in v.catalog && cov == Group(cs)
      ensures cs' == cs + [(v.catalog[m.specialist], e.beat.node)] && coverage == Group(cs')
    {
      GroupSnoc(cs, v.catalog[m.specialist], e.beat.node);
      cs' := cs + [(v.catalog[m.specialist], e.beat.node)];
      coverage := Append(cov, v.catalog[m.specialist], e.beat.node);
    }

    /** The allocator's input: the hardware each node last reported, in the order of the nodes' first heartbeats,
        departed nodes included. */
    method LatestHardware() returns (latest: Log, nodes: seq<Probe>)
      ensures latest == Heard(events) && nodes == Probes(latest)
      ensures forall n :: Find(latest, n) == LastBeat(events, n)
    {
      latest := [];
      for i := 0 to |events|
        invariant latest == Heard(events[..i])
      {
        assert events[..i + 1][..i] == events[..i];
        if events[i].Heartbeat? { latest := SetLatest(latest, events[i]); }
      }
      assert events[..|events|] == events;
      nodes := [];
      for i := 0 to |latest|
        invariant nodes == Probes(latest[..i])
      {
        assert latest[..i + 1][..i] == latest[..i];
        if latest[i].Heartbeat? { nodes := nodes + [latest[i].beat.hardware.probe]; }
      }
      assert latest[..|latest|] == latest;
      forall n ensures Find(latest, n) == LastBeat(events, n) { HeardIsLast(events, n); }
    }
  }

  lemma BindingsSnoc(bs: seq<(SpecialistId, Binding)>, e: Event, v: View, models: seq<LoadedModel>, i: nat)
    requires e.Heartbeat? && i < |models|
    ensures bs + BindingsFrom(e, v, models[..i + 1])
            == bs + BindingsFrom(e, v, models[..i]) + [(models[i].specialist, BindingOf(e, models[i], v))]
  {
    assert models[..i + 1][..i] == models[..i];
  }

  lemma CoverageSnoc(cs: seq<(Domain, NodeId)>, e: Event, v: View, models: seq<LoadedModel>, i: nat)
    requires e.Heartbeat? && i < |models|
    ensures cs + CoverageFrom(e, v, models[..i + 1])
            == if models[i].specialist in v.catalog
               then cs + CoverageFrom(e, v, models[..i]) + [(v.catalog[models[i].specialist], e.beat.node)]
               else cs + CoverageFrom(e, v, models[..i])
  {
    assert models[..i + 1][..i] == models[..i];
  }

  ghost predicate IsLatest(log: Log, n: NodeId, i: nat) {
    i < |log| && BeatOf(log[i], n) && forall j :: i < j < |log| ==> !BeatOf(log[j], n)
  }

  /** The index test of the second pass says exactly "not superseded". */
  lemma KeepsLatest(log: Log, latest: map<NodeId, nat>, i: nat)
    requires i < |log| && log[i].Heartbeat? && log[i].beat.node in latest
    requires forall n :: n in latest ==> IsLatest(log, n, latest[n])
    ensures i in latest.Values <==> !Superseded(log[i], log[i + 1..])
  {
    var n, later := log[i].beat.node, log[i + 1..];
    var k := latest[n];
    assert IsLatest(log, n, k);
    if k == i {
      assert forall j :: 0 <= j < |later| ==> later[j] == log[i + 1 + j];
    } else {
      assert later[k - i - 1] == log[k];
      assert forall m :: m in latest && latest[m] == i ==> IsLatest(log, m, i);
    }
  }
}
