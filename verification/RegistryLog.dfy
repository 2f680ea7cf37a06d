/** The event log of mesh/registry.py: replay into a snapshot, and compaction of heartbeats.

    Texts that may be missing are "" when missing, as the source tests them for truth. */
module RegistryLog {
  import opened Wrappers
  import opened Grouping
  import Scoring

  type NodeId = string
  type SpecialistId = string
  type Domain = string
  type Time = real

  const UNREACHABLE_AFTER: Time := 300.0

  datatype Health = Healthy | Degraded | Draining | Training | Unreachable
  datatype LoadedModel = LoadedModel(specialist: SpecialistId, url: string)
  datatype Hardware = Hardware(friendlyName: string, probe: Scoring.Probe)
  datatype Beat = Beat(node: NodeId, hardware: Hardware, models: seq<LoadedModel>, queue: int,
                       p95: Option<real>, health: Health)

  /** Allocation and quality events are told apart only by their payload. */
  datatype Event =
    | Heartbeat(ts: Time, url: string, key: string, beat: Beat)
    | NodeLeft(ts: Time, node: NodeId)
    | Note(ts: Time, payload: string)

  type Log = seq<Event>

  predicate BeatOf(e: Event, n: NodeId) {
    e.Heartbeat? && e.beat.node == n
  }

  predicate Mention(e: Event, n: NodeId) {
    BeatOf(e, n) || (e.NodeLeft? && e.node == n)
  }

  // ----- replay: `latest` in insertion order -----

  /** `latest[node] = ev` on an ordered dict: a known node keeps its place. */
  function SetLatest(d: Log, e: Event): Log
    requires e.Heartbeat?
  {
    if |d| == 0 then [e]
    else if BeatOf(d[0], e.beat.node) then [e] + d[1..]
    else [d[0]] + SetLatest(d[1..], e)
  }

  function Without(d: Log, n: NodeId): Log {
    if |d| == 0 then [] else (if BeatOf(d[0], n) then [] else [d[0]]) + Without(d[1..], n)
  }

  function ReplayEvent(d: Log, e: Event): Log {
    match e
    case Heartbeat(_, _, _, _) => SetLatest(d, e)
    case NodeLeft(_, n) => Without(d, n)
    case Note(_, _) => d
  }

  function Latest(log: Log): Log {
    if |log| == 0 then [] else ReplayEvent(Latest(log[..|log| - 1]), log[|log| - 1])
  }

  /** `latest_hardware[node] = ...` over the heartbeats: what the allocator reads, departed nodes included. */
  function Heard(log: Log): Log {
    if |log| == 0 then []
    else
      var before, e := Heard(log[..|log| - 1]), log[|log| - 1];
      if e.Heartbeat? then SetLatest(before, e) else before
  }

  /** The flag set `left`: nodes whose last mention is a departure. */
  function Left(log: Log): set<NodeId> {
    if |log| == 0 then {}
    else
      var rest, e := Left(log[..|log| - 1]), log[|log| - 1];
      match e
      case Heartbeat(_, _, _, b) => rest - {b.node}
      case NodeLeft(_, n) => rest + {n}
      case Note(_, _) => rest
  }

  // ----- the same, read node by node -----

  /** The last heartbeat of `n`, unless `n` left after it. */
  function Current(log: Log, n: NodeId): (r: Option<Event>)
    ensures r.Some? ==> BeatOf(r.value, n)
  {
    if |log| == 0 then None
    else
      var e := log[|log| - 1];
      if BeatOf(e, n) then Some(e) else if Mention(e, n) then None else Current(log[..|log| - 1], n)
  }

  /** The last heartbeat of `n`, whether or not it left: the allocator's hardware map. */
  function LastBeat(log: Log, n: NodeId): (r: Option<Event>)
    ensures r.Some? ==> BeatOf(r.value, n)
  {
    if |log| == 0 then None
    else if BeatOf(log[|log| - 1], n) then Some(log[|log| - 1])
    else LastBeat(log[..|log| - 1], n)
  }

  function Find(d: Log, n: NodeId): Option<Event> {
    if |d| == 0 then None else if BeatOf(d[0], n) then Some(d[0]) else Find(d[1..], n)
  }

  predicate DistinctNodes(d: Log) {
    && (forall i :: 0 <= i < |d| ==> d[i].Heartbeat?)
    && (forall i, j :: 0 <= i < j < |d| ==> d[i].beat.node != d[j].beat.node)
  }

  lemma {:induction false} SetLatestFinds(d: Log, e: Event, n: NodeId)
    requires e.Heartbeat?
    ensures Find(SetLatest(d, e), n) == if BeatOf(e, n) then Some(e) else Find(d, n)
  {
    if |d| > 0 {
      var d' := SetLatest(d, e);
      if BeatOf(d[0], e.beat.node) {
        assert d'[1..] == d[1..];
      } else {
        SetLatestFinds(d[1..], e, n);
        assert d'[1..] == SetLatest(d[1..], e);
      }
    }
  }

  lemma {:induction false} WithoutFinds(d: Log, m: NodeId, n: NodeId)
    ensures Find(Without(d, m), n) == if m == n then None else Find(d, n)
  {
    if |d| > 0 {
      var rest := Without(d[1..], m);
      WithoutFinds(d[1..], m, n);
      assert Without(d, m) == if BeatOf(d[0], m) then rest else [d[0]] + rest;
    }
  }

  lemma DistinctTail(d: Log)
    requires DistinctNodes(d) && |d| > 0
    ensures DistinctNodes(d[1..])
    ensures forall x :: x in d[1..] ==> x.Heartbeat? && x.beat.node != d[0].beat.node
  {
    assert forall i :: 0 <= i < |d| - 1 ==> d[1..][i] == d[i + 1];
  }

  lemma DistinctCons(e: Event, d: Log)
    requires e.Heartbeat? && DistinctNodes(d) && forall x :: x in d ==> x.beat.node != e.beat.node
    ensures DistinctNodes([e] + d)
  {}

  lemma {:induction false} WithoutDistinct(d: Log, m: NodeId)
    requires DistinctNodes(d)
    ensures DistinctNodes(Without(d, m))
    ensures forall e :: e in Without(d, m) ==> e in d
  {
    if |d| > 0 {
      DistinctTail(d);
      WithoutDistinct(d[1..], m);
      if !BeatOf(d[0], m) { DistinctCons(d[0], Without(d[1..], m)); }
    }
  }

  lemma {:induction false} SetLatestDistinct(d: Log, e: Event)
    requires DistinctNodes(d) && e.Heartbeat?
    ensures DistinctNodes(SetLatest(d, e))
    ensures forall x :: x in SetLatest(d, e) ==> x == e || x in d
  {
    if |d| > 0 {
      DistinctTail(d);
      if !BeatOf(d[0], e.beat.node) {
        SetLatestDistinct(d[1..], e);
        DistinctCons(d[0], SetLatest(d[1..], e));
      }
    }
  }

  /** Replay keeps one heartbeat per node, the node's current one; the `left` flags never matter. */
  lemma {:induction false} LatestIsCurrent(log: Log, n: NodeId)
    ensures Find(Latest(log), n) == Current(log, n)
    ensures DistinctNodes(Latest(log))
    ensures n in Left(log) ==> Current(log, n).None?
  {
    if |log| > 0 {
      var log', e := log[..|log| - 1], log[|log| - 1];
      LatestIsCurrent(log', n);
      match e
      case Heartbeat(_, _, _, _) =>
        SetLatestFinds(Latest(log'), e, n);
        SetLatestDistinct(Latest(log'), e);
      case NodeLeft(_, m) =>
        WithoutFinds(Latest(log'), m, n);
        WithoutDistinct(Latest(log'), m);
      case Note(_, _) =>
    }
  }

  /** The last event about the node is its departure. */
  predicate Departed(log: Log, n: NodeId) {
    exists i :: 0 <= i < |log| && log[i].NodeLeft? && log[i].node == n && forall j :: i < j < |log| ==> !Mention(log[j], n)
  }

  lemma {:induction false} LeftIff(log: Log, n: NodeId)
    ensures n in Left(log) <==> Departed(log, n)
  {
    if |log| > 0 {
      var k := |log| - 1;
      var front := log[..k];
      LeftIff(front, n);
      assert forall j :: 0 <= j < k ==> log[j] == front[j];
      if Mention(log[k], n) {
        assert Departed(log, n) <==> log[k].NodeLeft?;
      } else if Departed(front, n) {
        var i :| 0 <= i < k && front[i].NodeLeft? && front[i].node == n && forall j :: i < j < k ==> !Mention(front[j], n);
        assert log[i].NodeLeft?;
      }
    }
  }

  /** The allocator reads each node's last heartbeat. */
  lemma {:induction false} HeardIsLast(log: Log, n: NodeId)
    ensures Find(Heard(log), n) == LastBeat(log, n) && DistinctNodes(Heard(log))
  {
    if |log| > 0 {
      var log', e := log[..|log| - 1], log[|log| - 1];
      HeardIsLast(log', n);
      if e.Heartbeat? {
        SetLatestFinds(Heard(log'), e, n);
        SetLatestDistinct(Heard(log'), e);
      }
    }
  }

  /** `latest_hardware.values()`. */
  function Probes(heard: Log): seq<Scoring.Probe> {
    if |heard| == 0 then []
    else Probes(heard[..|heard| - 1])
         + if heard[|heard| - 1].Heartbeat? then [heard[|heard| - 1].beat.hardware.probe] else []
  }

  // ----- the snapshot -----

  datatype Summary = Summary(node: NodeId, friendlyName: string, health: Health, lastSeen: Time,
                             loaded: seq<SpecialistId>, queue: int, p95: Option<real>, url: string)
  datatype Binding = Binding(node: NodeId, specialist: SpecialistId, health: Health, queue: int,
                             p95: Option<real>, url: string, lastSeen: Time)
  datatype Snapshot = Snapshot(nodes: map<NodeId, Summary>, specialists: map<SpecialistId, seq<Binding>>,
                               coverage: map<Domain, seq<NodeId>>)

  /** What a snapshot depends on besides the log. */
  datatype View = View(now: Time, urls: map<NodeId, string>, catalog: map<SpecialistId, Domain>)

  function HealthAt(e: Event, now: Time): Health
    requires e.Heartbeat?
  {
    if now - e.ts > UNREACHABLE_AFTER then Unreachable else e.beat.health
  }

  function NodeUrl(e: Event, v: View): string
    requires e.Heartbeat?
  {
    if e.url != "" then e.url else if e.beat.node in v.urls then v.urls[e.beat.node] else ""
  }

  function SummaryOf(e: Event, v: View): Summary
    requires e.Heartbeat?
  {
    Summary(e.beat.node, e.beat.hardware.friendlyName, HealthAt(e, v.now), e.ts,
            seq(|e.beat.models|, i requires 0 <= i < |e.beat.models| => e.beat.models[i].specialist),
            e.beat.queue, e.beat.p95, NodeUrl(e, v))
  }

  function BindingOf(e: Event, m: LoadedModel, v: View): Binding
    requires e.Heartbeat?
  {
    Binding(e.beat.node, m.specialist, HealthAt(e, v.now), e.beat.queue, e.beat.p95,
            if m.url != "" then m.url else NodeUrl(e, v), e.ts)
  }

  function BindingsFrom(e: Event, v: View, models: seq<LoadedModel>): seq<(SpecialistId, Binding)>
    requires e.Heartbeat?
  {
    if |models| == 0 then []
    else
      var m := models[|models| - 1];
      BindingsFrom(e, v, models[..|models| - 1]) + [(m.specialist, BindingOf(e, m, v))]
  }

  function CoverageFrom(e: Event, v: View, models: seq<LoadedModel>): seq<(Domain, NodeId)>
    requires e.Heartbeat?
  {
    if |models| == 0 then []
    else
      var m := models[|models| - 1];
      CoverageFrom(e, v, models[..|models| - 1])
      + (if m.specialist in v.catalog then [(v.catalog[m.specialist], e.beat.node)] else [])
  }

  function BindingPairs(v: View): Event -> seq<(SpecialistId, Binding)> {
    (e: Event) => if e.Heartbeat? then BindingsFrom(e, v, e.beat.models) else []
  }

  function CoveragePairs(v: View): Event -> seq<(Domain, NodeId)> {
    (e: Event) => if e.Heartbeat? then CoverageFrom(e, v, e.beat.models) else []
  }

  function Summaries(d: Log, v: View): map<NodeId, Summary> {
    if |d| == 0 then map[]
    else
      var e := d[|d| - 1];
      if e.Heartbeat? then Summaries(d[..|d| - 1], v)[e.beat.node := SummaryOf(e, v)]
      else Summaries(d[..|d| - 1], v)
  }

  function SnapshotOf(d: Log, v: View): Snapshot {
    Snapshot(Summaries(d, v), Group(Flat(BindingPairs(v), d)), Group(Flat(CoveragePairs(v), d)))
  }

  /** Equal but for the order inside the lists. */
  ghost predicate SameSnapshot(a: Snapshot, b: Snapshot) {
    a.nodes == b.nodes && SameGroups(a.specialists, b.specialists) && SameGroups(a.coverage, b.coverage)
  }

  lemma {:induction false} FindIn(d: Log, e: Event)
    requires DistinctNodes(d) && e.Heartbeat?
    ensures e in d <==> Find(d, e.beat.node) == Some(e)
  {
    if |d| > 0 {
      DistinctTail(d);
      FindIn(d[1..], e);
      assert d == [d[0]] + d[1..];
    }
  }

  lemma {:induction false} DistinctMultiset(d: Log, e: Event)
    requires DistinctNodes(d)
    ensures multiset(d)[e] == if e in d then 1 else 0
  {
    if |d| > 0 {
      DistinctTail(d);
      DistinctMultiset(d[1..], e);
      assert d == [d[0]] + d[1..];
      assert d[0] !in d[1..];
    }
  }

  lemma SameFindsSameEvents(d: Log, e: Log)
    requires DistinctNodes(d) && DistinctNodes(e)
    requires forall n :: Find(d, n) == Find(e, n)
    ensures multiset(d) == multiset(e)
  {
    forall x ensures multiset(d)[x] == multiset(e)[x] {
      DistinctMultiset(d, x);
      DistinctMultiset(e, x);
      if x.Heartbeat? {
        FindIn(d, x);
        FindIn(e, x);
      }
    }
  }

  lemma {:induction false} SummariesFind(d: Log, v: View, n: NodeId)
    requires DistinctNodes(d)
    ensures n in Summaries(d, v) <==> exists i :: 0 <= i < |d| && d[i].beat.node == n
    ensures forall i :: 0 <= i < |d| && d[i].beat.node == n ==> n in Summaries(d, v) && Summaries(d, v)[n] == SummaryOf(d[i], v)
  {
    if |d| > 0 {
      var rest := d[..|d| - 1];
      SummariesFind(rest, v, n);
      forall i | 0 <= i < |d| && d[i].beat.node == n
        ensures n in Summaries(d, v) && Summaries(d, v)[n] == SummaryOf(d[i], v) {
        if i < |d| - 1 { assert rest[i] == d[i]; }
      }
      if n in Summaries(d, v) && d[|d| - 1].beat.node != n {
        var i :| 0 <= i < |rest| && rest[i].beat.node == n;
        assert d[i].beat.node == n;
      }
    }
  }

  /** A snapshot depends on the replayed events only up to their order. */
  lemma SnapshotOrder(d: Log, e: Log, v: View)
    requires DistinctNodes(d) && DistinctNodes(e) && multiset(d) == multiset(e)
    ensures SameSnapshot(SnapshotOf(d, v), SnapshotOf(e, v))
  {
    FlatOrder(BindingPairs(v), d, e);
    GroupOrder(Flat(BindingPairs(v), d), Flat(BindingPairs(v), e));
    FlatOrder(CoveragePairs(v), d, e);
    GroupOrder(Flat(CoveragePairs(v), d), Flat(CoveragePairs(v), e));
    forall n | n in Summaries(d, v) ensures n in Summaries(e, v) && Summaries(e, v)[n] == Summaries(d, v)[n] {
      SummariesSame(d, e, v, n);
    }
    forall n | n in Summaries(e, v) ensures n in Summaries(d, v) { SummariesSame(e, d, v, n); }
  }

  lemma SummariesSame(d: Log, e: Log, v: View, n: NodeId)
    requires DistinctNodes(d) && DistinctNodes(e) && multiset(d) == multiset(e) && n in Summaries(d, v)
    ensures n in Summaries(e, v) && Summaries(e, v)[n] == Summaries(d, v)[n]
  {
    SummariesFind(d, v, n);
    SummariesFind(e, v, n);
    var i :| 0 <= i < |d| && d[i].beat.node == n;
    assert d[i] in multiset(e);
    var j :| 0 <= j < |e| && e[j] == d[i];
  }

  // ----- what a snapshot shows -----

  /** A node that has not been heard for more than 300 seconds is unreachable, whatever it last said of itself. */
  predicate HealthShown(h: Health, e: Event, now: Time)
    requires e.Heartbeat?
  {
    h == if now - e.ts > 300.0 then Unreachable else e.beat.health
  }

  /** The url of the heartbeat, or else the one last known of the node, or else none. */
  predicate UrlShown(url: string, e: Event, v: View)
    requires e.Heartbeat?
  {
    if e.url != "" then url == e.url
    else if e.beat.node in v.urls then url == v.urls[e.beat.node]
    else url == ""
  }

  predicate SummaryShows(x: Summary, e: Event, v: View)
    requires e.Heartbeat?
  {
    && x.node == e.beat.node && x.friendlyName == e.beat.hardware.friendlyName && x.lastSeen == e.ts
    && x.queue == e.beat.queue && x.p95 == e.beat.p95 && HealthShown(x.health, e, v.now) && UrlShown(x.url, e, v)
    && |x.loaded| == |e.beat.models| && forall i :: 0 <= i < |x.loaded| ==> x.loaded[i] == e.beat.models[i].specialist
  }

  predicate BindingShows(b: Binding, e: Event, m: LoadedModel, v: View)
    requires e.Heartbeat?
  {
    && b.node == e.beat.node && b.specialist == m.specialist && b.lastSeen == e.ts && b.queue == e.beat.queue
    && b.p95 == e.beat.p95 && HealthShown(b.health, e, v.now)
    && (if m.url != "" then b.url == m.url else UrlShown(b.url, e, v))
  }

  lemma ShownOnce(e: Event, m: LoadedModel, v: View, x: Summary, b: Binding)
    requires e.Heartbeat?
    ensures SummaryShows(x, e, v) <==> x == SummaryOf(e, v)
    ensures BindingShows(b, e, m, v) <==> b == BindingOf(e, m, v)
  {
    if SummaryShows(x, e, v) { assert x.loaded == SummaryOf(e, v).loaded; }
  }

  /** The replayed heartbeats are the current ones. */
  lemma ReplayedIff(log: Log, e: Event)
    requires e.Heartbeat?
    ensures e in Latest(log) <==> Current(log, e.beat.node) == Some(e)
    ensures forall x :: x in Latest(log) ==> x.Heartbeat?
  {
    LatestIsCurrent(log, e.beat.node);
    FindIn(Latest(log), e);
  }

  /** The snapshot lists exactly the nodes that have a current heartbeat, and shows what that heartbeat says. */
  lemma NodesShown(log: Log, v: View, n: NodeId)
    ensures var nodes := SnapshotOf(Latest(log), v).nodes;
            && (n in nodes <==> Current(log, n).Some?)
            && (n in nodes ==> SummaryShows(nodes[n], Current(log, n).value, v))
  {
    var d := Latest(log);
    LatestIsCurrent(log, n);
    SummariesFind(d, v, n);
    if Current(log, n).Some? {
      var e := Current(log, n).value;
      ReplayedIff(log, e);
      var i :| 0 <= i < |d| && d[i] == e;
      ShownOnce(e, LoadedModel("", ""), v, SummaryOf(e, v), BindingOf(e, LoadedModel("", ""), v));
    }
    if n in Summaries(d, v) {
      var i :| 0 <= i < |d| && d[i].beat.node == n;
      assert d[i] in d;
      ReplayedIff(log, d[i]);
    }
  }

  lemma {:induction false} FlatIn<A, B>(f: A -> seq<B>, s: seq<A>, x: B)
    ensures x in Flat(f, s) <==> exists e :: e in s && x in f(e)
  {
    if |s| > 0 {
      var front, last := s[..|s| - 1], s[|s| - 1];
      assert s == front + [last];
      FlatIn(f, front, x);
    }
  }

  lemma {:induction false} BindingsFromIn(e: Event, v: View, models: seq<LoadedModel>, x: (SpecialistId, Binding))
    requires e.Heartbeat?
    ensures x in BindingsFrom(e, v, models) <==> exists m :: m in models && x == (m.specialist, BindingOf(e, m, v))
  {
    if |models| > 0 {
      var front, last := models[..|models| - 1], models[|models| - 1];
      assert models == front + [last];
      BindingsFromIn(e, v, front, x);
    }
  }

  lemma {:induction false} CoverageFromIn(e: Event, v: View, models: seq<LoadedModel>, x: (Domain, NodeId))
    requires e.Heartbeat?
    ensures x in CoverageFrom(e, v, models) <==>
              exists m :: m in models && m.specialist in v.catalog && x == (v.catalog[m.specialist], e.beat.node)
  {
    if |models| > 0 {
      var front, last := models[..|models| - 1], models[|models| - 1];
      assert models == front + [last];
      CoverageFromIn(e, v, front, x);
    }
  }

  lemma GroupIn<K, V>(pairs: seq<(K, V)>, k: K, x: V)
    ensures x in Values(Group(pairs), k) <==> (k, x) in pairs
  {
    GroupCounts(pairs, k, x);
    assert x in Values(Group(pairs), k) <==> x in multiset(Values(Group(pairs), k));
    assert (k, x) in pairs <==> (k, x) in multiset(pairs);
  }

  /** Binding `b` shows a model that a node currently loads for specialist `s`. */
  ghost predicate Loads(log: Log, v: View, s: SpecialistId, b: Binding) {
    exists e, m :: Current(log, b.node) == Some(e) && e.Heartbeat? && m in e.beat.models && m.specialist == s && BindingShows(b, e, m, v)
  }

  /** The bindings of a specialist are exactly those of the models that current heartbeats list for it. */
  lemma BindingsShown(log: Log, v: View, s: SpecialistId, b: Binding)
    ensures b in Values(SnapshotOf(Latest(log), v).specialists, s) <==> Loads(log, v, s, b)
  {
    var d, f := Latest(log), BindingPairs(v);
    GroupIn(Flat(f, d), s, b);
    FlatIn(f, d, (s, b));
    if (s, b) in Flat(f, d) {
      var e :| e in d && (s, b) in f(e);
      LatestIsCurrent(log, b.node);
      assert e.Heartbeat?;
      ReplayedIff(log, e);
      BindingsFromIn(e, v, e.beat.models, (s, b));
      var m :| m in e.beat.models && (s, b) == (m.specialist, BindingOf(e, m, v));
      ShownOnce(e, m, v, SummaryOf(e, v), b);
    }
    if Loads(log, v, s, b) {
      var e, m :| Current(log, b.node) == Some(e) && e.Heartbeat? && m in e.beat.models && m.specialist == s && BindingShows(b, e, m, v);
      ReplayedIff(log, e);
      ShownOnce(e, m, v, SummaryOf(e, v), b);
      BindingsFromIn(e, v, e.beat.models, (s, b));
      assert (s, b) in f(e);
    }
  }

  /** Node `n` currently loads a specialist that the catalog puts in domain `dom`. */
  ghost predicate Covers(log: Log, v: View, dom: Domain, n: NodeId) {
    Current(log, n).Some? && exists m :: m in Current(log, n).value.beat.models && m.specialist in v.catalog && v.catalog[m.specialist] == dom
  }

  /** A domain is covered by exactly the nodes that currently load a specialist of it. */
  lemma CoverageShown(log: Log, v: View, dom: Domain, n: NodeId)
    ensures n in Values(SnapshotOf(Latest(log), v).coverage, dom) <==> Covers(log, v, dom, n)
  {
    var d, f := Latest(log), CoveragePairs(v);
    GroupIn(Flat(f, d), dom, n);
    FlatIn(f, d, (dom, n));
    if (dom, n) in Flat(f, d) {
      var e :| e in d && (dom, n) in f(e);
      LatestIsCurrent(log, n);
      assert e.Heartbeat?;
      ReplayedIff(log, e);
      CoverageFromIn(e, v, e.beat.models, (dom, n));
    }
    if Covers(log, v, dom, n) {
      var e := Current(log, n).value;
      ReplayedIff(log, e);
      CoverageFromIn(e, v, e.beat.models, (dom, n));
      assert (dom, n) in f(e);
    }
  }
}
