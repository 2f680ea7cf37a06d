/** `run_allocator` of mesh/registry.py: the allocator on what the event log says of the nodes, and what compaction
    does to its result. */
module MeshAllocation {
  import opened Wrappers
  import opened Sorting
  import opened Scoring
  import opened Allocator
  import opened Placement
  import opened TieredPlacement
  import opened RegistryLog
  import opened Compaction
  import opened RegistryRuns
  import opened Registry

  /** What a run of the allocator is given besides the log. */
  datatype Input = Input(catalog: seq<Card>, traffic: seq<Share>, strategy: Strategy, tp: Throughput)

  function PlanOf(nodes: seq<Probe>, input: Input): Plan {
    Allocate(nodes, input.catalog, input.traffic, input.strategy, input.tp)
  }

  function PlanFor(log: Log, input: Input): Plan {
    PlanOf(Probes(Heard(log)), input)
  }

  function Specialists(plan: Plan): map<Scoring.NodeId, Option<string>> {
    map n | n in plan.at :: if plan.at[n].primary.Some? then Some(plan.at[n].primary.value.specialist) else None
  }

  /** The result: the specialist of each node, `None` for none. */
  function AllocationOf(log: Log, input: Input): map<Scoring.NodeId, Option<string>> {
    Specialists(PlanFor(log, input))
  }

  /** The payload of an allocation event. */
  type Encoder = (Strategy, map<Scoring.NodeId, Option<string>>) -> string

  /** Allocate and record the result as an event; when its append fails nothing is returned and the read model is left
      alone. */
  method RunAllocator(mesh: MeshRegistry, input: Input, ts: RegistryLog.Time, encode: Encoder, f: Fault)
    returns (result: Option<map<Scoring.NodeId, Option<string>>>)
    modifies mesh`durable, mesh`events, mesh`history
    ensures var allocation := AllocationOf(old(mesh.events), input);
            var step := NoteStep(old(mesh.Now()), mesh.settings, Note(ts, encode(input.strategy, allocation)), f);
            mesh.Now() == step.0 && result == if step.1.Acked? then Some(allocation) else None
  {
    var latest, nodes := mesh.LatestHardware();
    var plan := AllocateCluster(nodes, input.catalog, input.traffic, input.strategy, input.tp);
    var suggestions := Specialists(plan);
    var o := mesh.RecordEvent(Note(ts, encode(input.strategy, suggestions)), f);
    result := if o.Acked? then Some(suggestions) else None;
  }

  // ----- what compaction keeps -----

  /** Compaction keeps the result whenever it keeps the order of the allocator's input, which it does exactly when every
      node ever heard was already listed by its latest heartbeat. */
  lemma AllocationKept(log: Log, input: Input)
    requires ByLatestBeat(log, Heard(log))
    ensures PlanFor(Compact(log), input) == PlanFor(log, input)
  {
    HardwareOrderKeptIff(log);
  }

  lemma {:induction false} ProbesIn(heard: Log, p: Probe)
    ensures p in Probes(heard) <==> exists e :: e in heard && e.Heartbeat? && e.beat.hardware.probe == p
  {
    if |heard| > 0 {
      var front, last := heard[..|heard| - 1], heard[|heard| - 1];
      assert heard == front + [last];
      ProbesIn(front, p);
    }
  }

  lemma SameProbes(log: Log, p: Probe)
    ensures p in Probes(Heard(Compact(log))) <==> p in Probes(Heard(log))
  {
    var a, b := Heard(Compact(log)), Heard(log);
    CompactKeepsHeard(log);
    ProbesIn(a, p);
    ProbesIn(b, p);
    forall e ensures e in a <==> e in b {
      assert e in a <==> e in multiset(a);
      assert e in b <==> e in multiset(b);
    }
  }

  predicate Fitted(p: Probe, catalog: seq<Card>) {
    exists c :: c in catalog && Eligible(c, p)
  }

  /** The listings under one hardware id are all fitted or none is. Senders may share an id. */
  predicate FitAlike(nodes: seq<Probe>, catalog: seq<Card>, n: Scoring.NodeId) {
    forall p, q :: p in nodes && q in nodes && p.node == q.node == n ==> (Fitted(p, catalog) <==> Fitted(q, catalog))
  }

  predicate Lists(nodes: seq<Probe>, n: Scoring.NodeId) {
    exists p :: p in nodes && p.node == n
  }

  /** The plan gives the node a specialist. */
  predicate Serves(plan: Plan, n: Scoring.NodeId) {
    n in plan.at && plan.at[n].primary.Some?
  }

  lemma SettledServes(plan: Plan, nodes: seq<Probe>, catalog: seq<Card>, p: Probe)
    requires Settled(plan, nodes, catalog, p.node) && p in nodes && FitAlike(nodes, catalog, p.node)
    ensures p.node in plan.at && (Serves(plan, p.node) <==> Fitted(p, catalog))
  {
    ByIdIsNode(nodes, p.node);
    var last := ById(nodes, p.node).value;
    assert last in nodes && last.node == p.node;
    if Serves(plan, p.node) {
      var c := plan.at[p.node].primary.value;
      assert CanHost(nodes, p.node, c);
      var q :| q in nodes && q.node == p.node && Eligible(c, q);
      assert Fitted(q, catalog);
    }
  }

  lemma ServedIff(nodes: seq<Probe>, input: Input, p: Probe)
    requires p in nodes && FitAlike(nodes, input.catalog, p.node)
    ensures p.node in PlanOf(nodes, input).at
    ensures Serves(PlanOf(nodes, input), p.node) <==> Fitted(p, input.catalog)
  {
    EveryNodeIsAnswered(nodes, input.catalog, input.traffic, input.strategy, input.tp, p.node);
    SettledServes(PlanOf(nodes, input), nodes, input.catalog, p);
  }

  /** Under an id whose listings agree on whether some card fits, compaction never changes whether the node gets a
      specialist. */
  lemma SameNodesServed(log: Log, input: Input, p: Probe)
    requires p in Probes(Heard(log)) && FitAlike(Probes(Heard(log)), input.catalog, p.node)
    ensures p.node in AllocationOf(log, input) && p.node in AllocationOf(Compact(log), input)
    ensures AllocationOf(log, input)[p.node].Some? <==> AllocationOf(Compact(log), input)[p.node].Some?
    ensures AllocationOf(log, input)[p.node].Some? <==> Fitted(p, input.catalog)
  {
    SameProbes(log, p);
    ServedIff(Probes(Heard(log)), input, p);
    forall q | q in Probes(Heard(Compact(log))) ensures q in Probes(Heard(log)) { SameProbes(log, q); }
    ServedIff(Probes(Heard(Compact(log))), input, p);
  }

  /** best_per_machine goes by the last listing under an id. */
  lemma LastListingDecides(nodes: seq<Probe>, input: Input, n: Scoring.NodeId)
    requires input.strategy == BestPerMachine && Lists(nodes, n)
    ensures ById(nodes, n).Some?
    ensures Serves(PlanOf(nodes, input), n) <==> Fitted(ById(nodes, n).value, input.catalog)
  {
    ByIdIsNode(nodes, n);
    FillAnswers(Start(nodes), nodes, input.catalog, input.tp, n);
  }

  lemma MovedLast(nodes: seq<Probe>, p: Probe) returns (moved: seq<Probe>)
    requires p in nodes
    ensures multiset(moved) == multiset(nodes) && ById(moved, p.node) == Some(p)
  {
    var i :| 0 <= i < |nodes| && nodes[i] == p;
    var rest := nodes[..i] + nodes[i + 1..];
    moved := rest + [p];
    assert nodes == nodes[..i] + [p] + nodes[i + 1..];
    assert moved[|moved| - 1] == p;
  }

  /** In every order of the list and under every strategy the node gets a specialist as it does here. */
  ghost predicate OrderFree(nodes: seq<Probe>, input: Input, n: Scoring.NodeId) {
    forall other, strategy :: SamePlanFor(nodes, other, input, strategy, n)
  }

  ghost predicate SamePlanFor(nodes: seq<Probe>, other: seq<Probe>, input: Input, strategy: Strategy, n: Scoring.NodeId) {
    var under := input.(strategy := strategy);
    multiset(other) == multiset(nodes) ==> (Serves(PlanOf(other, under), n) <==> Serves(PlanOf(nodes, under), n))
  }

  lemma SameMembers(nodes: seq<Probe>, other: seq<Probe>, p: Probe)
    requires multiset(other) == multiset(nodes)
    ensures p in other <==> p in nodes
  {
    assert p in other <==> p in multiset(other);
    assert p in nodes <==> p in multiset(nodes);
  }

  lemma AlikeInAnyOrder(nodes: seq<Probe>, other: seq<Probe>, input: Input, n: Scoring.NodeId)
    requires Lists(nodes, n) && FitAlike(nodes, input.catalog, n) && multiset(other) == multiset(nodes)
    ensures Serves(PlanOf(other, input), n) <==> Serves(PlanOf(nodes, input), n)
  {
    var p :| p in nodes && p.node == n;
    forall q | q in other || q in nodes ensures q in other && q in nodes { SameMembers(nodes, other, q); }
    ServedIff(nodes, input, p);
    ServedIff(other, input, p);
  }

  /** Whether a node gets a specialist is independent of the order of the list exactly when the listings under its id are
      all fitted by some card or none is. */
  lemma OrderFreeIff(nodes: seq<Probe>, input: Input, n: Scoring.NodeId)
    requires Lists(nodes, n)
    ensures OrderFree(nodes, input, n) <==> FitAlike(nodes, input.catalog, n)
  {
    if FitAlike(nodes, input.catalog, n) {
      forall other, strategy ensures SamePlanFor(nodes, other, input, strategy, n) {
        if multiset(other) == multiset(nodes) { AlikeInAnyOrder(nodes, other, input.(strategy := strategy), n); }
      }
    }
    if OrderFree(nodes, input, n) {
      forall p, q | p in nodes && q in nodes && p.node == q.node == n
        ensures Fitted(p, input.catalog) <==> Fitted(q, input.catalog)
      {
        ServedAsLast(nodes, input, p);
        ServedAsLast(nodes, input, q);
      }
    }
  }

  lemma ServedAsLast(nodes: seq<Probe>, input: Input, p: Probe)
    requires p in nodes && OrderFree(nodes, input, p.node)
    ensures Serves(PlanOf(nodes, input.(strategy := BestPerMachine)), p.node) <==> Fitted(p, input.catalog)
  {
    var moved := MovedLast(nodes, p);
    SameMembers(nodes, moved, p);
    LastListingDecides(moved, input.(strategy := BestPerMachine), p.node);
    assert SamePlanFor(nodes, moved, input, BestPerMachine, p.node);
  }

  // ----- what compaction may change -----

  /** Two machines that differ in nothing but the name, and two tier-1 cards that differ in nothing but what they are
      for: the first machine in the list gets the first card. */
  ghost predicate Twins(p: Probe, q: Probe, x: Card, y: Card, tp: Throughput) {
    && p.node != q.node && q == p.(node := q.node) && Eligible(x, p)
    && y == x.(specialist := y.specialist, domain := y.domain)
    && x.domain != y.domain && x.domain in TIER_1 && y.domain in TIER_1
    && tp(x, p) == tp(y, p) == tp(x, q) == tp(y, q)
  }

  lemma TwinsSwap(p: Probe, q: Probe, x: Card, y: Card, tp: Throughput)
    requires Twins(p, q, x, y, tp)
    ensures Twins(q, p, x, y, tp)
  {}

  lemma RankTwo(p: Probe, x: Card, y: Card, cov: Coverage, tp: Throughput)
    ensures var a, b := Scored(Score(x, p, cov, tp), x), Scored(Score(y, p, cov, tp), y);
            Rank(p, [x, y], cov, tp) == if Beats(b.score, a.score) then [b, a] else [a, b]
  {
    var a, b := Scored(Score(x, p, cov, tp), x), Scored(Score(y, p, cov, tp), y);
    var s := Scores(p, [x, y], cov, tp);
    assert s == [a, b] && s[1..] == [b] && [b][1..] == [];
    assert Sort(NotBeaten(), []) == [] && Insert(NotBeaten(), b, []) == [b] && Insert(NotBeaten(), a, []) == [a];
    assert Sort(NotBeaten(), [b]) == [b];
    assert Sort(NotBeaten(), s) == Insert(NotBeaten(), a, [b]);
    assert Insert(NotBeaten(), a, [b]) == if Beats(b.score, a.score) then [b] + [a] else [a] + [b];
  }

  /** On an empty cluster both cards score the same on both machines. */
  lemma TwinScores(p: Probe, q: Probe, x: Card, y: Card, tp: Throughput)
    requires Twins(p, q, x, y, tp)
    ensures Score(x, p, map[], tp).Some? && Score(x, p, map[], tp) == Score(y, p, map[], tp)
            == Score(x, q, map[], tp) == Score(y, q, map[], tp)
  {
    FiniteIffEligible(x, p, map[], tp);
  }

  lemma FirstPick(p: Probe, q: Probe, x: Card, y: Card, tp: Throughput)
    requires Twins(p, q, x, y, tp)
    ensures Best([p, q], [x, y], map[], tp, {x.domain, y.domain}) == Some(Pick(Score(x, p, map[], tp).value, p, x))
  {
    var open := {x.domain, y.domain};
    TwinScores(p, q, x, y, tp);
    RankTwo(p, x, y, map[], tp);
    RankTwo(q, x, y, map[], tp);
    assert [p, q][..1] == [p] && [p][..0] == [] && Best([], [x, y], map[], tp, open).None?;
    var sx := Score(x, p, map[], tp);
    assert Top(Rank(p, [x, y], map[], tp), open) == Some(Scored(sx, x));
    assert Best([p], [x, y], map[], tp, open) == Some(Pick(sx.value, p, x));
    assert Top(Rank(q, [x, y], map[], tp), open) == Some(Scored(sx, x));
  }

  lemma SecondPick(p: Probe, q: Probe, x: Card, y: Card, cov: Coverage, tp: Throughput)
    requires Twins(p, q, x, y, tp)
    ensures Best([q], [x, y], cov, tp, {y.domain}).Some?
    ensures Best([q], [x, y], cov, tp, {y.domain}).value.probe == q && Best([q], [x, y], cov, tp, {y.domain}).value.card == y
  {
    FiniteIffEligible(y, q, cov, tp);
    RankTwo(q, x, y, cov, tp);
    assert [q][..0] == [] && Best([], [x, y], cov, tp, {y.domain}).None?;
    var r, b := Rank(q, [x, y], cov, tp), Scored(Score(y, q, cov, tp), y);
    assert Top([b], {y.domain}) == Some(b);
    assert r == [b] + r[1..] || r[1..] == [b];
  }

  lemma TierOfTwins(x: Card, y: Card)
    requires x.domain in TIER_1 && y.domain in TIER_1
    ensures OfTier([x, y], 1) == [x, y] && OfTier([x, y], 2) == []
  {
    assert [x, y][1..] == [y] && [y][1..] == [];
    assert Tier(x.domain) == 1 && Tier(y.domain) == 1;
    assert OfTier([y], 1) == [y] + OfTier([], 1) && OfTier([y], 2) == [] + OfTier([], 2);
    assert OfTier([x, y], 1) == [x] + [y] && OfTier([x, y], 2) == [] + OfTier([y], 2);
  }

  /** Both twins are placed, `p` with `x` and `q` with `y`, and nothing is left to do. */
  predicate PlacedAs(s: Allocator.State, p: Probe, q: Probe, x: Card, y: Card) {
    && |s.remaining| == 0 && s.plan.at.Keys == {p.node, q.node} && s.cov.Keys == {x.domain, y.domain}
    && s.plan.at[p.node].primary == Some(x) && s.plan.at[q.node].primary == Some(y)
  }

  predicate HalfPlaced(s: Allocator.State, p: Probe, q: Probe, x: Card) {
    s.remaining == [q] && s.plan.at.Keys == {p.node} && s.plan.at[p.node].primary == Some(x) && s.cov.Keys == {x.domain}
  }

  lemma PlaceFirst(p: Probe, q: Probe, x: Card, y: Card, tp: Throughput, first: Pick)
    requires p.node != q.node && first.probe == p && first.card == x
    ensures var s := Place(Start([p, q]), first, [x, y], tp);
            HalfPlaced(s, p, q, x)
  {
    assert [p, q][1..] == [q] && [q][1..] == [];
    assert Except([q], p.node) == [q] + Except([], p.node);
    assert Except([p, q], p.node) == [] + [q];
  }

  lemma PlaceSecond(s: Allocator.State, p: Probe, q: Probe, x: Card, y: Card, tp: Throughput, second: Pick)
    requires p.node != q.node && second.probe == q && second.card == y
    requires HalfPlaced(s, p, q, x)
    ensures PlacedAs(Place(s, second, [x, y], tp), p, q, x, y)
  {
    assert [q][1..] == [];
    assert Except([q], q.node) == [] + Except([], q.node);
  }

  lemma CoverSecond(s: Allocator.State, p: Probe, q: Probe, x: Card, y: Card, tp: Throughput)
    requires Twins(p, q, x, y, tp) && HalfPlaced(s, p, q, x)
    ensures PlacedAs(Cover(s, [x, y], {y.domain}, [x, y], tp), p, q, x, y)
  {
    var cards := [x, y];
    SecondPick(p, q, x, y, s.cov, tp);
    var second := Best([q], cards, s.cov, tp, {y.domain}).value;
    CoverStep(s, cards, {y.domain}, cards, tp, second);
    PlaceSecond(s, p, q, x, y, tp, second);
    NobodyLeft(Place(s, second, cards, tp), cards, {y.domain} - {second.card.domain}, cards, tp);
  }

  lemma CoverTwins(p: Probe, q: Probe, x: Card, y: Card, tp: Throughput)
    requires Twins(p, q, x, y, tp)
    ensures PlacedAs(Cover(Start([p, q]), [x, y], {x.domain, y.domain}, [x, y], tp), p, q, x, y)
  {
    var open := {x.domain, y.domain};
    FirstPick(p, q, x, y, tp);
    var first := Pick(Score(x, p, map[], tp).value, p, x);
    CoverStep(Start([p, q]), [x, y], open, [x, y], tp, first);
    PlaceFirst(p, q, x, y, tp, first);
    assert open - {x.domain} == {y.domain};
    CoverSecond(Place(Start([p, q]), first, [x, y], tp), p, q, x, y, tp);
  }

  lemma NobodyLeft(s: Allocator.State, cards: seq<Card>, uncovered: set<Domain>, catalog: seq<Card>, tp: Throughput)
    requires |s.remaining| == 0
    ensures Cover(s, cards, uncovered, catalog, tp) == s
  {}

  lemma TiersOfTwins(p: Probe, q: Probe, x: Card, y: Card, tp: Throughput)
    requires x.domain in TIER_1 && y.domain in TIER_1
    requires PlacedAs(Cover(Start([p, q]), [x, y], {x.domain, y.domain}, [x, y], tp), p, q, x, y)
    ensures PlacedAs(Tiers([p, q], [x, y], [], tp), p, q, x, y)
  {
    var cards, s0 := [x, y], Start([p, q]);
    TierOfTwins(x, y);
    assert Domains(cards) - s0.cov.Keys == {x.domain, y.domain};
    var s1 := FillTier(s0, cards, cards, tp);
    NobodyLeft(s1, [], Domains([]) - s1.cov.Keys, cards, tp);
    assert Hot([]) == {};
  }

  /** A node gets no secondary when no domain is open. */
  lemma {:induction false} NoneToAttach(s: Allocator.State, nodes: seq<Probe>, todo: seq<Scoring.NodeId>, copy: map<Scoring.NodeId, Suggestion>,
                                        catalog: seq<Card>, tp: Throughput)
    requires forall n :: n in todo ==> n in copy
    requires forall c :: c in catalog ==> c.domain in s.cov
    ensures Attach(s, nodes, todo, copy, catalog, tp) == s
    decreases |todo|
  {
    if |todo| > 0 {
      var n, g := todo[0], copy[todo[0]];
      SecondMayJoin(nodes, n, g, s.cov, catalog, tp);
      assert AttachOne(s, nodes, n, g, catalog, tp) == s;
      NoneToAttach(s, nodes, todo[1..], copy, catalog, tp);
    }
  }

  /** With nobody left and no domain open, the tiers' plan is the plan. */
  lemma NothingLeftToDo(nodes: seq<Probe>, cards: seq<Card>, tp: Throughput)
    requires var s := Tiers(nodes, cards, [], tp);
             |s.remaining| == 0 && (forall c :: c in cards ==> c.domain in s.cov) && forall p :: p in nodes ==> p.node in s.plan.at
    ensures Allocate(nodes, cards, [], Tiered, tp) == Tiers(nodes, cards, [], tp).plan
  {
    var s := Tiers(nodes, cards, [], tp);
    TiersMatch(nodes, cards, [], tp);
    NoneToAttach(s, nodes, s.plan.order, s.plan.at, cards, tp);
    assert Seconded(nodes, cards, [], tp) == s;
    assert Promote(s, s.remaining, Heavy([]), cards, tp) == s;
    NothingToAdd(s.plan, nodes);
  }

  /** The tiered strategy gives the first listed of two twins the first card. */
  lemma FirstTwinFirstCard(p: Probe, q: Probe, x: Card, y: Card, tp: Throughput)
    requires Twins(p, q, x, y, tp)
    ensures Specialists(Allocate([p, q], [x, y], [], Tiered, tp))
            == map[p.node := Some(x.specialist), q.node := Some(y.specialist)]
  {
    CoverTwins(p, q, x, y, tp);
    TiersOfTwins(p, q, x, y, tp);
    PlanOfTwins(p, q, x, y, tp);
  }

  lemma PlanOfTwins(p: Probe, q: Probe, x: Card, y: Card, tp: Throughput)
    requires p.node != q.node && PlacedAs(Tiers([p, q], [x, y], [], tp), p, q, x, y)
    ensures Specialists(Allocate([p, q], [x, y], [], Tiered, tp))
            == map[p.node := Some(x.specialist), q.node := Some(y.specialist)]
  {
    NothingLeftToDo([p, q], [x, y], tp);
    SpecialistsAre(Tiers([p, q], [x, y], [], tp), p, q, x, y);
  }

  lemma SpecialistsAre(s: Allocator.State, p: Probe, q: Probe, x: Card, y: Card)
    requires p.node != q.node && PlacedAs(s, p, q, x, y)
    ensures Specialists(s.plan) == map[p.node := Some(x.specialist), q.node := Some(y.specialist)]
  {}

  /** Compaction can change the allocation, against the comment: of two equal machines the one that joined first, but
      was heard last, loses its card to the other. */
  lemma CompactionCanChangeAllocation(a: Event, b: Event, a': Event, x: Card, y: Card, tp: Throughput)
    requires a.Heartbeat? && b.Heartbeat? && a'.Heartbeat? && a.beat.node == a'.beat.node != b.beat.node
    requires Twins(a'.beat.hardware.probe, b.beat.hardware.probe, x, y, tp) && x.specialist != y.specialist
    ensures var log, input := [a, b, a'], Input([x, y], [], Tiered, tp);
            var p, q := a'.beat.hardware.probe.node, b.beat.hardware.probe.node;
            && AllocationOf(log, input) == map[p := Some(x.specialist), q := Some(y.specialist)]
            && AllocationOf(Compact(log), input) == map[p := Some(y.specialist), q := Some(x.specialist)]
            && AllocationOf(Compact(log), input) != AllocationOf(log, input)
  {
    var p, q := a'.beat.hardware.probe, b.beat.hardware.probe;
    HeardSwaps(a, b, a');
    TwinsSwap(p, q, x, y, tp);
    AllocationOfTwins([a, b, a'], p, q, x, y, tp);
    AllocationOfTwins(Compact([a, b, a']), q, p, x, y, tp);
    MapsDiffer(p.node, q.node, x.specialist, y.specialist);
  }

  lemma MapsDiffer(p: Scoring.NodeId, q: Scoring.NodeId, x: string, y: string)
    requires p != q && x != y
    ensures map[q := Some(x), p := Some(y)] == map[p := Some(y), q := Some(x)] != map[p := Some(x), q := Some(y)]
  {
    assert map[p := Some(y), q := Some(x)][p] != map[p := Some(x), q := Some(y)][p];
  }

  lemma AllocationOfTwins(log: Log, p: Probe, q: Probe, x: Card, y: Card, tp: Throughput)
    requires Twins(p, q, x, y, tp) && Probes(Heard(log)) == [p, q]
    ensures AllocationOf(log, Input([x, y], [], Tiered, tp)) == map[p.node := Some(x.specialist), q.node := Some(y.specialist)]
  {
    FirstTwinFirstCard(p, q, x, y, tp);
  }

  /** The allocator's input of that log, before and after. */
  lemma HeardSwaps(a: Event, b: Event, a': Event)
    requires a.Heartbeat? && b.Heartbeat? && a'.Heartbeat? && a.beat.node == a'.beat.node != b.beat.node
    ensures Probes(Heard([a, b, a'])) == [a'.beat.hardware.probe, b.beat.hardware.probe]
    ensures Probes(Heard(Compact([a, b, a']))) == [b.beat.hardware.probe, a'.beat.hardware.probe]
  {
    var log := [a, b, a'];
    OrderCanChange(a, b, a');
    OnlyHeartbeats(a, b, a');
    CompactKeepsOthers(log);
    AllBeats(log);
    AllBeats(Compact(log));
    ProbesOfTwo(a', b);
    ProbesOfTwo(b, a');
  }

  /** The condition is needed: when two senders share a hardware id and only the one heard last before compaction reports a
      machine that a card fits, compaction gives that id a specialist it did not have. */
  lemma CompactionCanServeAnother(a: Event, b: Event, a': Event, catalog: seq<Card>, traffic: seq<Share>, tp: Throughput)
    requires a.Heartbeat? && b.Heartbeat? && a'.Heartbeat? && a.beat.node == a'.beat.node != b.beat.node
    requires a'.beat.hardware.probe.node == b.beat.hardware.probe.node
    requires Fitted(a'.beat.hardware.probe, catalog) && !Fitted(b.beat.hardware.probe, catalog)
    ensures var log, input, n := [a, b, a'], Input(catalog, traffic, BestPerMachine, tp), b.beat.hardware.probe.node;
            && n in AllocationOf(log, input) && AllocationOf(log, input)[n].None?
            && n in AllocationOf(Compact(log), input) && AllocationOf(Compact(log), input)[n].Some?
  {
    var p, q := a'.beat.hardware.probe, b.beat.hardware.probe;
    var input := Input(catalog, traffic, BestPerMachine, tp);
    HeardSwaps(a, b, a');
    LastOfTwo(p, q, input);
    LastOfTwo(q, p, input);
  }

  lemma LastOfTwo(p: Probe, q: Probe, input: Input)
    requires input.strategy == BestPerMachine && p.node == q.node
    ensures q.node in PlanOf([p, q], input).at
    ensures Serves(PlanOf([p, q], input), q.node) <==> Fitted(q, input.catalog)
  {
    assert q in [p, q];
    EveryNodeIsAnswered([p, q], input.catalog, input.traffic, input.strategy, input.tp, q.node);
    LastListingDecides([p, q], input, q.node);
  }

  lemma OnlyHeartbeats(a: Event, b: Event, c: Event)
    requires a.Heartbeat? && b.Heartbeat? && c.Heartbeat?
    ensures OtherEvents([a, b, c]) == []
  {
    assert [a, b, c][1..] == [b, c] && [b, c][1..] == [c] && [c][1..] == [];
    assert OtherEvents([]) == [];
    assert OtherEvents([c]) == [];
    assert OtherEvents([b, c]) == OtherEvents([c]);
  }

  lemma AllBeats(log: Log)
    requires |OtherEvents(log)| == 0
    ensures Heard(log) == Latest(log)
  {
    HeardIsReplay(log);
    OnlyBeats(log);
  }

  lemma {:induction false} OnlyBeats(log: Log)
    requires |OtherEvents(log)| == 0
    ensures Heartbeats(log) == log
  {
    if |log| > 0 { OnlyBeats(log[1..]); }
  }

  lemma ProbesOfTwo(a: Event, b: Event)
    requires a.Heartbeat? && b.Heartbeat?
    ensures Probes([a, b]) == [a.beat.hardware.probe, b.beat.hardware.probe]
  {
    assert [a, b][..1] == [a] && [a][..0] == [];
    assert Probes([a]) == [a.beat.hardware.probe];
  }
}
