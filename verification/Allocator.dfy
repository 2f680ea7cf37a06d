/** Placement of specialists on nodes (mesh/allocator.py).

    `Plan` is the suggestions dict with its insertion order; rationale strings are left out. */
module Allocator {
  import opened Wrappers
  import opened Scoring

  datatype Suggestion = Suggestion(primary: Option<Card>, secondaries: seq<Card>, alternates: seq<Card>,
                                   fit: Option<real>)
  datatype Plan = Plan(order: seq<NodeId>, at: map<NodeId, Suggestion>)
  datatype State = State(plan: Plan, cov: Coverage, remaining: seq<Probe>)
  datatype Strategy = BestPerMachine | FullSet | Tiered
  datatype Share = Share(domain: Domain, share: real)

  const NO_FIT := Suggestion(None, [], [], None)
  const TIER_1 := {"math", "code", "general", "reasoning"}
  const TIER_3 := {"vision", "embeddings", "image_gen", "whisper"}
  const TIER_2 := {"multilingual", "tool_use", "summarization"}

  function Put(plan: Plan, n: NodeId, s: Suggestion): Plan {
    Plan(if n in plan.at then plan.order else plan.order + [n], plan.at[n := s])
  }

  function AddHost(cov: Coverage, d: Domain, n: NodeId): Coverage {
    cov[d := (if d in cov then cov[d] else {}) + {n}]
  }

  function Domains(cards: seq<Card>): set<Domain> {
    set c | c in cards :: c.domain
  }

  function Finite(ranked: seq<Scored>): seq<Card> {
    if |ranked| == 0 then []
    else (if ranked[0].score.Some? then [ranked[0].card] else []) + Finite(ranked[1..])
  }

  function Others(cards: seq<Card>, specialist: string): seq<Card> {
    if |cards| == 0 then []
    else (if cards[0].specialist != specialist then [cards[0]] else []) + Others(cards[1..], specialist)
  }

  // ----- greedy covering: the loop of full_set and of every tier -----

  datatype Pick = Pick(score: real, probe: Probe, card: Card)

  predicate Usable(r: Scored, uncovered: set<Domain>) { r.card.domain in uncovered && r.score.Some? }

  /** First usable entry of a ranking. */
  function Top(ranked: seq<Scored>, uncovered: set<Domain>): (r: Option<Scored>)
    ensures r.Some? ==> Usable(r.value, uncovered)
  {
    if |ranked| == 0 then None
    else if Usable(ranked[0], uncovered) then Some(ranked[0])
    else Top(ranked[1..], uncovered)
  }

  /** The best such entry over the remaining nodes, the first node on a tie. */
  function Best(remaining: seq<Probe>, cards: seq<Card>, cov: Coverage, tp: Throughput, uncovered: set<Domain>)
    : (r: Option<Pick>)
    ensures r.Some? ==> r.value.probe in remaining
  {
    if |remaining| == 0 then None
    else
      var last := remaining[|remaining| - 1];
      var before := Best(remaining[..|remaining| - 1], cards, cov, tp, uncovered);
      var top := Top(Rank(last, cards, cov, tp), uncovered);
      if top.Some? && (before.None? || top.value.score.value > before.value.score)
      then Some(Pick(top.value.score.value, last, top.value.card))
      else before
  }

  function Except(remaining: seq<Probe>, n: NodeId): (r: seq<Probe>)
    ensures |r| <= |remaining|
    ensures (exists p :: p in remaining && p.node == n) ==> |r| < |remaining|
  {
    if |remaining| == 0 then []
    else
      assert remaining == [remaining[0]] + remaining[1..];
      (if remaining[0].node != n then [remaining[0]] else []) + Except(remaining[1..], n)
  }

  function Place(s: State, pick: Pick, catalog: seq<Card>, tp: Throughput): State {
    var cov := AddHost(s.cov, pick.card.domain, pick.probe.node);
    var alternates := Others(Finite(Rank(pick.probe, catalog, cov, tp)), pick.card.specialist);
    var suggestion := Suggestion(Some(pick.card), [], Take(alternates, 3), Some(pick.score));
    State(Put(s.plan, pick.probe.node, suggestion), cov, Except(s.remaining, pick.probe.node))
  }

  function Cover(s: State, cards: seq<Card>, uncovered: set<Domain>, catalog: seq<Card>, tp: Throughput): State
    decreases |s.remaining|
  {
    if |s.remaining| == 0 || |uncovered| == 0 then s
    else
      var best := Best(s.remaining, cards, s.cov, tp, uncovered);
      if best.None? then s
      else Cover(Place(s, best.value, catalog, tp), cards, uncovered - {best.value.card.domain}, catalog, tp)
  }

  // ----- best_per_machine, also the fill phase of full_set -----

  function FillOne(s: State, p: Probe, catalog: seq<Card>, tp: Throughput): State {
    var ranked := Rank(p, catalog, s.cov, tp);
    if |ranked| == 0 || ranked[0].score.None? then s.(plan := Put(s.plan, p.node, NO_FIT))
    else
      var card := ranked[0].card;
      s.(plan := Put(s.plan, p.node, Suggestion(Some(card), [], Take(Finite(ranked[1..]), 3), ranked[0].score)),
         cov := AddHost(s.cov, card.domain, p.node))
  }

  function Fill(s: State, todo: seq<Probe>, catalog: seq<Card>, tp: Throughput): State
    decreases |todo|
  {
    if |todo| == 0 then s else Fill(FillOne(s, todo[0], catalog, tp), todo[1..], catalog, tp)
  }

  // ----- tiered -----

  function Tier(d: Domain): int {
    if d in TIER_1 then 1 else if d in TIER_2 then 2 else if d in TIER_3 then 3 else 2
  }

  function OfTier(cards: seq<Card>, tier: int): seq<Card> {
    if |cards| == 0 then []
    else (if Tier(cards[0].domain) == tier then [cards[0]] else []) + OfTier(cards[1..], tier)
  }

  function Within(cards: seq<Card>, domains: set<Domain>): seq<Card> {
    if |cards| == 0 then []
    else (if cards[0].domain in domains then [cards[0]] else []) + Within(cards[1..], domains)
  }

  function Hot(traffic: seq<Share>): set<Domain> {
    set t | t in traffic && t.share >= 0.05 :: t.domain
  }

  function FillTier(s: State, cards: seq<Card>, catalog: seq<Card>, tp: Throughput): State {
    Cover(s, cards, Domains(cards) - s.cov.Keys, catalog, tp)
  }

  function FillTiers(s: State, catalog: seq<Card>, traffic: seq<Share>, tp: Throughput): State {
    var two := FillTier(FillTier(s, OfTier(catalog, 1), catalog, tp), OfTier(catalog, 2), catalog, tp);
    if |Hot(traffic)| == 0 then two
    else FillTier(two, Within(OfTier(catalog, 3), Hot(traffic) * TIER_3), catalog, tp)
  }

  /** The probe a node id stands for: the last one listed. */
  function ById(nodes: seq<Probe>, n: NodeId): Option<Probe> {
    if |nodes| == 0 then None
    else if nodes[|nodes| - 1].node == n then Some(nodes[|nodes| - 1])
    else ById(nodes[..|nodes| - 1], n)
  }

  predicate Candidate(c: Card, primary: Card, room: real, cov: Coverage) {
    && c.domain in TIER_1 + TIER_2
    && c.domain !in cov
    && c.specialist != primary.specialist
    && c.runtime <= room
  }

  function Candidates(cards: seq<Card>, primary: Card, room: real, cov: Coverage): seq<Card> {
    if |cards| == 0 then []
    else (if Candidate(cards[0], primary, room, cov) then [cards[0]] else [])
         + Candidates(cards[1..], primary, room, cov)
  }

  /** The primary takes at most half of the node's memory, so a second specialist may move in. */
  predicate HasRoom(primary: Card, p: Probe) {
    var memory := EffectiveVram(p);
    memory > 0.0 && primary.runtime / memory <= 0.5
  }

  /** The secondary `_fill_secondaries` would attach to a suggestion under this coverage. */
  function Second(nodes: seq<Probe>, n: NodeId, g: Suggestion, cov: Coverage, catalog: seq<Card>, tp: Throughput)
    : Option<Card>
  {
    if g.primary.None? then None
    else
      var probe := ById(nodes, n);
      if probe.None? || !HasRoom(g.primary.value, probe.value) then None
      else
        var room := EffectiveVram(probe.value) - g.primary.value.runtime;
        var ranked := Rank(probe.value, Candidates(catalog, g.primary.value, room, cov), cov, tp);
        if |ranked| == 0 || ranked[0].score.None? then None else Some(ranked[0].card)
  }

  function AttachOne(s: State, nodes: seq<Probe>, n: NodeId, g: Suggestion, catalog: seq<Card>, tp: Throughput): State {
    var second := Second(nodes, n, g, s.cov, catalog, tp);
    if second.None? then s
    else s.(plan := Put(s.plan, n, g.(secondaries := [second.value])), cov := AddHost(s.cov, second.value.domain, n))
  }

  /** Over a copy of the suggestions taken at the start. */
  function Attach(s: State, nodes: seq<Probe>, todo: seq<NodeId>, copy: map<NodeId, Suggestion>,
                  catalog: seq<Card>, tp: Throughput): State
    requires forall n :: n in todo ==> n in copy
    decreases |todo|
  {
    if |todo| == 0 then s
    else Attach(AttachOne(s, nodes, todo[0], copy[todo[0]], catalog, tp), nodes, todo[1..], copy, catalog, tp)
  }

  /** The first domain with the largest share, "general" without traffic. */
  function Heaviest(traffic: seq<Share>): Share
    requires |traffic| > 0
  {
    var last := traffic[|traffic| - 1];
    if |traffic| == 1 then last
    else
      var before := Heaviest(traffic[..|traffic| - 1]);
      if last.share > before.share then last else before
  }

  function Heavy(traffic: seq<Share>): Domain {
    if |traffic| == 0 then "general" else Heaviest(traffic).domain
  }

  function Chosen(ranked: seq<Scored>, heavy: Domain): Option<Scored> {
    var preferred := Top(ranked, {heavy});
    if preferred.Some? then preferred
    else if |ranked| > 0 && ranked[0].score.Some? then Some(ranked[0])
    else None
  }

  function PromoteOne(s: State, p: Probe, heavy: Domain, catalog: seq<Card>, tp: Throughput): State {
    var ranked := Rank(p, catalog, s.cov, tp);
    var chosen := Chosen(ranked, heavy);
    if chosen.None? then s.(plan := Put(s.plan, p.node, NO_FIT))
    else
      var card := chosen.value.card;
      var alternates := Others(Finite(ranked), card.specialist);
      s.(plan := Put(s.plan, p.node, Suggestion(Some(card), [], Take(alternates, 3), chosen.value.score)),
         cov := AddHost(s.cov, card.domain, p.node))
  }

  function Promote(s: State, todo: seq<Probe>, heavy: Domain, catalog: seq<Card>, tp: Throughput): State
    decreases |todo|
  {
    if |todo| == 0 then s
    else Promote(PromoteOne(s, todo[0], heavy, catalog, tp), todo[1..], heavy, catalog, tp)
  }

  function NoFit(plan: Plan, todo: seq<Probe>): Plan
    decreases |todo|
  {
    if |todo| == 0 then plan
    else NoFit(if todo[0].node in plan.at then plan else Put(plan, todo[0].node, NO_FIT), todo[1..])
  }

  // ----- the methods -----

  method TopUncovered(p: Probe, cards: seq<Card>, cov: Coverage, tp: Throughput, uncovered: set<Domain>)
    returns (r: Option<Scored>)
    ensures r == Top(Rank(p, cards, cov, tp), uncovered)
  {
    var ranked := Rank(p, cards, cov, tp);
    for i := 0 to |ranked|
      invariant Top(ranked[i..], uncovered) == Top(ranked, uncovered)
    {
      if Usable(ranked[i], uncovered) { return Some(ranked[i]); }
    }
    return None;
  }

  method BestPair(remaining: seq<Probe>, cards: seq<Card>, cov: Coverage, tp: Throughput, uncovered: set<Domain>)
    returns (best: Option<Pick>)
    ensures best == Best(remaining, cards, cov, tp, uncovered)
  {
    best := None;
    for i := 0 to |remaining|
      invariant best == Best(remaining[..i], cards, cov, tp, uncovered)
    {
      var top := TopUncovered(remaining[i], cards, cov, tp, uncovered);
      assert remaining[..i + 1][..i] == remaining[..i];
      if top.Some? && (best.None? || top.value.score.value > best.value.score) {
        best := Some(Pick(top.value.score.value, remaining[i], top.value.card));
      }
    }
    assert remaining[..|remaining|] == remaining;
  }

  method CoverGreedily(s: State, cards: seq<Card>, catalog: seq<Card>, tp: Throughput) returns (r: State)
    ensures r == FillTier(s, cards, catalog, tp)
  {
    r := s;
    var uncovered := Domains(cards) - s.cov.Keys;
    while |r.remaining| > 0 && |uncovered| > 0
      invariant Cover(r, cards, uncovered, catalog, tp) == FillTier(s, cards, catalog, tp)
      decreases |r.remaining|
    {
      var best := BestPair(r.remaining, cards, r.cov, tp, uncovered);
      if best.None? { return; }
      r, uncovered := Place(r, best.value, catalog, tp), uncovered - {best.value.card.domain};
    }
  }

  method FillRest(s: State, todo: seq<Probe>, catalog: seq<Card>, tp: Throughput) returns (r: State)
    ensures r == Fill(s, todo, catalog, tp)
  {
    r := s;
    for i := 0 to |todo|
      invariant Fill(r, todo[i..], catalog, tp) == Fill(s, todo, catalog, tp)
    {
      r := FillOne(r, todo[i], catalog, tp);
    }
  }

  method FillSecondaries(s: State, nodes: seq<Probe>, catalog: seq<Card>, tp: Throughput) returns (r: State)
    requires forall n :: n in s.plan.order ==> n in s.plan.at
    ensures r == Attach(s, nodes, s.plan.order, s.plan.at, catalog, tp)
  {
    r := s;
    var todo, copy := s.plan.order, s.plan.at;
    for i := 0 to |todo|
      invariant Attach(r, nodes, todo[i..], copy, catalog, tp) == Attach(s, nodes, todo, copy, catalog, tp)
    {
      r := AttachOne(r, nodes, todo[i], copy[todo[i]], catalog, tp);
    }
  }

  method PromoteReplicas(s: State, traffic: seq<Share>, catalog: seq<Card>, tp: Throughput) returns (r: State)
    ensures r == Promote(s, s.remaining, Heavy(traffic), catalog, tp)
  {
    r := s;
    var todo, heavy := s.remaining, Heavy(traffic);
    for i := 0 to |todo|
      invariant Promote(r, todo[i..], heavy, catalog, tp) == Promote(s, todo, heavy, catalog, tp)
    {
      r := PromoteOne(r, todo[i], heavy, catalog, tp);
    }
  }
}
