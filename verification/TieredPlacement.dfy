/** The tiered strategy and `allocate_cluster` as a whole (mesh/allocator.py). */
module TieredPlacement {
  import opened Wrappers
  import opened Scoring
  import opened Allocator
  import opened Placement

  // ----- the tiers -----

  lemma {:induction false} OfTierIn(cards: seq<Card>, tier: int)
    ensures forall c :: c in OfTier(cards, tier) <==> c in cards && Tier(c.domain) == tier
  {
    if |cards| > 0 {
      assert cards == [cards[0]] + cards[1..];
      OfTierIn(cards[1..], tier);
    }
  }

  lemma {:induction false} WithinIn(cards: seq<Card>, domains: set<Domain>)
    ensures forall c :: c in Within(cards, domains) <==> c in cards && c.domain in domains
  {
    if |cards| > 0 {
      assert cards == [cards[0]] + cards[1..];
      WithinIn(cards[1..], domains);
    }
  }

  /** A tier keeps the matching and leaves a domain open only if no remaining node can host it. */
  lemma TierMatches(nodes: seq<Probe>, s: State, cards: seq<Card>, catalog: seq<Card>, tp: Throughput)
    requires Kept(nodes, catalog, s) && forall c :: c in cards ==> c in catalog
    ensures var t := FillTier(s, cards, catalog, tp);
            Kept(nodes, catalog, t) && Exhausted(t, cards) && Grows(s, t, Domains(cards))
  {
    CoverMatches(nodes, s, cards, Domains(cards) - s.cov.Keys, catalog, tp);
  }

  lemma StillExhausted(s: State, t: State, cards: seq<Card>, domains: set<Domain>)
    requires Exhausted(s, cards) && Grows(s, t, domains)
    ensures Exhausted(t, cards)
  {}

  /** Every domain is wanted but those of the third tier, which need a share of at least a twentieth of the traffic. */
  predicate Wanted(d: Domain, traffic: seq<Share>) {
    d !in TIER_3 || exists t :: t in traffic && t.domain == d && 20.0 * t.share >= 1.0
  }

  function Tiers(nodes: seq<Probe>, catalog: seq<Card>, traffic: seq<Share>, tp: Throughput): State {
    FillTiers(Start(nodes), catalog, traffic, tp)
  }

  function TwoTiers(nodes: seq<Probe>, catalog: seq<Card>, tp: Throughput): State {
    FillTier(FillTier(Start(nodes), OfTier(catalog, 1), catalog, tp), OfTier(catalog, 2), catalog, tp)
  }

  lemma TwoTiersMatch(nodes: seq<Probe>, catalog: seq<Card>, tp: Throughput)
    ensures var t := TwoTiers(nodes, catalog, tp);
            && Kept(nodes, catalog, t) && Exhausted(t, OfTier(catalog, 1)) && Exhausted(t, OfTier(catalog, 2))
            && t.cov.Keys <= Domains(OfTier(catalog, 1)) + Domains(OfTier(catalog, 2))
  {
    var one, two := OfTier(catalog, 1), OfTier(catalog, 2);
    OfTierIn(catalog, 1);
    OfTierIn(catalog, 2);
    var s := FillTier(Start(nodes), one, catalog, tp);
    TierMatches(nodes, Start(nodes), one, catalog, tp);
    TierMatches(nodes, s, two, catalog, tp);
    StillExhausted(s, FillTier(s, two, catalog, tp), one, Domains(two));
  }

  lemma ThreeTiersMatch(nodes: seq<Probe>, catalog: seq<Card>, traffic: seq<Share>, tp: Throughput)
    requires |Hot(traffic)| != 0
    ensures var t, hot := Tiers(nodes, catalog, traffic, tp), Within(OfTier(catalog, 3), Hot(traffic) * TIER_3);
            && Kept(nodes, catalog, t) && Exhausted(t, hot)
            && Exhausted(t, OfTier(catalog, 1)) && Exhausted(t, OfTier(catalog, 2))
            && t.cov.Keys <= Domains(OfTier(catalog, 1)) + Domains(OfTier(catalog, 2)) + Domains(hot)
  {
    var s, t := TwoTiers(nodes, catalog, tp), Tiers(nodes, catalog, traffic, tp);
    var hot := Within(OfTier(catalog, 3), Hot(traffic) * TIER_3);
    OfTierIn(catalog, 3);
    WithinIn(OfTier(catalog, 3), Hot(traffic) * TIER_3);
    TwoTiersMatch(nodes, catalog, tp);
    TierMatches(nodes, s, hot, catalog, tp);
    StillExhausted(s, t, OfTier(catalog, 1), Domains(hot));
    StillExhausted(s, t, OfTier(catalog, 2), Domains(hot));
  }

  /** A wanted domain is open only if no unplaced node can host it. */
  ghost predicate Reached(s: State, catalog: seq<Card>, traffic: seq<Share>) {
    forall p, c :: p in s.remaining && c in catalog && Eligible(c, p) && Wanted(c.domain, traffic) ==> c.domain in s.cov
  }

  lemma TiersReached(s: State, catalog: seq<Card>, traffic: seq<Share>)
    requires Exhausted(s, OfTier(catalog, 1)) && Exhausted(s, OfTier(catalog, 2))
    requires |Hot(traffic)| != 0 ==> Exhausted(s, Within(OfTier(catalog, 3), Hot(traffic) * TIER_3))
    ensures Reached(s, catalog, traffic)
  {
    OfTierIn(catalog, 1);
    OfTierIn(catalog, 2);
    OfTierIn(catalog, 3);
    WithinIn(OfTier(catalog, 3), Hot(traffic) * TIER_3);
  }

  lemma OnlyWanted(catalog: seq<Card>, traffic: seq<Share>, d: Domain)
    requires d in Domains(OfTier(catalog, 1)) || d in Domains(OfTier(catalog, 2))
             || d in Domains(Within(OfTier(catalog, 3), Hot(traffic) * TIER_3))
    ensures Wanted(d, traffic)
  {
    OfTierIn(catalog, 1);
    OfTierIn(catalog, 2);
    WithinIn(OfTier(catalog, 3), Hot(traffic) * TIER_3);
  }

  /** After the tiers: a matching that reaches the wanted domains and covers no other. */
  lemma TiersMatch(nodes: seq<Probe>, catalog: seq<Card>, traffic: seq<Share>, tp: Throughput)
    ensures Kept(nodes, catalog, Tiers(nodes, catalog, traffic, tp))
    ensures Reached(Tiers(nodes, catalog, traffic, tp), catalog, traffic)
    ensures forall d :: d in Tiers(nodes, catalog, traffic, tp).cov ==> Wanted(d, traffic)
  {
    var t := Tiers(nodes, catalog, traffic, tp);
    if |Hot(traffic)| != 0 { ThreeTiersMatch(nodes, catalog, traffic, tp); } else { TwoTiersMatch(nodes, catalog, tp); }
    TiersReached(t, catalog, traffic);
    forall d | d in t.cov ensures Wanted(d, traffic) { OnlyWanted(catalog, traffic, d); }
  }

  // ----- secondaries -----

  lemma {:induction false} CandidatesIn(cards: seq<Card>, primary: Card, room: real, cov: Coverage)
    ensures forall c :: c in Candidates(cards, primary, room, cov) <==> c in cards && Candidate(c, primary, room, cov)
  {
    if |cards| > 0 {
      assert cards == [cards[0]] + cards[1..];
      CandidatesIn(cards[1..], primary, room, cov);
    }
  }

  lemma {:induction false} ByIdIsNode(nodes: seq<Probe>, n: NodeId)
    ensures ById(nodes, n).Some? <==> exists p :: p in nodes && p.node == n
    ensures ById(nodes, n).Some? ==> ById(nodes, n).value in nodes && ById(nodes, n).value.node == n
  {
    if |nodes| > 0 {
      assert nodes == nodes[..|nodes| - 1] + [nodes[|nodes| - 1]];
      ByIdIsNode(nodes[..|nodes| - 1], n);
    }
  }

  function Room(p: Probe, primary: Card): real { EffectiveVram(p) - primary.runtime }

  /** A second specialist: it shares the node with a primary that uses at most half of the memory, and both fit. */
  ghost predicate Seconds(nodes: seq<Probe>, n: NodeId, g: Suggestion) {
    |g.secondaries| == 0
    || (&& |g.secondaries| == 1 && g.primary.Some? && ById(nodes, n).Some?
        && UsesHalf(g.primary.value, EffectiveVram(ById(nodes, n).value))
        && g.primary.value.runtime + g.secondaries[0].runtime <= EffectiveVram(ById(nodes, n).value)
        && g.secondaries[0].specialist != g.primary.value.specialist
        && g.secondaries[0].domain in TIER_1 + TIER_2)
  }

  /** A card of the first two tiers that would open a domain, next to another specialist that uses at most half of the
      memory, and with room for both. */
  ghost predicate MayJoin(nodes: seq<Probe>, n: NodeId, g: Suggestion, cov: Coverage, catalog: seq<Card>, c: Card) {
    && g.primary.Some? && ById(nodes, n).Some? && c in catalog && Eligible(c, ById(nodes, n).value)
    && UsesHalf(g.primary.value, EffectiveVram(ById(nodes, n).value))
    && g.primary.value.runtime + c.runtime <= EffectiveVram(ById(nodes, n).value)
    && c.specialist != g.primary.value.specialist
    && c.domain in TIER_1 + TIER_2 && c.domain !in cov
  }

  predicate UsesHalf(primary: Card, memory: real) { memory > 0.0 && 2.0 * primary.runtime <= memory }

  lemma HalfMeans(primary: Card, p: Probe)
    ensures HasRoom(primary, p) <==> UsesHalf(primary, EffectiveVram(p))
  {
    var memory := EffectiveVram(p);
    if memory > 0.0 {
      var q := primary.runtime / memory;
      assert q * memory == primary.runtime;
      if q <= 0.5 { assert (0.5 - q) * memory >= 0.0; } else { assert (q - 0.5) * memory > 0.0; }
    }
  }

  lemma MayJoinIn(nodes: seq<Probe>, n: NodeId, g: Suggestion, cov: Coverage, catalog: seq<Card>, c: Card)
    requires g.primary.Some? && ById(nodes, n).Some? && HasRoom(g.primary.value, ById(nodes, n).value)
    ensures var p := ById(nodes, n).value;
            MayJoin(nodes, n, g, cov, catalog, c)
            <==> c in Candidates(catalog, g.primary.value, Room(p, g.primary.value), cov) && Eligible(c, p)
  {
    CandidatesIn(catalog, g.primary.value, Room(ById(nodes, n).value, g.primary.value), cov);
    HalfMeans(g.primary.value, ById(nodes, n).value);
  }

  /** A secondary is attached exactly when some card may join, and it is one that may. */
  lemma SecondMayJoin(nodes: seq<Probe>, n: NodeId, g: Suggestion, cov: Coverage, catalog: seq<Card>, tp: Throughput)
    ensures Second(nodes, n, g, cov, catalog, tp).None? ==> forall c :: !MayJoin(nodes, n, g, cov, catalog, c)
    ensures Second(nodes, n, g, cov, catalog, tp).Some? ==>
              MayJoin(nodes, n, g, cov, catalog, Second(nodes, n, g, cov, catalog, tp).value)
  {
    if g.primary.Some? && ById(nodes, n).Some? { HalfMeans(g.primary.value, ById(nodes, n).value); }
    if g.primary.Some? && ById(nodes, n).Some? && HasRoom(g.primary.value, ById(nodes, n).value) {
      var p, primary := ById(nodes, n).value, g.primary.value;
      BestCard(p, Candidates(catalog, primary, Room(p, primary), cov), cov, tp);
      forall c ensures MayJoin(nodes, n, g, cov, catalog, c)
                       <==> c in Candidates(catalog, primary, Room(p, primary), cov) && Eligible(c, p)
      {
        MayJoinIn(nodes, n, g, cov, catalog, c);
      }
    }
  }

  /** And no card that may join scores higher. */
  lemma SecondIsBest(nodes: seq<Probe>, n: NodeId, g: Suggestion, cov: Coverage, catalog: seq<Card>, tp: Throughput, c: Card)
    requires Second(nodes, n, g, cov, catalog, tp).Some? && MayJoin(nodes, n, g, cov, catalog, c)
    ensures var p, second := ById(nodes, n).value, Second(nodes, n, g, cov, catalog, tp).value;
            !Beats(Score(c, p, cov, tp), Score(second, p, cov, tp))
  {
    var p, primary := ById(nodes, n).value, g.primary.value;
    HalfMeans(primary, p);
    var cards := Candidates(catalog, primary, Room(p, primary), cov);
    MayJoinIn(nodes, n, g, cov, catalog, c);
    BestCard(p, cards, cov, tp);
    RankFacts(p, cards, cov, tp);
    assert Scoring.Fits(Rank(p, cards, cov, tp)[0], p, cards, cov, tp);
  }

  /** What holds between two secondaries: nodes of `todo` are still as in the copy. */
  ghost predicate Attaching(nodes: seq<Probe>, catalog: seq<Card>, s: State, todo: seq<NodeId>, copy: map<NodeId, Suggestion>) {
    && OneHost(nodes, catalog, s)
    && (forall n :: n in s.plan.at ==> Seconds(nodes, n, s.plan.at[n]))
    && (forall n :: n in todo ==> n in copy && n in s.plan.at && s.plan.at[n] == copy[n] && copy[n].secondaries == [])
    && (forall i, j :: 0 <= i < j < |todo| ==> todo[i] != todo[j])
  }

  lemma AttachOneHost(nodes: seq<Probe>, catalog: seq<Card>, s: State, n: NodeId, g: Suggestion, tp: Throughput)
    requires OneHost(nodes, catalog, s) && n in s.plan.at && s.plan.at[n] == g && g.secondaries == []
    ensures OneHost(nodes, catalog, AttachOne(s, nodes, n, g, catalog, tp))
  {
    var second := Second(nodes, n, g, s.cov, catalog, tp);
    SecondMayJoin(nodes, n, g, s.cov, catalog, tp);
    if second.Some? {
      ByIdIsNode(nodes, n);
      var t, c := AttachOne(s, nodes, n, g, catalog, tp), second.value;
      assert t.plan.at[n].secondaries == [c];
      forall d, m ensures Counted(t, d, m) {
        assert Counted(s, d, m);
        if m == n { assert Carries(t.plan.at[n], d) <==> Carries(g, d) || d == c.domain; }
      }
      forall d | d in t.cov ensures Single(t.cov[d]) {
        if d == c.domain { assert t.cov[d] == {n}; } else { assert Single(s.cov[d]); }
      }
      forall m | m in t.plan.at ensures Placed(nodes, catalog, m, t.plan.at[m]) {
        assert Placed(nodes, catalog, m, s.plan.at[m]);
      }
    }
  }

  lemma AttachOneKeeps(nodes: seq<Probe>, catalog: seq<Card>, s: State, todo: seq<NodeId>, copy: map<NodeId, Suggestion>,
                       tp: Throughput)
    requires |todo| > 0 && Attaching(nodes, catalog, s, todo, copy)
    ensures Attaching(nodes, catalog, AttachOne(s, nodes, todo[0], copy[todo[0]], catalog, tp), todo[1..], copy)
  {
    AttachOneHost(nodes, catalog, s, todo[0], copy[todo[0]], tp);
    SecondMayJoin(nodes, todo[0], copy[todo[0]], s.cov, catalog, tp);
  }

  /** What attaching secondaries leaves as it was, and what it guarantees for the nodes it visits. */
  ghost predicate Attached(nodes: seq<Probe>, catalog: seq<Card>, s: State, t: State, todo: seq<NodeId>) {
    && t.remaining == s.remaining && t.plan.at.Keys == s.plan.at.Keys && s.cov.Keys <= t.cov.Keys
    && (forall n :: n in s.plan.at ==> t.plan.at[n].primary == s.plan.at[n].primary)
    && (forall n :: n in s.plan.at && n !in todo ==> t.plan.at[n] == s.plan.at[n])
    && (forall n, c :: n in todo && n in t.plan.at && MayJoin(nodes, n, t.plan.at[n], t.cov, catalog, c)
          ==> t.plan.at[n].secondaries != [])
  }

  lemma AttachOneFrame(nodes: seq<Probe>, catalog: seq<Card>, s: State, n: NodeId, tp: Throughput)
    requires n in s.plan.at
    ensures Attached(nodes, catalog, s, AttachOne(s, nodes, n, s.plan.at[n], catalog, tp), [n])
  {
    SecondMayJoin(nodes, n, s.plan.at[n], s.cov, catalog, tp);
  }

  lemma AttachedOn(nodes: seq<Probe>, catalog: seq<Card>, s: State, t: State, u: State, todo: seq<NodeId>)
    requires |todo| > 0 && todo[0] in s.plan.at && todo[0] !in todo[1..]
    requires Attached(nodes, catalog, s, t, [todo[0]]) && Attached(nodes, catalog, t, u, todo[1..])
    ensures Attached(nodes, catalog, s, u, todo)
  {
    assert todo == [todo[0]] + todo[1..];
    forall n, c | n in todo && n in u.plan.at && MayJoin(nodes, n, u.plan.at[n], u.cov, catalog, c)
      ensures u.plan.at[n].secondaries != []
    {
      if n == todo[0] {
        assert u.plan.at[n] == t.plan.at[n];
        assert MayJoin(nodes, n, t.plan.at[n], t.cov, catalog, c);
      }
    }
  }

  /** Secondaries keep one host per covered domain, fit the memory, and leave an open tier-1 or tier-2 domain only
      if no placed node with room for it lacks a secondary. */
  lemma {:induction false} AttachKeeps(nodes: seq<Probe>, catalog: seq<Card>, s: State, todo: seq<NodeId>,
                                       copy: map<NodeId, Suggestion>, tp: Throughput)
    requires Attaching(nodes, catalog, s, todo, copy)
    ensures var t := Attach(s, nodes, todo, copy, catalog, tp);
            Attaching(nodes, catalog, t, [], copy) && Attached(nodes, catalog, s, t, todo)
    decreases |todo|
  {
    if |todo| > 0 {
      var next := AttachOne(s, nodes, todo[0], copy[todo[0]], catalog, tp);
      AttachOneKeeps(nodes, catalog, s, todo, copy, tp);
      AttachOneFrame(nodes, catalog, s, todo[0], tp);
      AttachKeeps(nodes, catalog, next, todo[1..], copy, tp);
      AttachedOn(nodes, catalog, s, next, Attach(s, nodes, todo, copy, catalog, tp), todo);
    }
  }

  /** The state before replicas are promoted. */
  function Seconded(nodes: seq<Probe>, catalog: seq<Card>, traffic: seq<Share>, tp: Throughput): State {
    var s := Tiers(nodes, catalog, traffic, tp);
    TiersMatch(nodes, catalog, traffic, tp);
    Attach(s, nodes, s.plan.order, s.plan.at, catalog, tp)
  }

  /** Until replicas are promoted every covered domain has one host, which carries it, two specialists on a node fit
      its memory together, no unplaced node fits an open wanted domain, and no placed node without a secondary has
      room for an open one. */
  lemma SecondedFacts(nodes: seq<Probe>, catalog: seq<Card>, traffic: seq<Share>, tp: Throughput)
    ensures var s := Seconded(nodes, catalog, traffic, tp);
            && OneHost(nodes, catalog, s) && Left(nodes, s)
            && (forall n :: n in s.plan.at ==> Seconds(nodes, n, s.plan.at[n]))
            && Reached(s, catalog, traffic)
            && (forall n, c :: n in s.plan.at && MayJoin(nodes, n, s.plan.at[n], s.cov, catalog, c)
                  ==> s.plan.at[n].secondaries != [])
  {
    var s := Tiers(nodes, catalog, traffic, tp);
    TiersMatch(nodes, catalog, traffic, tp);
    AttachKeeps(nodes, catalog, s, s.plan.order, s.plan.at, tp);
  }

  // ----- every node is answered -----

  /** The node has a suggestion: a card that fits it, or none exactly when no card of the catalog passes its filters. */
  ghost predicate Answered(plan: Plan, p: Probe, catalog: seq<Card>) {
    && p.node in plan.at
    && (plan.at[p.node].primary.Some? ==> plan.at[p.node].primary.value in catalog && Eligible(plan.at[p.node].primary.value, p))
    && (plan.at[p.node].primary.None? ==> forall c :: c in catalog ==> !Eligible(c, p))
  }

  predicate Same(s: State, t: State, n: NodeId) {
    (n in s.plan.at <==> n in t.plan.at) && (n in s.plan.at ==> t.plan.at[n] == s.plan.at[n])
  }

  /** The last listing under an id, read from the front. */
  lemma {:induction false} ByIdCons(p: Probe, rest: seq<Probe>, n: NodeId)
    ensures ById([p] + rest, n) == if ById(rest, n).Some? then ById(rest, n) else if p.node == n then Some(p) else None
  {
    var all := [p] + rest;
    if |rest| == 0 {
      assert all == [p] && all[..0] == [] && ById([], n).None?;
    } else {
      assert all[..|all| - 1] == [p] + rest[..|rest| - 1] && all[|all| - 1] == rest[|rest| - 1];
      if rest[|rest| - 1].node != n { ByIdCons(p, rest[..|rest| - 1], n); }
    }
  }

  lemma {:induction false} FillAnswers(s: State, todo: seq<Probe>, catalog: seq<Card>, tp: Throughput, n: NodeId)
    ensures var t := Fill(s, todo, catalog, tp);
            if ById(todo, n).Some? then Answered(t.plan, ById(todo, n).value, catalog) else Same(s, t, n)
    decreases |todo|
  {
    if |todo| > 0 {
      var p, rest := todo[0], todo[1..];
      assert todo == [p] + rest;
      ByIdCons(p, rest, n);
      ByIdIsNode(todo, n);
      ByIdIsNode(rest, n);
      BestCard(p, catalog, s.cov, tp);
      assert Answered(FillOne(s, p, catalog, tp).plan, p, catalog);
      FillAnswers(FillOne(s, p, catalog, tp), rest, catalog, tp, n);
    }
  }

  /** A replica is found exactly when some card fits. It is the best card of the heaviest domain when one of those
      fits, and the best of all otherwise. */
  lemma ChosenFits(p: Probe, catalog: seq<Card>, cov: Coverage, tp: Throughput, heavy: Domain)
    ensures var chosen := Chosen(Rank(p, catalog, cov, tp), heavy);
            && (chosen.Some? <==> exists c :: c in catalog && Eligible(c, p))
            && (chosen.Some? ==> chosen.value.card in catalog && Eligible(chosen.value.card, p))
            && (chosen.Some? && FitsHeavy(p, catalog, heavy) ==> chosen.value.card.domain == heavy)
            && (chosen.Some? ==> forall c :: Rival(c, p, catalog, heavy) ==> !Beats(Score(c, p, cov, tp), chosen.value.score))
  {
    BestCard(p, catalog, cov, tp);
    TopIsBest(p, catalog, cov, tp, {heavy});
    var top := Top(Rank(p, catalog, cov, tp), {heavy});
    assert FitsHeavy(p, catalog, heavy) ==> top.Some?;
    assert top.Some? ==> Open(top.value.card, p, {heavy});
  }

  predicate Rival(c: Card, p: Probe, catalog: seq<Card>, heavy: Domain) {
    c in catalog && Eligible(c, p) && (FitsHeavy(p, catalog, heavy) ==> c.domain == heavy)
  }

  predicate FitsHeavy(p: Probe, catalog: seq<Card>, heavy: Domain) {
    exists c :: c in catalog && Open(c, p, {heavy})
  }

  lemma {:induction false} PromoteAnswers(s: State, todo: seq<Probe>, heavy: Domain, catalog: seq<Card>, tp: Throughput, n: NodeId)
    ensures var t := Promote(s, todo, heavy, catalog, tp);
            if ById(todo, n).Some? then Answered(t.plan, ById(todo, n).value, catalog) else Same(s, t, n)
    decreases |todo|
  {
    if |todo| > 0 {
      var p, rest := todo[0], todo[1..];
      assert todo == [p] + rest;
      ByIdCons(p, rest, n);
      ByIdIsNode(todo, n);
      ByIdIsNode(rest, n);
      ChosenFits(p, catalog, s.cov, tp, heavy);
      assert Answered(PromoteOne(s, p, heavy, catalog, tp).plan, p, catalog);
      PromoteAnswers(PromoteOne(s, p, heavy, catalog, tp), rest, heavy, catalog, tp, n);
    }
  }

  /** Where most of the traffic goes: the first domain with the largest share, "general" without traffic. */
  ghost predicate Hottest(traffic: seq<Share>, d: Domain) {
    if |traffic| == 0 then d == "general" else exists i :: HottestAt(traffic, i) && traffic[i].domain == d
  }

  predicate HottestAt(traffic: seq<Share>, i: int) {
    && 0 <= i < |traffic|
    && (forall j :: 0 <= j < i ==> traffic[j].share < traffic[i].share)
    && (forall j :: i < j < |traffic| ==> traffic[j].share <= traffic[i].share)
  }

  lemma {:induction false} HeaviestAt(traffic: seq<Share>)
    requires |traffic| > 0
    ensures exists i :: HottestAt(traffic, i) && traffic[i] == Heaviest(traffic)
  {
    var n := |traffic| - 1;
    if n == 0 {
      assert HottestAt(traffic, 0);
    } else {
      var front := traffic[..n];
      HeaviestAt(front);
      var i :| HottestAt(front, i) && front[i] == Heaviest(front);
      HottestSnoc(traffic, i);
    }
  }

  /** The last share takes over only if it is larger. */
  lemma HottestSnoc(traffic: seq<Share>, i: int)
    requires |traffic| > 1 && HottestAt(traffic[..|traffic| - 1], i)
    ensures var n := |traffic| - 1;
            if traffic[n].share > traffic[i].share then HottestAt(traffic, n) else HottestAt(traffic, i)
  {
    var n := |traffic| - 1;
    var front := traffic[..n];
    assert forall j :: 0 <= j < n ==> front[j] == traffic[j];
    forall j | 0 <= j < n ensures traffic[j].share <= traffic[i].share { assert front[j] == traffic[j]; }
  }

  lemma HeavyIsHottest(traffic: seq<Share>, d: Domain)
    ensures Hottest(traffic, d) <==> d == Heavy(traffic)
  {
    if |traffic| > 0 {
      HeaviestAt(traffic);
      var i :| HottestAt(traffic, i) && traffic[i] == Heaviest(traffic);
      if Hottest(traffic, d) {
        var j :| HottestAt(traffic, j) && traffic[j].domain == d;
        assert i == j;
      }
    }
  }

  lemma {:induction false} PromoteToHeavy(s: State, todo: seq<Probe>, heavy: Domain, catalog: seq<Card>, tp: Throughput, n: NodeId)
    requires ById(todo, n).Some? && FitsHeavy(ById(todo, n).value, catalog, heavy)
    ensures var plan := Promote(s, todo, heavy, catalog, tp).plan;
            n in plan.at && plan.at[n].primary.Some? && plan.at[n].primary.value.domain == heavy
    decreases |todo|
  {
    var p, rest := todo[0], todo[1..];
    var s1 := PromoteOne(s, p, heavy, catalog, tp);
    assert todo == [p] + rest;
    ByIdCons(p, rest, n);
    if ById(rest, n).Some? {
      PromoteToHeavy(s1, rest, heavy, catalog, tp, n);
    } else {
      ChosenFits(p, catalog, s.cov, tp, heavy);
      PromoteAnswers(s1, rest, heavy, catalog, tp, n);
      assert exists c :: c in catalog && Eligible(c, p);
    }
  }

  lemma {:induction false} NothingToAdd(plan: Plan, todo: seq<Probe>)
    requires forall p :: p in todo ==> p.node in plan.at
    ensures NoFit(plan, todo) == plan
    decreases |todo|
  {
    if |todo| > 0 { NothingToAdd(plan, todo[1..]); }
  }

  // ----- the loops keep the listings of unplaced nodes -----

  lemma {:induction false} ExceptById(ps: seq<Probe>, m: NodeId, n: NodeId)
    requires m != n
    ensures ById(Except(ps, m), n) == ById(ps, n)
  {
    if |ps| > 0 {
      var p, rest := ps[0], ps[1..];
      assert ps == [p] + rest;
      ExceptById(rest, m, n);
      ByIdCons(p, rest, n);
      ByIdCons(p, Except(rest, m), n);
      assert [] + Except(rest, m) == Except(rest, m);
    }
  }

  /** Covering carries on what is listed for a node it does not place. */
  ghost predicate CarriesOn(s: State, t: State, n: NodeId) {
    (n in s.plan.at ==> n in t.plan.at) && (n !in t.plan.at ==> ById(t.remaining, n) == ById(s.remaining, n))
  }

  lemma {:induction false} CoverCarries(s: State, cards: seq<Card>, uncovered: set<Domain>, catalog: seq<Card>, tp: Throughput, n: NodeId)
    ensures CarriesOn(s, Cover(s, cards, uncovered, catalog, tp), n)
    decreases |s.remaining|
  {
    if |s.remaining| > 0 && |uncovered| > 0 && Best(s.remaining, cards, s.cov, tp, uncovered).Some? {
      var best := Best(s.remaining, cards, s.cov, tp, uncovered).value;
      if best.probe.node != n { ExceptById(s.remaining, best.probe.node, n); }
      CoverCarries(Place(s, best, catalog, tp), cards, uncovered - {best.card.domain}, catalog, tp, n);
    }
  }

  lemma TiersCarry(nodes: seq<Probe>, catalog: seq<Card>, traffic: seq<Share>, tp: Throughput, n: NodeId)
    ensures CarriesOn(Start(nodes), Tiers(nodes, catalog, traffic, tp), n)
  {
    var one, two := OfTier(catalog, 1), OfTier(catalog, 2);
    var hot := Within(OfTier(catalog, 3), Hot(traffic) * TIER_3);
    var s0 := Start(nodes);
    CoverCarries(s0, one, Domains(one) - s0.cov.Keys, catalog, tp, n);
    var s1 := FillTier(s0, one, catalog, tp);
    CoverCarries(s1, two, Domains(two) - s1.cov.Keys, catalog, tp, n);
    var s2 := FillTier(s1, two, catalog, tp);
    CoverCarries(s2, hot, Domains(hot) - s2.cov.Keys, catalog, tp, n);
  }

  lemma SecondedCarries(nodes: seq<Probe>, catalog: seq<Card>, traffic: seq<Share>, tp: Throughput, n: NodeId)
    ensures CarriesOn(Start(nodes), Seconded(nodes, catalog, traffic, tp), n)
  {
    var s := Tiers(nodes, catalog, traffic, tp);
    TiersMatch(nodes, catalog, traffic, tp);
    TiersCarry(nodes, catalog, traffic, tp, n);
    AttachKeeps(nodes, catalog, s, s.plan.order, s.plan.at, tp);
  }

  // ----- allocate_cluster -----

  function Promoted(nodes: seq<Probe>, catalog: seq<Card>, traffic: seq<Share>, tp: Throughput): State {
    var s := Seconded(nodes, catalog, traffic, tp);
    Promote(s, s.remaining, Heavy(traffic), catalog, tp)
  }

  function Allocate(nodes: seq<Probe>, catalog: seq<Card>, traffic: seq<Share>, strategy: Strategy, tp: Throughput): Plan {
    match strategy
    case BestPerMachine => Fill(Start(nodes), nodes, catalog, tp).plan
    case FullSet => FullSetState(nodes, catalog, tp).plan
    case Tiered => NoFit(Promoted(nodes, catalog, traffic, tp).plan, nodes)
  }

  /** What a plan says of a listed node id: a card that fits one of its listings, or no primary, and then no card of the
      catalog passes the filters of its last listing. */
  ghost predicate Settled(plan: Plan, nodes: seq<Probe>, catalog: seq<Card>, n: NodeId) {
    && n in plan.at && ById(nodes, n).Some?
    && (plan.at[n].primary.Some? ==> plan.at[n].primary.value in catalog && CanHost(nodes, n, plan.at[n].primary.value))
    && (plan.at[n].primary.None? ==> forall c :: c in catalog ==> !Eligible(c, ById(nodes, n).value))
  }

  lemma AnsweredSettles(plan: Plan, nodes: seq<Probe>, catalog: seq<Card>, n: NodeId)
    requires ById(nodes, n).Some? && Answered(plan, ById(nodes, n).value, catalog)
    ensures Settled(plan, nodes, catalog, n)
  {
    ByIdIsNode(nodes, n);
  }

  /** A placed node keeps its suggestion through a fill or a promotion of the others. */
  lemma PlacedSettles(nodes: seq<Probe>, catalog: seq<Card>, s: State, t: State, n: NodeId)
    requires OneHost(nodes, catalog, s) && Left(nodes, s) && n in s.plan.at && ById(nodes, n).Some?
    requires ById(s.remaining, n).None? ==> Same(s, t, n)
    ensures Settled(t.plan, nodes, catalog, n)
  {
    ByIdIsNode(s.remaining, n);
    assert Placed(nodes, catalog, n, s.plan.at[n]);
  }

  lemma FullSetSettles(nodes: seq<Probe>, catalog: seq<Card>, tp: Throughput, n: NodeId)
    requires ById(nodes, n).Some?
    ensures Settled(FullSetState(nodes, catalog, tp).plan, nodes, catalog, n)
  {
    var s, t := Covered(nodes, catalog, tp), FullSetState(nodes, catalog, tp);
    CoveredFacts(nodes, catalog, tp);
    CoverCarries(Start(nodes), catalog, Domains(catalog) - Start(nodes).cov.Keys, catalog, tp, n);
    FillAnswers(s, s.remaining, catalog, tp, n);
    if n in s.plan.at { PlacedSettles(nodes, catalog, s, t, n); } else { AnsweredSettles(t.plan, nodes, catalog, n); }
  }

  lemma TieredSettles(nodes: seq<Probe>, catalog: seq<Card>, traffic: seq<Share>, tp: Throughput, n: NodeId)
    requires ById(nodes, n).Some?
    ensures Settled(Promoted(nodes, catalog, traffic, tp).plan, nodes, catalog, n)
  {
    var s, t := Seconded(nodes, catalog, traffic, tp), Promoted(nodes, catalog, traffic, tp);
    SecondedFacts(nodes, catalog, traffic, tp);
    SecondedCarries(nodes, catalog, traffic, tp, n);
    PromoteAnswers(s, s.remaining, Heavy(traffic), catalog, tp, n);
    if n in s.plan.at { PlacedSettles(nodes, catalog, s, t, n); } else { AnsweredSettles(t.plan, nodes, catalog, n); }
  }

  lemma EveryNodeIsPromoted(nodes: seq<Probe>, catalog: seq<Card>, traffic: seq<Share>, tp: Throughput)
    ensures Allocate(nodes, catalog, traffic, Tiered, tp) == Promoted(nodes, catalog, traffic, tp).plan
  {
    forall q | q in nodes ensures q.node in Promoted(nodes, catalog, traffic, tp).plan.at {
      ByIdIsNode(nodes, q.node);
      TieredSettles(nodes, catalog, traffic, tp, q.node);
    }
    NothingToAdd(Promoted(nodes, catalog, traffic, tp).plan, nodes);
  }

  /** Every strategy answers every listed node: with a card that fits it, or without a primary, and then no card passes
      the filters. Under a repeated id some listing is fitted, or the last one fits nothing. */
  lemma EveryNodeIsAnswered(nodes: seq<Probe>, catalog: seq<Card>, traffic: seq<Share>, strategy: Strategy, tp: Throughput, n: NodeId)
    requires exists p :: p in nodes && p.node == n
    ensures Settled(Allocate(nodes, catalog, traffic, strategy, tp), nodes, catalog, n)
  {
    ByIdIsNode(nodes, n);
    match strategy
    case BestPerMachine =>
      FillAnswers(Start(nodes), nodes, catalog, tp, n);
      AnsweredSettles(Fill(Start(nodes), nodes, catalog, tp).plan, nodes, catalog, n);
    case FullSet =>
      FullSetSettles(nodes, catalog, tp, n);
    case Tiered =>
      TieredSettles(nodes, catalog, traffic, tp, n);
      EveryNodeIsPromoted(nodes, catalog, traffic, tp);
  }

  /** A node that the tiers left without a card gets one of the domain where most of the traffic goes, if one of those
      fits it. */
  lemma ReplicasGoToHottest(nodes: seq<Probe>, catalog: seq<Card>, traffic: seq<Share>, tp: Throughput, p: Probe, d: Domain)
    requires Hottest(traffic, d) && ById(nodes, p.node) == Some(p) && p.node !in Seconded(nodes, catalog, traffic, tp).plan.at
    requires exists c :: c in catalog && c.domain == d && Eligible(c, p)
    ensures var plan := Allocate(nodes, catalog, traffic, Tiered, tp);
            p.node in plan.at && plan.at[p.node].primary.Some? && plan.at[p.node].primary.value.domain == d
  {
    var s := Seconded(nodes, catalog, traffic, tp);
    SecondedCarries(nodes, catalog, traffic, tp, p.node);
    HeavyIsHottest(traffic, d);
    var c :| c in catalog && c.domain == d && Eligible(c, p);
    assert Open(c, p, {d});
    PromoteToHeavy(s, s.remaining, d, catalog, tp, p.node);
    EveryNodeIsPromoted(nodes, catalog, traffic, tp);
  }

  predicate Distinct(ps: seq<Probe>) {
    forall i, j :: 0 <= i < j < |ps| ==> ps[i].node != ps[j].node
  }

  /** With distinct ids, a node has no primary exactly when no card passes its hard filters. */
  lemma DistinctNodeIsAnswered(nodes: seq<Probe>, catalog: seq<Card>, traffic: seq<Share>, strategy: Strategy, tp: Throughput, p: Probe)
    requires Distinct(nodes) && p in nodes
    ensures Answered(Allocate(nodes, catalog, traffic, strategy, tp), p, catalog)
  {
    EveryNodeIsAnswered(nodes, catalog, traffic, strategy, tp, p.node);
    ByIdIsNode(nodes, p.node);
    assert forall q :: q in nodes && q.node == p.node ==> q == p;
  }

  lemma TiersListed(nodes: seq<Probe>, catalog: seq<Card>, traffic: seq<Share>, tp: Throughput)
    ensures var plan := Tiers(nodes, catalog, traffic, tp).plan; forall n :: n in plan.order ==> n in plan.at
  {
    TiersMatch(nodes, catalog, traffic, tp);
  }

  method FillAllTiers(nodes: seq<Probe>, catalog: seq<Card>, traffic: seq<Share>, tp: Throughput) returns (s: State)
    ensures s == Tiers(nodes, catalog, traffic, tp)
  {
    s := CoverGreedily(Start(nodes), OfTier(catalog, 1), catalog, tp);
    s := CoverGreedily(s, OfTier(catalog, 2), catalog, tp);
    if |Hot(traffic)| != 0 {
      s := CoverGreedily(s, Within(OfTier(catalog, 3), Hot(traffic) * TIER_3), catalog, tp);
    }
  }

  method MarkUnplaced(plan0: Plan, nodes: seq<Probe>) returns (plan: Plan)
    ensures plan == NoFit(plan0, nodes)
  {
    plan := plan0;
    for i := 0 to |nodes|
      invariant NoFit(plan, nodes[i..]) == NoFit(plan0, nodes)
    {
      if nodes[i].node !in plan.at { plan := Put(plan, nodes[i].node, NO_FIT); }
    }
  }

  method FillTiersAndSecondaries(nodes: seq<Probe>, catalog: seq<Card>, traffic: seq<Share>, tp: Throughput)
    returns (s: State)
    ensures s == Seconded(nodes, catalog, traffic, tp)
  {
    s := FillAllTiers(nodes, catalog, traffic, tp);
    TiersListed(nodes, catalog, traffic, tp);
    s := FillSecondaries(s, nodes, catalog, tp);
  }

  method AllocateTiered(nodes: seq<Probe>, catalog: seq<Card>, traffic: seq<Share>, tp: Throughput) returns (plan: Plan)
    ensures plan == Allocate(nodes, catalog, traffic, Tiered, tp)
  {
    var s := FillTiersAndSecondaries(nodes, catalog, traffic, tp);
    s := PromoteReplicas(s, traffic, catalog, tp);
    plan := MarkUnplaced(s.plan, nodes);
  }

  method AllocateCluster(nodes: seq<Probe>, catalog: seq<Card>, traffic: seq<Share>, strategy: Strategy, tp: Throughput)
    returns (plan: Plan)
    ensures plan == Allocate(nodes, catalog, traffic, strategy, tp)
    ensures forall p :: p in nodes ==> Settled(plan, nodes, catalog, p.node)
  {
    if strategy == BestPerMachine {
      var s := FillRest(Start(nodes), nodes, catalog, tp);
      plan := s.plan;
    } else if strategy == FullSet {
      var s := CoverGreedily(Start(nodes), catalog, catalog, tp);
      s := FillRest(s, s.remaining, catalog, tp);
      plan := s.plan;
    } else {
      plan := AllocateTiered(nodes, catalog, traffic, tp);
    }
    forall p | p in nodes ensures Settled(plan, nodes, catalog, p.node) {
      EveryNodeIsAnswered(nodes, catalog, traffic, strategy, tp, p.node);
    }
  }
}
