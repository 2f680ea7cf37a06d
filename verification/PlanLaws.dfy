/** What a plan says of coverage, of alternates and of the order of the tiers (mesh/allocator.py). */
module PlanLaws {
  import opened Wrappers
  import opened Scoring
  import opened Allocator
  import opened Placement
  import opened TieredPlacement

  // ----- the alternates -----

  /** At most three cards out of `fits`, best first, and none of `due` is left out unless three that it does not beat
      are listed. */
  ghost predicate BestThree(listed: seq<Card>, fits: set<Card>, due: set<Card>, p: Probe, cov: Coverage, tp: Throughput) {
    && |listed| <= 3 && CardsBestFirst(listed, p, cov, tp)
    && (forall c :: c in listed ==> c in fits)
    && (forall c :: c in due && c !in listed ==>
          |listed| == 3 && forall x :: x in listed ==> !Beats(Score(c, p, cov, tp), Score(x, p, cov, tp)))
  }

  function Fitting(p: Probe, catalog: seq<Card>): set<Card> { set c | c in catalog && Eligible(c, p) }

  function Rivals(p: Probe, catalog: seq<Card>, specialist: string): set<Card> {
    set c | c in catalog && Eligible(c, p) && c.specialist != specialist
  }

  lemma FirstThree(all: seq<Card>, fits: set<Card>, due: set<Card>, p: Probe, cov: Coverage, tp: Throughput)
    requires CardsBestFirst(all, p, cov, tp) && (forall c :: c in all ==> c in fits) && forall c :: c in due ==> c in all
    ensures BestThree(Take(all, 3), fits, due, p, cov, tp)
  {
    var listed := Take(all, 3);
    assert forall m :: 0 <= m < |listed| ==> listed[m] == all[m] && all[m] in listed;
    forall c | c in due && c !in listed
      ensures |listed| == 3 && forall x :: x in listed ==> !Beats(Score(c, p, cov, tp), Score(x, p, cov, tp))
    {
      var k :| 0 <= k < |all| && all[k] == c;
    }
  }

  /** The alternates of a covering pick and of a replica: the best three other specialists that fit the node. */
  lemma OthersListed(p: Probe, catalog: seq<Card>, cov: Coverage, tp: Throughput, specialist: string)
    ensures var fits := Rivals(p, catalog, specialist);
            BestThree(Take(Others(Finite(Rank(p, catalog, cov, tp)), specialist), 3), fits, fits, p, cov, tp)
  {
    var ranked := Rank(p, catalog, cov, tp);
    var all, fits := Others(Finite(ranked), specialist), Rivals(p, catalog, specialist);
    OthersRanked(p, catalog, cov, tp, specialist);
    RankFacts(p, catalog, cov, tp);
    FiniteIn(ranked);
    OthersIn(Finite(ranked), specialist);
    forall c | c in all ensures c in fits { FiniteIffEligible(c, p, cov, tp); }
    FirstThree(all, fits, fits, p, cov, tp);
  }

  lemma PlaceLists(s: State, pick: Pick, catalog: seq<Card>, tp: Throughput)
    ensures var t, p := Place(s, pick, catalog, tp), pick.probe;
            && p.node in t.plan.at
            && var fits := Rivals(p, catalog, pick.card.specialist);
               BestThree(t.plan.at[p.node].alternates, fits, fits, p, t.cov, tp)
  {
    OthersListed(pick.probe, catalog, Place(s, pick, catalog, tp).cov, tp, pick.card.specialist);
  }

  lemma PromoteLists(s: State, p: Probe, heavy: Domain, catalog: seq<Card>, tp: Throughput)
    ensures var g := PromoteOne(s, p, heavy, catalog, tp).plan.at[p.node];
            if g.primary.None? then g == NO_FIT
            else var fits := Rivals(p, catalog, g.primary.value.specialist);
                 BestThree(g.alternates, fits, fits, p, s.cov, tp)
  {
    var g := PromoteOne(s, p, heavy, catalog, tp).plan.at[p.node];
    if g.primary.Some? { OthersListed(p, catalog, s.cov, tp, g.primary.value.specialist); }
  }

  /** The alternates of a filled node: the best three fitting cards after its own. */
  lemma FillLists(s: State, p: Probe, catalog: seq<Card>, tp: Throughput)
    ensures var g := FillOne(s, p, catalog, tp).plan.at[p.node];
            if g.primary.None? then g == NO_FIT
            else BestThree(g.alternates, Fitting(p, catalog), Fitting(p, catalog) - {g.primary.value}, p, s.cov, tp)
  {
    var ranked := Rank(p, catalog, s.cov, tp);
    if |ranked| > 0 && ranked[0].score.Some? {
      var head, rest := ranked[0], ranked[1..];
      assert ranked == [head] + rest;
      RankFacts(p, catalog, s.cov, tp);
      forall r | r in rest ensures Scoring.Fits(r, p, catalog, s.cov, tp) { assert r in ranked; }
      assert BestFirst(rest) by { assert forall i :: 0 <= i < |rest| ==> rest[i] == ranked[i + 1]; }
      FiniteSorted(rest, p, s.cov, tp);
      FiniteIn(rest);
      forall c | c in Finite(rest) ensures c in Fitting(p, catalog) { FiniteIffEligible(c, p, s.cov, tp); }
      forall c | c in Fitting(p, catalog) - {head.card} ensures c in Finite(rest) {
        FiniteIffEligible(c, p, s.cov, tp);
        assert Scoring.Fits(Scored(Score(c, p, s.cov, tp), c), p, catalog, s.cov, tp);
      }
      FirstThree(Finite(rest), Fitting(p, catalog), Fitting(p, catalog) - {head.card}, p, s.cov, tp);
    }
  }

  // ----- coverage -----

  /** The coverage counts every node that carries a domain ... */
  ghost predicate HostsCounted(s: State) {
    forall d, n :: n in s.plan.at && Carries(s.plan.at[n], d) ==> HostOf(s.cov, d, n)
  }

  /** ... and no other. */
  ghost predicate NoneElse(s: State) {
    forall d, n :: HostOf(s.cov, d, n) ==> n in s.plan.at && Carries(s.plan.at[n], d)
  }

  ghost predicate Waiting(s: State, todo: seq<Probe>) {
    Distinct(todo) && forall p :: p in todo ==> p.node !in s.plan.at
  }

  /** What one node of a fill or of a promotion does to the plan and to the coverage. */
  ghost predicate Answers(s: State, t: State, n: NodeId) {
    && n in t.plan.at && t.plan.at == s.plan.at[n := t.plan.at[n]] && t.plan.at[n].secondaries == []
    && forall d, m :: HostOf(t.cov, d, m) <==> HostOf(s.cov, d, m) || (m == n && Carries(t.plan.at[n], d))
  }

  lemma FillAnswersOne(s: State, p: Probe, catalog: seq<Card>, tp: Throughput)
    ensures Answers(s, FillOne(s, p, catalog, tp), p.node)
  {}

  lemma PromoteAnswersOne(s: State, p: Probe, heavy: Domain, catalog: seq<Card>, tp: Throughput)
    ensures Answers(s, PromoteOne(s, p, heavy, catalog, tp), p.node)
  {}

  lemma AnswersCounted(s: State, t: State, n: NodeId)
    requires Answers(s, t, n) && HostsCounted(s)
    ensures HostsCounted(t)
    ensures NoneElse(s) && n !in s.plan.at ==> NoneElse(t)
  {}

  lemma StillWaiting(s: State, t: State, todo: seq<Probe>)
    requires |todo| > 0 && Waiting(s, todo) && Answers(s, t, todo[0].node)
    ensures Waiting(t, todo[1..])
  {
    assert forall i :: 0 <= i < |todo| - 1 ==> todo[1..][i] == todo[i + 1];
  }

  lemma {:induction false} FillCounts(s: State, todo: seq<Probe>, catalog: seq<Card>, tp: Throughput)
    requires HostsCounted(s)
    ensures HostsCounted(Fill(s, todo, catalog, tp))
    ensures Waiting(s, todo) && NoneElse(s) ==> NoneElse(Fill(s, todo, catalog, tp))
    decreases |todo|
  {
    if |todo| > 0 {
      var next := FillOne(s, todo[0], catalog, tp);
      FillAnswersOne(s, todo[0], catalog, tp);
      AnswersCounted(s, next, todo[0].node);
      if Waiting(s, todo) { StillWaiting(s, next, todo); }
      FillCounts(next, todo[1..], catalog, tp);
    }
  }

  lemma {:induction false} PromoteCounts(s: State, todo: seq<Probe>, heavy: Domain, catalog: seq<Card>, tp: Throughput)
    requires HostsCounted(s)
    ensures HostsCounted(Promote(s, todo, heavy, catalog, tp))
    ensures Waiting(s, todo) && NoneElse(s) ==> NoneElse(Promote(s, todo, heavy, catalog, tp))
    decreases |todo|
  {
    if |todo| > 0 {
      var next := PromoteOne(s, todo[0], heavy, catalog, tp);
      PromoteAnswersOne(s, todo[0], heavy, catalog, tp);
      AnswersCounted(s, next, todo[0].node);
      if Waiting(s, todo) { StillWaiting(s, next, todo); }
      PromoteCounts(next, todo[1..], heavy, catalog, tp);
    }
  }

  lemma OneHostCounts(nodes: seq<Probe>, catalog: seq<Card>, s: State)
    requires OneHost(nodes, catalog, s)
    ensures HostsCounted(s) && NoneElse(s)
  {
    forall d, n ensures HostOf(s.cov, d, n) <==> n in s.plan.at && Carries(s.plan.at[n], d) { assert Counted(s, d, n); }
  }

  lemma {:induction false} ExceptDistinct(ps: seq<Probe>, n: NodeId)
    requires Distinct(ps)
    ensures Distinct(Except(ps, n))
  {
    if |ps| > 0 {
      var rest := ps[1..];
      assert forall i :: 0 <= i < |rest| ==> rest[i] == ps[i + 1];
      ExceptDistinct(rest, n);
      ExceptIn(rest, n);
      forall p | p in Except(rest, n) ensures p.node != ps[0].node {
        var k :| 0 <= k < |rest| && rest[k] == p;
        assert ps[k + 1] == p;
      }
    }
  }

  lemma {:induction false} CoverDistinct(s: State, cards: seq<Card>, uncovered: set<Domain>, catalog: seq<Card>, tp: Throughput)
    requires Distinct(s.remaining)
    ensures Distinct(Cover(s, cards, uncovered, catalog, tp).remaining)
    decreases |s.remaining|
  {
    if |s.remaining| > 0 && |uncovered| > 0 && Best(s.remaining, cards, s.cov, tp, uncovered).Some? {
      var best := Best(s.remaining, cards, s.cov, tp, uncovered).value;
      ExceptDistinct(s.remaining, best.probe.node);
      CoverDistinct(Place(s, best, catalog, tp), cards, uncovered - {best.card.domain}, catalog, tp);
    }
  }

  lemma SecondedDistinct(nodes: seq<Probe>, catalog: seq<Card>, traffic: seq<Share>, tp: Throughput)
    requires Distinct(nodes)
    ensures Distinct(Seconded(nodes, catalog, traffic, tp).remaining)
  {
    var one, two := OfTier(catalog, 1), OfTier(catalog, 2);
    var hot := Within(OfTier(catalog, 3), Hot(traffic) * TIER_3);
    var s0 := Start(nodes);
    CoverDistinct(s0, one, Domains(one) - s0.cov.Keys, catalog, tp);
    var s1 := FillTier(s0, one, catalog, tp);
    CoverDistinct(s1, two, Domains(two) - s1.cov.Keys, catalog, tp);
    var s2 := FillTier(s1, two, catalog, tp);
    CoverDistinct(s2, hot, Domains(hot) - s2.cov.Keys, catalog, tp);
    var s := Tiers(nodes, catalog, traffic, tp);
    TiersMatch(nodes, catalog, traffic, tp);
    AttachKeeps(nodes, catalog, s, s.plan.order, s.plan.at, tp);
  }

  /** The state a strategy ends in, before nodes without a suggestion are marked. */
  function Final(nodes: seq<Probe>, catalog: seq<Card>, traffic: seq<Share>, strategy: Strategy, tp: Throughput): State {
    match strategy
    case BestPerMachine => Fill(Start(nodes), nodes, catalog, tp)
    case FullSet => FullSetState(nodes, catalog, tp)
    case Tiered => Promoted(nodes, catalog, traffic, tp)
  }

  /** The coverage under which cards are scored is that of the plan: every host of a domain is counted, and with
      distinct ids no other node is. */
  lemma CoverageIsHosts(nodes: seq<Probe>, catalog: seq<Card>, traffic: seq<Share>, strategy: Strategy, tp: Throughput)
    ensures var t := Final(nodes, catalog, traffic, strategy, tp);
            && t.plan == Allocate(nodes, catalog, traffic, strategy, tp)
            && HostsCounted(t) && (Distinct(nodes) ==> NoneElse(t))
  {
    match strategy
    case BestPerMachine =>
      FillCounts(Start(nodes), nodes, catalog, tp);
    case FullSet =>
      var s := Covered(nodes, catalog, tp);
      CoveredFacts(nodes, catalog, tp);
      OneHostCounts(nodes, catalog, s);
      if Distinct(nodes) { CoverDistinct(Start(nodes), catalog, Domains(catalog) - Start(nodes).cov.Keys, catalog, tp); }
      FillCounts(s, s.remaining, catalog, tp);
    case Tiered =>
      var s := Seconded(nodes, catalog, traffic, tp);
      SecondedFacts(nodes, catalog, traffic, tp);
      OneHostCounts(nodes, catalog, s);
      if Distinct(nodes) { SecondedDistinct(nodes, catalog, traffic, tp); }
      PromoteCounts(s, s.remaining, Heavy(traffic), catalog, tp);
      EveryNodeIsPromoted(nodes, catalog, traffic, tp);
  }

  // ----- the order of the tiers -----

  predicate ComesBefore(d: Domain, e: Domain) {
    (d in TIER_1 && e !in TIER_1) || (d !in TIER_3 && e in TIER_3)
  }

  lemma NotYetPlaced(nodes: seq<Probe>, catalog: seq<Card>, s: State, t: State, cards: seq<Card>, domains: set<Domain>,
                     n: NodeId, c: Card)
    requires Kept(nodes, catalog, s) && Exhausted(s, cards) && Grows(s, t, domains) && n in t.plan.at
    requires t.plan.at[n].primary.Some? && t.plan.at[n].primary.value.domain !in s.cov
    requires c in cards && CanHost(nodes, n, c)
    ensures c.domain in t.cov
  {
    if n in s.plan.at { PlacedIsCovered(nodes, catalog, s, n); }
    LeftoverCovered(nodes, cards, s, n, c);
  }

  lemma PlacedIsCovered(nodes: seq<Probe>, catalog: seq<Card>, s: State, n: NodeId)
    requires OneHost(nodes, catalog, s) && n in s.plan.at && s.plan.at[n].primary.Some?
    ensures s.plan.at[n].primary.value.domain in s.cov
  {
    assert Counted(s, s.plan.at[n].primary.value.domain, n);
  }

  lemma ThirdTierLast(nodes: seq<Probe>, catalog: seq<Card>, traffic: seq<Share>, tp: Throughput)
    ensures Grows(TwoTiers(nodes, catalog, tp), Tiers(nodes, catalog, traffic, tp), Domains(catalog))
  {
    var s, hot := TwoTiers(nodes, catalog, tp), Within(OfTier(catalog, 3), Hot(traffic) * TIER_3);
    OfTierIn(catalog, 3);
    WithinIn(OfTier(catalog, 3), Hot(traffic) * TIER_3);
    TwoTiersMatch(nodes, catalog, tp);
    if |Hot(traffic)| != 0 { TierMatches(nodes, s, hot, catalog, tp); }
  }

  function FirstTier(nodes: seq<Probe>, catalog: seq<Card>, tp: Throughput): State {
    FillTier(Start(nodes), OfTier(catalog, 1), catalog, tp)
  }

  lemma FirstTierMatches(nodes: seq<Probe>, catalog: seq<Card>, tp: Throughput)
    ensures var s := FirstTier(nodes, catalog, tp);
            && Kept(nodes, catalog, s) && Exhausted(s, OfTier(catalog, 1)) && s.cov.Keys <= Domains(OfTier(catalog, 1))
            && Grows(s, TwoTiers(nodes, catalog, tp), Domains(catalog))
  {
    OfTierIn(catalog, 1);
    OfTierIn(catalog, 2);
    TierMatches(nodes, Start(nodes), OfTier(catalog, 1), catalog, tp);
    TierMatches(nodes, FirstTier(nodes, catalog, tp), OfTier(catalog, 2), catalog, tp);
  }

  lemma FirstBeforeRest(nodes: seq<Probe>, catalog: seq<Card>, t: State, tp: Throughput, n: NodeId, c: Card)
    requires Grows(TwoTiers(nodes, catalog, tp), t, Domains(catalog)) && n in t.plan.at && t.plan.at[n].primary.Some?
    requires t.plan.at[n].primary.value.domain !in Domains(OfTier(catalog, 1))
    requires c in OfTier(catalog, 1) && CanHost(nodes, n, c)
    ensures c.domain in t.cov
  {
    FirstTierMatches(nodes, catalog, tp);
    GrowsOn(FirstTier(nodes, catalog, tp), TwoTiers(nodes, catalog, tp), t, Domains(catalog));
    NotYetPlaced(nodes, catalog, FirstTier(nodes, catalog, tp), t, OfTier(catalog, 1), Domains(catalog), n, c);
  }

  lemma SecondBeforeThird(nodes: seq<Probe>, catalog: seq<Card>, t: State, tp: Throughput, n: NodeId, c: Card)
    requires Grows(TwoTiers(nodes, catalog, tp), t, Domains(catalog)) && n in t.plan.at && t.plan.at[n].primary.Some?
    requires t.plan.at[n].primary.value.domain !in Domains(OfTier(catalog, 1)) + Domains(OfTier(catalog, 2))
    requires c in OfTier(catalog, 2) && CanHost(nodes, n, c)
    ensures c.domain in t.cov
  {
    TwoTiersMatch(nodes, catalog, tp);
    NotYetPlaced(nodes, catalog, TwoTiers(nodes, catalog, tp), t, OfTier(catalog, 2), Domains(catalog), n, c);
  }

  lemma TiersApart(catalog: seq<Card>, c: Card, e: Domain)
    requires c in catalog && ComesBefore(c.domain, e)
    ensures if c.domain in TIER_1 then c in OfTier(catalog, 1) && e !in Domains(OfTier(catalog, 1))
            else c in OfTier(catalog, 2) && e !in Domains(OfTier(catalog, 1)) + Domains(OfTier(catalog, 2))
  {
    OfTierIn(catalog, 1);
    OfTierIn(catalog, 2);
  }

  /** The tiers are filled in order: a node whose primary belongs to a later tier fits no open domain of an earlier one. */
  lemma TiersInOrder(nodes: seq<Probe>, catalog: seq<Card>, traffic: seq<Share>, tp: Throughput, n: NodeId, c: Card)
    requires n in Seconded(nodes, catalog, traffic, tp).plan.at && c in catalog && CanHost(nodes, n, c)
    requires Seconded(nodes, catalog, traffic, tp).plan.at[n].primary.Some?
    requires ComesBefore(c.domain, Seconded(nodes, catalog, traffic, tp).plan.at[n].primary.value.domain)
    ensures c.domain in Seconded(nodes, catalog, traffic, tp).cov
  {
    SecondedKeeps(nodes, catalog, traffic, tp);
    TiersApart(catalog, c, Seconded(nodes, catalog, traffic, tp).plan.at[n].primary.value.domain);
    ThirdTierLast(nodes, catalog, traffic, tp);
    if c.domain in TIER_1 {
      FirstBeforeRest(nodes, catalog, Tiers(nodes, catalog, traffic, tp), tp, n, c);
    } else {
      SecondBeforeThird(nodes, catalog, Tiers(nodes, catalog, traffic, tp), tp, n, c);
    }
  }

  lemma SecondedKeeps(nodes: seq<Probe>, catalog: seq<Card>, traffic: seq<Share>, tp: Throughput)
    ensures var s, t := Tiers(nodes, catalog, traffic, tp), Seconded(nodes, catalog, traffic, tp);
            && t.plan.at.Keys == s.plan.at.Keys && s.cov.Keys <= t.cov.Keys
            && forall n :: n in s.plan.at ==> t.plan.at[n].primary == s.plan.at[n].primary
  {
    var s := Tiers(nodes, catalog, traffic, tp);
    TiersMatch(nodes, catalog, traffic, tp);
    AttachKeeps(nodes, catalog, s, s.plan.order, s.plan.at, tp);
  }
}
