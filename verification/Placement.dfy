/** What the allocator's plans guarantee (mesh/allocator.py): the matching built by the greedy loop, how
    good it is, and the invariants of secondaries, replicas and fills. */
module Placement {
  import opened Wrappers
  import opened Scoring
  import opened Allocator

  // ----- the picks -----

  predicate Open(c: Card, p: Probe, uncovered: set<Domain>) {
    c.domain in uncovered && Eligible(c, p)
  }

  ghost predicate FirstAt(ranked: seq<Scored>, uncovered: set<Domain>, k: int) {
    && 0 <= k < |ranked| && Some(ranked[k]) == Top(ranked, uncovered)
    && forall j :: 0 <= j < k ==> !Usable(ranked[j], uncovered)
  }

  lemma {:induction false} TopIsFirst(ranked: seq<Scored>, uncovered: set<Domain>)
    ensures Top(ranked, uncovered).None? ==> forall r :: r in ranked ==> !Usable(r, uncovered)
    ensures Top(ranked, uncovered).Some? ==> exists k :: FirstAt(ranked, uncovered, k)
  {
    if |ranked| == 0 {
    } else if Usable(ranked[0], uncovered) {
      assert FirstAt(ranked, uncovered, 0);
    } else {
      var tail := ranked[1..];
      assert ranked == [ranked[0]] + tail;
      TopIsFirst(tail, uncovered);
      if Top(tail, uncovered).Some? {
        var k :| FirstAt(tail, uncovered, k);
        assert FirstAt(ranked, uncovered, k + 1);
      }
    }
  }

  ghost predicate BestOf(pick: Pick, ps: seq<Probe>, cards: seq<Card>, cov: Coverage, tp: Throughput, uncovered: set<Domain>) {
    && pick.probe in ps && pick.card in cards && Open(pick.card, pick.probe, uncovered)
    && Score(pick.card, pick.probe, cov, tp) == Some(pick.score)
    && forall p, c :: p in ps && c in cards && Open(c, p, uncovered) ==> !Beats(Score(c, p, cov, tp), Some(pick.score))
  }

  lemma TopIsBest(p: Probe, cards: seq<Card>, cov: Coverage, tp: Throughput, uncovered: set<Domain>)
    ensures var top := Top(Rank(p, cards, cov, tp), uncovered);
            && (top.None? ==> forall c :: c in cards ==> !Open(c, p, uncovered))
            && (top.Some? ==> BestOf(Pick(top.value.score.value, p, top.value.card), [p], cards, cov, tp, uncovered))
  {
    var r := Rank(p, cards, cov, tp);
    var top := Top(r, uncovered);
    RankFacts(p, cards, cov, tp);
    TopIsFirst(r, uncovered);
    forall c | c in cards && Open(c, p, uncovered)
      ensures top.Some? && !Beats(Score(c, p, cov, tp), top.value.score)
    {
      FiniteIffEligible(c, p, cov, tp);
      var x := Scored(Score(c, p, cov, tp), c);
      assert Scoring.Fits(x, p, cards, cov, tp) && Usable(x, uncovered);
      var k :| FirstAt(r, uncovered, k);
      var i :| 0 <= i < |r| && r[i] == x;
      if k < i { assert !Beats(r[i].score, r[k].score); }
    }
    if top.Some? {
      assert Scoring.Fits(top.value, p, cards, cov, tp);
      FiniteIffEligible(top.value.card, p, cov, tp);
    }
  }

  /** The outer loop finds the best open pair of all remaining nodes, or there is none. */
  lemma {:induction false} BestIsBest(ps: seq<Probe>, cards: seq<Card>, cov: Coverage, tp: Throughput, uncovered: set<Domain>)
    ensures var best := Best(ps, cards, cov, tp, uncovered);
            && (best.None? ==> forall p, c :: p in ps && c in cards ==> !Open(c, p, uncovered))
            && (best.Some? ==> BestOf(best.value, ps, cards, cov, tp, uncovered))
  {
    if |ps| > 0 {
      var front, last := ps[..|ps| - 1], ps[|ps| - 1];
      assert ps == front + [last];
      BestIsBest(front, cards, cov, tp, uncovered);
      TopIsBest(last, cards, cov, tp, uncovered);
    }
  }

  // ----- the alternates -----

  lemma {:induction false} FiniteIn(ranked: seq<Scored>)
    ensures forall c :: c in Finite(ranked) <==> exists r :: r in ranked && r.score.Some? && r.card == c
  {
    if |ranked| > 0 {
      assert ranked == [ranked[0]] + ranked[1..];
      FiniteIn(ranked[1..]);
    }
  }

  lemma {:induction false} OthersIn(cards: seq<Card>, specialist: string)
    ensures forall c :: c in Others(cards, specialist) <==> c in cards && c.specialist != specialist
  {
    if |cards| > 0 {
      assert cards == [cards[0]] + cards[1..];
      OthersIn(cards[1..], specialist);
    }
  }

  lemma {:induction false} FiniteSorted(ranked: seq<Scored>, p: Probe, cov: Coverage, tp: Throughput)
    requires BestFirst(ranked) && forall r :: r in ranked ==> r.score == Score(r.card, p, cov, tp)
    ensures CardsBestFirst(Finite(ranked), p, cov, tp)
  {
    if |ranked| > 0 {
      var head, rest := ranked[0], ranked[1..];
      assert ranked == [head] + rest;
      assert BestFirst(rest) by { assert forall i :: 0 <= i < |rest| ==> rest[i] == ranked[i + 1]; }
      FiniteSorted(rest, p, cov, tp);
      FiniteIn(rest);
      forall c | c in Finite(rest) ensures !Beats(Score(c, p, cov, tp), head.score) {
        var r :| r in rest && r.score.Some? && r.card == c;
        var k :| 0 <= k < |rest| && rest[k] == r;
        assert ranked[k + 1] == r;
      }
      if head.score.Some? { ListCons(head.card, Finite(rest), p, cov, tp); }
    }
  }

  predicate CardsBestFirst(cards: seq<Card>, p: Probe, cov: Coverage, tp: Throughput) {
    forall i, j :: 0 <= i < j < |cards| ==> !Beats(Score(cards[j], p, cov, tp), Score(cards[i], p, cov, tp))
  }

  lemma ListCons(c: Card, cards: seq<Card>, p: Probe, cov: Coverage, tp: Throughput)
    requires CardsBestFirst(cards, p, cov, tp)
    requires forall x :: x in cards ==> !Beats(Score(x, p, cov, tp), Score(c, p, cov, tp))
    ensures CardsBestFirst([c] + cards, p, cov, tp)
  {
    var all := [c] + cards;
    forall i, j | 0 <= i < j < |all| ensures !Beats(Score(all[j], p, cov, tp), Score(all[i], p, cov, tp)) {
      assert all[j] in cards;
    }
  }

  lemma {:induction false} OthersSorted(cards: seq<Card>, specialist: string, p: Probe, cov: Coverage, tp: Throughput)
    requires CardsBestFirst(cards, p, cov, tp)
    ensures CardsBestFirst(Others(cards, specialist), p, cov, tp)
  {
    if |cards| > 0 {
      var c, rest := cards[0], cards[1..];
      assert CardsBestFirst(rest, p, cov, tp) by { assert forall i :: 0 <= i < |rest| ==> rest[i] == cards[i + 1]; }
      OthersSorted(rest, specialist, p, cov, tp);
      OthersIn(rest, specialist);
      forall x | x in Others(rest, specialist) ensures !Beats(Score(x, p, cov, tp), Score(c, p, cov, tp)) {
        var k :| 0 <= k < |rest| && rest[k] == x;
        assert cards[k + 1] == x;
      }
      if c.specialist != specialist { ListCons(c, Others(rest, specialist), p, cov, tp); }
    }
  }

  lemma OthersRanked(p: Probe, catalog: seq<Card>, cov: Coverage, tp: Throughput, specialist: string)
    ensures var all := Others(Finite(Rank(p, catalog, cov, tp)), specialist);
            && CardsBestFirst(all, p, cov, tp)
            && forall c :: c in catalog && Eligible(c, p) && c.specialist != specialist ==> c in all
  {
    var ranked := Rank(p, catalog, cov, tp);
    RankFacts(p, catalog, cov, tp);
    FiniteSorted(ranked, p, cov, tp);
    OthersSorted(Finite(ranked), specialist, p, cov, tp);
    FiniteIn(ranked);
    OthersIn(Finite(ranked), specialist);
    forall c | c in catalog && Eligible(c, p) ensures c in Finite(ranked) {
      FiniteIffEligible(c, p, cov, tp);
      assert Scoring.Fits(Scored(Score(c, p, cov, tp), c), p, catalog, cov, tp);
    }
  }

  // ----- what covering keeps -----

  /** Node `n` of the fleet passes the hard filters of card `c`. */
  ghost predicate CanHost(nodes: seq<Probe>, n: NodeId, c: Card) {
    exists p :: p in nodes && p.node == n && Eligible(c, p)
  }

  predicate Carries(g: Suggestion, d: Domain) {
    (g.primary.Some? && g.primary.value.domain == d) || exists c :: c in g.secondaries && c.domain == d
  }

  predicate HostOf(cov: Coverage, d: Domain, n: NodeId) { d in cov && n in cov[d] }

  /** The coverage map says node `n` hosts domain `d` exactly when its suggestion does. */
  ghost predicate Counted(s: State, d: Domain, n: NodeId) {
    HostOf(s.cov, d, n) <==> n in s.plan.at && Carries(s.plan.at[n], d)
  }

  ghost predicate Placed(nodes: seq<Probe>, catalog: seq<Card>, n: NodeId, g: Suggestion) {
    && g.primary.Some? && g.primary.value in catalog && CanHost(nodes, n, g.primary.value)
    && forall c :: c in g.secondaries ==> c in catalog && CanHost(nodes, n, c)
  }

  ghost predicate Single(hosts: set<NodeId>) { exists n :: hosts == {n} }

  /** Every covered domain has exactly one host, and it is the node that carries it. */
  ghost predicate OneHost(nodes: seq<Probe>, catalog: seq<Card>, s: State) {
    && (forall n :: n in s.plan.at ==> Placed(nodes, catalog, n, s.plan.at[n]))
    && (forall d, n :: Counted(s, d, n))
    && (forall d :: d in s.cov ==> Single(s.cov[d]))
  }

  /** The loops carry exactly the nodes that have no suggestion. */
  ghost predicate Left(nodes: seq<Probe>, s: State) {
    forall p :: p in s.remaining <==> p in nodes && p.node !in s.plan.at
  }

  ghost predicate Bare(plan: Plan) {
    && (forall n :: n in plan.order <==> n in plan.at)
    && (forall i, j :: 0 <= i < j < |plan.order| ==> plan.order[i] != plan.order[j])
    && (forall n :: n in plan.at ==> plan.at[n].secondaries == [])
  }

  ghost predicate Kept(nodes: seq<Probe>, catalog: seq<Card>, s: State) {
    OneHost(nodes, catalog, s) && Left(nodes, s) && Bare(s.plan)
  }

  /** No remaining node can host a domain of `cards` that nobody covers. */
  ghost predicate Exhausted(s: State, cards: seq<Card>) {
    forall p, c :: p in s.remaining && c in cards && Eligible(c, p) ==> c.domain in s.cov
  }

  ghost predicate Grows(s: State, t: State, domains: set<Domain>) {
    && s.cov.Keys <= t.cov.Keys <= s.cov.Keys + domains
    && (forall n :: n in s.plan.at ==> n in t.plan.at && t.plan.at[n] == s.plan.at[n])
    && (forall p :: p in t.remaining ==> p in s.remaining)
  }

  lemma {:induction false} ExceptIn(ps: seq<Probe>, n: NodeId)
    ensures forall p :: p in Except(ps, n) <==> p in ps && p.node != n
  {
    if |ps| > 0 {
      assert ps == [ps[0]] + ps[1..];
      ExceptIn(ps[1..], n);
    }
  }

  lemma PutBare(plan: Plan, n: NodeId, g: Suggestion)
    requires Bare(plan) && g.secondaries == []
    ensures Bare(Put(plan, n, g))
  {
    forall m ensures m in Put(plan, n, g).order <==> m in Put(plan, n, g).at {
      assert m in plan.order + [n] <==> m in plan.order || m == n;
    }
  }

  ghost predicate Fresh(nodes: seq<Probe>, catalog: seq<Card>, s: State, n: NodeId, c: Card) {
    n !in s.plan.at && c in catalog && CanHost(nodes, n, c) && c.domain !in s.cov
  }

  lemma PlaceOneHost(nodes: seq<Probe>, catalog: seq<Card>, s: State, pick: Pick, tp: Throughput)
    requires OneHost(nodes, catalog, s) && Fresh(nodes, catalog, s, pick.probe.node, pick.card)
    ensures OneHost(nodes, catalog, Place(s, pick, catalog, tp))
  {
    var t := Place(s, pick, catalog, tp);
    forall d, n ensures Counted(t, d, n) { assert Counted(s, d, n); }
    forall d | d in t.cov ensures Single(t.cov[d]) {
      if d == pick.card.domain { assert t.cov[d] == {pick.probe.node}; } else { assert Single(s.cov[d]); }
    }
    forall n | n in t.plan.at ensures Placed(nodes, catalog, n, t.plan.at[n]) {
      assert n in s.plan.at ==> Placed(nodes, catalog, n, s.plan.at[n]);
    }
  }

  lemma PlaceKeeps(nodes: seq<Probe>, catalog: seq<Card>, s: State, pick: Pick, tp: Throughput)
    requires Kept(nodes, catalog, s) && pick.probe in s.remaining && pick.card in catalog
    requires Eligible(pick.card, pick.probe) && pick.card.domain !in s.cov
    ensures Kept(nodes, catalog, Place(s, pick, catalog, tp))
    ensures Grows(s, Place(s, pick, catalog, tp), {pick.card.domain})
    ensures pick.card.domain in Place(s, pick, catalog, tp).cov
  {
    PlaceOneHost(nodes, catalog, s, pick, tp);
    ExceptIn(s.remaining, pick.probe.node);
    PutBare(s.plan, pick.probe.node, Place(s, pick, catalog, tp).plan.at[pick.probe.node]);
  }

  lemma NoPairLeft(s: State, cards: seq<Card>, uncovered: set<Domain>, tp: Throughput)
    requires uncovered == Domains(cards) - s.cov.Keys
    requires |s.remaining| == 0 || |uncovered| == 0 || Best(s.remaining, cards, s.cov, tp, uncovered).None?
    ensures Exhausted(s, cards)
  {
    BestIsBest(s.remaining, cards, s.cov, tp, uncovered);
    forall p, c | p in s.remaining && c in cards && Eligible(c, p) ensures c.domain in s.cov {
      assert c.domain in Domains(cards);
      assert c.domain in uncovered ==> Open(c, p, uncovered);
    }
  }

  lemma CoverStep(s: State, cards: seq<Card>, uncovered: set<Domain>, catalog: seq<Card>, tp: Throughput, best: Pick)
    requires |s.remaining| > 0 && |uncovered| > 0
    requires Best(s.remaining, cards, s.cov, tp, uncovered) == Some(best)
    ensures Cover(s, cards, uncovered, catalog, tp)
            == Cover(Place(s, best, catalog, tp), cards, uncovered - {best.card.domain}, catalog, tp)
  {}

  lemma PlaceNext(nodes: seq<Probe>, s: State, cards: seq<Card>, uncovered: set<Domain>, catalog: seq<Card>,
                  tp: Throughput, best: Pick)
    requires Kept(nodes, catalog, s) && uncovered == Domains(cards) - s.cov.Keys
    requires forall c :: c in cards ==> c in catalog
    requires Best(s.remaining, cards, s.cov, tp, uncovered) == Some(best)
    ensures Kept(nodes, catalog, Place(s, best, catalog, tp))
    ensures Grows(s, Place(s, best, catalog, tp), Domains(cards))
    ensures |Place(s, best, catalog, tp).remaining| < |s.remaining|
    ensures uncovered - {best.card.domain} == Domains(cards) - Place(s, best, catalog, tp).cov.Keys
  {
    BestIsBest(s.remaining, cards, s.cov, tp, uncovered);
    PlaceKeeps(nodes, catalog, s, best, tp);
    assert {best.card.domain} <= Domains(cards);
  }

  lemma GrowsOn(s: State, t: State, u: State, domains: set<Domain>)
    requires Grows(s, t, domains) && Grows(t, u, domains)
    ensures Grows(s, u, domains)
  {}

  /** Covering builds a matching of nodes and domains, and stops only when no open pair is left. */
  lemma {:induction false} CoverMatches(nodes: seq<Probe>, s: State, cards: seq<Card>, uncovered: set<Domain>,
                                        catalog: seq<Card>, tp: Throughput)
    requires Kept(nodes, catalog, s) && uncovered == Domains(cards) - s.cov.Keys
    requires forall c :: c in cards ==> c in catalog
    ensures var t := Cover(s, cards, uncovered, catalog, tp);
            Kept(nodes, catalog, t) && Exhausted(t, cards) && Grows(s, t, Domains(cards))
    decreases |s.remaining|
  {
    if |s.remaining| == 0 || |uncovered| == 0 || Best(s.remaining, cards, s.cov, tp, uncovered).None? {
      NoPairLeft(s, cards, uncovered, tp);
    } else {
      var best := Best(s.remaining, cards, s.cov, tp, uncovered).value;
      PlaceNext(nodes, s, cards, uncovered, catalog, tp, best);
      CoverStep(s, cards, uncovered, catalog, tp, best);
      var next := Place(s, best, catalog, tp);
      var rest := uncovered - {best.card.domain};
      CoverMatches(nodes, next, cards, rest, catalog, tp);
      GrowsOn(s, next, Cover(next, cards, rest, catalog, tp), Domains(cards));
    }
  }

  // ----- full_set -----

  function Start(nodes: seq<Probe>): State { State(Plan([], map[]), map[], nodes) }

  function Covered(nodes: seq<Probe>, catalog: seq<Card>, tp: Throughput): State {
    FillTier(Start(nodes), catalog, catalog, tp)
  }

  function FullSetState(nodes: seq<Probe>, catalog: seq<Card>, tp: Throughput): State {
    var s := Covered(nodes, catalog, tp);
    Fill(s, s.remaining, catalog, tp)
  }

  lemma CoveredFacts(nodes: seq<Probe>, catalog: seq<Card>, tp: Throughput)
    ensures Kept(nodes, catalog, Covered(nodes, catalog, tp)) && Exhausted(Covered(nodes, catalog, tp), catalog)
  {
    CoverMatches(nodes, Start(nodes), catalog, Domains(catalog), catalog, tp);
    assert Domains(catalog) - Start(nodes).cov.Keys == Domains(catalog);
  }

  function Hosted(plan: Plan): set<Domain> {
    set n | n in plan.at && plan.at[n].primary.Some? :: plan.at[n].primary.value.domain
  }

  /** best_per_machine and the fill phase give a node the best card of the whole catalog under the coverage so far. */
  lemma FillPicksBest(s: State, p: Probe, catalog: seq<Card>, tp: Throughput)
    ensures var t := FillOne(s, p, catalog, tp);
            var g := t.plan.at[p.node];
            && (g.primary.None? ==> g == NO_FIT && t.cov == s.cov && forall c :: c in catalog ==> !Eligible(c, p))
            && (g.primary.Some? ==>
                  && g.primary.value in catalog && Eligible(g.primary.value, p) && HostOf(t.cov, g.primary.value.domain, p.node)
                  && g.fit == Score(g.primary.value, p, s.cov, tp)
                  && forall c :: c in catalog && Eligible(c, p) ==> !Beats(Score(c, p, s.cov, tp), g.fit))
  {
    BestCard(p, catalog, s.cov, tp);
    RankFacts(p, catalog, s.cov, tp);
    var ranked := Rank(p, catalog, s.cov, tp);
    if |ranked| > 0 { assert Scoring.Fits(ranked[0], p, catalog, s.cov, tp); }
  }

  /** What the filling of `todo` may touch: its own nodes, and domains that are covered already. */
  ghost predicate Fills(s: State, t: State, todo: seq<Probe>) {
    && t.cov.Keys == s.cov.Keys
    && (forall n :: n in s.plan.at ==> n in t.plan.at)
    && (forall p :: p in todo ==> p.node in t.plan.at)
    && (forall n :: n in t.plan.at && (forall p :: p in todo ==> p.node != n) ==> n in s.plan.at && t.plan.at[n] == s.plan.at[n])
    && (forall n :: n in t.plan.at && (exists p :: p in todo && p.node == n) && t.plan.at[n].primary.Some?
          ==> t.plan.at[n].primary.value.domain in s.cov)
  }

  /** Filling after covering adds no domain. */
  lemma {:induction false} FillAddsNoDomain(s: State, todo: seq<Probe>, catalog: seq<Card>, tp: Throughput)
    requires forall p, c :: p in todo && c in catalog && Eligible(c, p) ==> c.domain in s.cov
    ensures Fills(s, Fill(s, todo, catalog, tp), todo)
    decreases |todo|
  {
    if |todo| > 0 {
      var p, rest := todo[0], todo[1..];
      assert todo == [p] + rest;
      var next := FillOne(s, p, catalog, tp);
      BestCard(p, catalog, s.cov, tp);
      assert next.cov.Keys == s.cov.Keys;
      FillAddsNoDomain(next, rest, catalog, tp);
    }
  }

  /** The fill phase adds no domain: what full_set hosts is what its greedy phase covered. */
  lemma FullSetHosts(nodes: seq<Probe>, catalog: seq<Card>, tp: Throughput)
    ensures Hosted(FullSetState(nodes, catalog, tp).plan) == Covered(nodes, catalog, tp).cov.Keys
    ensures Fills(Covered(nodes, catalog, tp), FullSetState(nodes, catalog, tp), Covered(nodes, catalog, tp).remaining)
  {
    var s, t := Covered(nodes, catalog, tp), FullSetState(nodes, catalog, tp);
    CoveredFacts(nodes, catalog, tp);
    FillAddsNoDomain(s, s.remaining, catalog, tp);
    forall n | n in t.plan.at && t.plan.at[n].primary.Some? ensures t.plan.at[n].primary.value.domain in s.cov {
      if n in s.plan.at && t.plan.at[n] == s.plan.at[n] { assert Counted(s, s.plan.at[n].primary.value.domain, n); }
    }
    forall d | d in s.cov ensures d in Hosted(t.plan) {
      assert Single(s.cov[d]);
      var n :| s.cov[d] == {n};
      assert HostOf(s.cov, d, n) && Counted(s, d, n);
      assert t.plan.at[n] == s.plan.at[n] && s.plan.at[n].primary.Some?;
      assert n in t.plan.at && t.plan.at[n].primary.value.domain == d;
    }
  }

  /** Any placement of one fitting card per node. */
  ghost predicate Assignment(nodes: seq<Probe>, catalog: seq<Card>, g: map<NodeId, Card>) {
    forall n :: n in g ==> g[n] in catalog && CanHost(nodes, n, g[n])
  }

  lemma {:induction false} ImageSize(ns: set<NodeId>, f: map<NodeId, Domain>)
    requires ns <= f.Keys
    ensures |set n | n in ns :: f[n]| <= |ns|
  {
    if |ns| > 0 {
      var n := Inhabited(ns);
      var all, rest := set m | m in ns :: f[m], set m | m in ns - {n} :: f[m];
      ImageSize(ns - {n}, f);
      assert all == rest + {f[n]};
    }
  }

  lemma {:induction false} InjectionSize(ns: set<NodeId>, f: map<NodeId, Domain>, ds: set<Domain>)
    requires ns <= f.Keys && (forall n :: n in ns ==> f[n] in ds)
    requires forall n, m :: n in ns && m in ns && f[n] == f[m] ==> n == m
    ensures |ns| <= |ds|
  {
    if |ns| > 0 {
      var n := Inhabited(ns);
      InjectionSize(ns - {n}, f, ds - {f[n]});
    }
  }

  /** The greedy phase gives at most one node to a domain. */
  lemma MatchedNodesFew(nodes: seq<Probe>, catalog: seq<Card>, s: State)
    requires Kept(nodes, catalog, s)
    ensures |s.plan.at.Keys| <= |s.cov.Keys|
  {
    var f := map n | n in s.plan.at && s.plan.at[n].primary.Some? :: s.plan.at[n].primary.value.domain;
    forall n | n in s.plan.at ensures n in f && HostOf(s.cov, f[n], n) {
      assert Placed(nodes, catalog, n, s.plan.at[n]);
      assert Counted(s, s.plan.at[n].primary.value.domain, n);
    }
    forall n, m | n in s.plan.at && m in s.plan.at && f[n] == f[m] ensures n == m {
      assert HostOf(s.cov, f[n], n) && HostOf(s.cov, f[m], m) && Single(s.cov[f[n]]);
    }
    InjectionSize(s.plan.at.Keys, f, s.cov.Keys);
  }

  /** full_set hosts at least half the domains that any placement of one card per node could host. */
  lemma HalfOptimal(nodes: seq<Probe>, catalog: seq<Card>, tp: Throughput, g: map<NodeId, Card>)
    requires Assignment(nodes, catalog, g)
    ensures |set n | n in g :: g[n].domain| <= 2 * |Hosted(FullSetState(nodes, catalog, tp).plan)|
  {
    var s := Covered(nodes, catalog, tp);
    CoveredFacts(nodes, catalog, tp);
    FullSetHosts(nodes, catalog, tp);
    MatchedNodesFew(nodes, catalog, s);
    var f := map n | n in g :: g[n].domain;
    var taken := g.Keys * s.plan.at.Keys;
    var moved := set n | n in taken :: f[n];
    ImageSize(taken, f);
    SubsetSize(taken, s.plan.at.Keys);
    forall n | n in g ensures g[n].domain in s.cov.Keys + moved {
      if n in taken { assert f[n] in moved; } else { LeftoverCovered(nodes, catalog, s, n, g[n]); }
    }
    SubsetSize(set n | n in g :: g[n].domain, s.cov.Keys + moved);
  }

  lemma LeftoverCovered(nodes: seq<Probe>, catalog: seq<Card>, s: State, n: NodeId, c: Card)
    requires Left(nodes, s) && Exhausted(s, catalog) && n !in s.plan.at && c in catalog && CanHost(nodes, n, c)
    ensures c.domain in s.cov
  {
    var p :| p in nodes && p.node == n && Eligible(c, p);
    assert p in s.remaining;
  }

  ghost predicate NothingNewFor(nodes: seq<Probe>, catalog: seq<Card>, plan: Plan, n: NodeId) {
    forall c :: c in catalog && CanHost(nodes, n, c) ==> c.domain in Hosted(plan)
  }

  /** When a domain ends up on two nodes, one of them could not have hosted any domain that nobody hosts. */
  lemma SecondHostComesLast(nodes: seq<Probe>, catalog: seq<Card>, tp: Throughput, n: NodeId, m: NodeId)
    requires var plan := FullSetState(nodes, catalog, tp).plan;
             && n != m && n in plan.at && m in plan.at && plan.at[n].primary.Some? && plan.at[m].primary.Some?
             && plan.at[n].primary.value.domain == plan.at[m].primary.value.domain
    ensures var plan := FullSetState(nodes, catalog, tp).plan;
            NothingNewFor(nodes, catalog, plan, n) || NothingNewFor(nodes, catalog, plan, m)
  {
    var s, t := Covered(nodes, catalog, tp), FullSetState(nodes, catalog, tp);
    CoveredFacts(nodes, catalog, tp);
    FullSetHosts(nodes, catalog, tp);
    NotBothMatched(nodes, catalog, s, t, n, m);
    var k := if n in s.plan.at then m else n;
    forall c | c in catalog && CanHost(nodes, k, c) ensures c.domain in Hosted(t.plan) {
      LeftoverCovered(nodes, catalog, s, k, c);
    }
    assert NothingNewFor(nodes, catalog, t.plan, k);
  }

  lemma NotBothMatched(nodes: seq<Probe>, catalog: seq<Card>, s: State, t: State, n: NodeId, m: NodeId)
    requires Kept(nodes, catalog, s) && Fills(s, t, s.remaining) && n != m && n in t.plan.at && m in t.plan.at
    requires t.plan.at[n].primary.Some? && t.plan.at[m].primary.Some?
    requires t.plan.at[n].primary.value.domain == t.plan.at[m].primary.value.domain
    ensures n !in s.plan.at || m !in s.plan.at
  {
    if n in s.plan.at && m in s.plan.at {
      Unchanged(nodes, s, t, n);
      Unchanged(nodes, s, t, m);
      HostsAgree(nodes, catalog, s, t.plan.at[n].primary.value.domain, n, m);
    }
  }

  lemma HostsAgree(nodes: seq<Probe>, catalog: seq<Card>, s: State, d: Domain, n: NodeId, m: NodeId)
    requires OneHost(nodes, catalog, s) && n in s.plan.at && m in s.plan.at
    requires Carries(s.plan.at[n], d) && Carries(s.plan.at[m], d)
    ensures n == m
  {
    assert Counted(s, d, n) && Counted(s, d, m) && Single(s.cov[d]);
  }

  lemma Unchanged(nodes: seq<Probe>, s: State, t: State, n: NodeId)
    requires Left(nodes, s) && Fills(s, t, s.remaining) && n in s.plan.at
    ensures n in t.plan.at && t.plan.at[n] == s.plan.at[n]
  {
    assert forall p :: p in s.remaining ==> p.node != n;
  }
}
