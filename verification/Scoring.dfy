/** Scores of the allocator (mesh/allocator.py): hard filters, soft terms and ranking.

    `-inf` is `None`. The decode-throughput term, the only one with a logarithm and the chip tables,
    is a parameter: every result holds for any such term. */
module Scoring {
  import opened Sorting
  import opened Wrappers

  type NodeId = string
  type Domain = string

  datatype Card = Card(specialist: string, domain: Domain, backend: string, fp4: bool,
                       storage: real, runtime: real, minVram: real)

  datatype Probe = Probe(node: NodeId, backends: seq<string>, diskFree: real, ramAvailable: real,
                         vramAvailable: Option<real>, unified: bool, cuda: string, rtt: Option<real>)

  type Throughput = (Card, Probe) -> real
  type Coverage = map<Domain, set<NodeId>>

  function Max(a: real, b: real): real { if a >= b then a else b }
  function Min(a: real, b: real): real { if a <= b then a else b }

  function EffectiveVram(p: Probe): real {
    if p.unified then Max(0.0, p.ramAvailable - 8.0)
    else if p.vramAvailable.Some? then p.vramAvailable.value
    else Max(0.0, p.ramAvailable - 4.0)
  }

  predicate Eligible(c: Card, p: Probe) {
    && c.backend in p.backends
    && c.storage <= p.diskFree
    && c.minVram <= EffectiveVram(p)
    && (c.fp4 ==> p.cuda in {"10.0", "12.0", "12.1"})
  }

  function Hosts(cov: Coverage, d: Domain): nat {
    if d in cov then |cov[d]| else 0
  }

  /** `model_fit_score`. */
  function Score(c: Card, p: Probe, cov: Coverage, tp: Throughput): Option<real> {
    if c.backend !in p.backends then None
    else if c.storage > p.diskFree then None
    else
      var memory := EffectiveVram(p);
      if c.minVram > memory then None
      else if c.fp4 && p.cuda !in {"10.0", "12.0", "12.1"} then None
      else
        var headroom := Min((memory - c.runtime) / Max(c.runtime, 0.1), 2.0);
        var hosts := Hosts(cov, c.domain);
        var need := if hosts == 0 then 3.0 else 1.0 / (1 + hosts) as real;
        var network := Max(0.5, 1.0 - (if p.rtt.Some? then p.rtt.value else 0.0) / 100.0);
        Some(2.0 * need + 1.5 * tp(c, p) + 0.5 * headroom + 0.3 * network)
  }

  /** Whether a card fits a node at all does not depend on what is hosted where. */
  lemma FiniteIffEligible(c: Card, p: Probe, cov: Coverage, tp: Throughput)
    ensures Score(c, p, cov, tp).Some? <==> Eligible(c, p)
  {}

  /** One more host of its domain never raises a card's score: placement is pulled to the uncovered. */
  lemma CoverageLowersScore(c: Card, p: Probe, cov: Coverage, more: Coverage, tp: Throughput)
    requires Eligible(c, p) && Hosts(cov, c.domain) <= Hosts(more, c.domain)
    ensures Score(c, p, more, tp).value <= Score(c, p, cov, tp).value
  {
    var a, b := (1 + Hosts(cov, c.domain)) as real, (1 + Hosts(more, c.domain)) as real;
    InverseMonotone(a, b);
  }

  lemma InverseMonotone(a: real, b: real)
    requires 0.0 < a <= b
    ensures 1.0 / b <= 1.0 / a
  {
    var x, y := 1.0 / b, 1.0 / a;
    assert x * b == 1.0 && y * a == 1.0;
    var k := y * b;
    assert k >= y * a == 1.0;
    assert (k - 1.0) * x >= 0.0;
    assert y == y * (x * b) == k * x;
  }

  // ----- what a score weighs -----

  /** The other three filters pass. */
  predicate PassesButMemory(c: Card, p: Probe) {
    c.backend in p.backends && c.storage <= p.diskFree && (c.fp4 ==> p.cuda in {"10.0", "12.0", "12.1"})
  }

  /** A card fits the memory that is left when 8 GB of unified memory, or 4 GB of main memory on a machine without a GPU,
      are held back; a GPU's own memory is all usable. */
  lemma MemoryHeldBack(c: Card, p: Probe, cov: Coverage, tp: Throughput)
    requires PassesButMemory(c, p)
    ensures Score(c, p, cov, tp).Some? <==>
              if p.unified then c.minVram <= 0.0 || c.minVram + 8.0 <= p.ramAvailable
              else if p.vramAvailable.Some? then c.minVram <= p.vramAvailable.value
              else c.minVram <= 0.0 || c.minVram + 4.0 <= p.ramAvailable
  {}

  lemma AnyFilterExcludes(c: Card, p: Probe, cov: Coverage, tp: Throughput)
    requires !PassesButMemory(c, p)
    ensures Score(c, p, cov, tp).None?
  {}

  /** One point of throughput weighs 1.5. */
  lemma ThroughputWeighs(c: Card, p: Probe, cov: Coverage, tp: Throughput, other: Throughput)
    requires Eligible(c, p)
    ensures Score(c, p, cov, tp).value - Score(c, p, cov, other).value == 1.5 * (tp(c, p) - other(c, p))
  {}

  /** Against an empty cluster a card loses nothing while nobody hosts its domain, and 6 - 2 / (1 + n) when n nodes do. */
  lemma CoverageWeighs(c: Card, p: Probe, cov: Coverage, tp: Throughput)
    requires Eligible(c, p)
    ensures Score(c, p, map[], tp).value - Score(c, p, cov, tp).value ==
              var n := if c.domain in cov then |cov[c.domain]| else 0;
              if n == 0 then 0.0 else 6.0 - 2.0 * (1.0 / (1 + n) as real)
  {}

  /** The round-trip time in milliseconds that counts: at most 50 of them. */
  function Felt(rtt: Option<real>): real {
    if rtt.None? then 0.0 else if rtt.value > 50.0 then 50.0 else rtt.value
  }

  /** Each of them costs 0.003. */
  lemma NetworkWeighs(c: Card, p: Probe, rtt: Option<real>, cov: Coverage, tp: Throughput)
    requires Eligible(c, p) && tp(c, p) == tp(c, p.(rtt := rtt))
    ensures Score(c, p.(rtt := rtt), cov, tp).Some?
    ensures Score(c, p, cov, tp).value - Score(c, p.(rtt := rtt), cov, tp).value == 0.003 * (Felt(rtt) - Felt(p.rtt))
  {}

  /** Memory beyond what the card runs in, in units of that, up to two of them. */
  function Spare(c: Card, memory: real): real {
    var unit := if c.runtime > 0.1 then c.runtime else 0.1;
    if memory - c.runtime > 2.0 * unit then 2.0 else (memory - c.runtime) / unit
  }

  lemma SpareIsHeadroom(c: Card, memory: real)
    ensures Spare(c, memory) == Min((memory - c.runtime) / Max(c.runtime, 0.1), 2.0)
  {
    var unit, rest := Max(c.runtime, 0.1), memory - c.runtime;
    var q := rest / unit;
    assert q * unit == rest && unit > 0.0;
    if rest > 2.0 * unit {
      assert (q - 2.0) * unit > 0.0;
      assert q > 2.0;
    } else {
      assert (q - 2.0) * unit <= 0.0;
      assert q <= 2.0;
    }
  }

  /** Each unit of spare memory weighs 0.5. */
  lemma HeadroomWeighs(c: Card, p: Probe, q: Probe, cov: Coverage, tp: Throughput)
    requires Eligible(c, p) && Eligible(c, q) && tp(c, p) == tp(c, q) && p.rtt == q.rtt
    ensures Score(c, p, cov, tp).value - Score(c, q, cov, tp).value
            == 0.5 * (Spare(c, EffectiveVram(p)) - Spare(c, EffectiveVram(q)))
  {
    SpareIsHeadroom(c, EffectiveVram(p));
    SpareIsHeadroom(c, EffectiveVram(q));
  }

  /** On an empty cluster, close by and with memory to spare, a card scores 7.3 and its throughput. */
  lemma BestCase(c: Card, p: Probe, tp: Throughput)
    requires Eligible(c, p) && p.rtt == None && Spare(c, EffectiveVram(p)) == 2.0
    ensures Score(c, p, map[], tp).value == 7.3 + 1.5 * tp(c, p)
  {
    SpareIsHeadroom(c, EffectiveVram(p));
  }

  /** Uncovered domains come first: on one node a card of a domain that nobody hosts outscores every card of a hosted one
      whose throughput term is not more than 7/3 ahead. */
  lemma UncoveredComesFirst(x: Card, y: Card, p: Probe, cov: Coverage, tp: Throughput)
    requires Eligible(x, p) && Eligible(y, p) && x.runtime >= 0.0 && y.runtime >= 0.0 && EffectiveVram(p) >= 0.0
    requires Hosts(cov, x.domain) == 0 && Hosts(cov, y.domain) > 0 && 3.0 * (tp(y, p) - tp(x, p)) < 7.0
    ensures Beats(Score(x, p, cov, tp), Score(y, p, cov, tp))
  {
    var m, n := EffectiveVram(p), (1 + Hosts(cov, y.domain)) as real;
    SpareIsHeadroom(x, m);
    SpareIsHeadroom(y, m);
    SpareAtLeast(x, m);
    InverseMonotone(2.0, n);
  }

  lemma SpareAtLeast(c: Card, memory: real)
    requires c.runtime >= 0.0 && memory >= 0.0
    ensures -1.0 <= Spare(c, memory) <= 2.0
  {
    var unit, rest := if c.runtime > 0.1 then c.runtime else 0.1, memory - c.runtime;
    var q := rest / unit;
    assert q * unit == rest && rest >= -unit;
    SignOf(q + 1.0, unit);
    if rest <= 2.0 * unit { SignOf(2.0 - q, unit); }
  }

  lemma SignOf(a: real, unit: real)
    requires unit > 0.0 && a * unit >= 0.0
    ensures a >= 0.0
  {}

  // ----- ranking -----

  datatype Scored = Scored(score: Option<real>, card: Card)

  predicate Beats(a: Option<real>, b: Option<real>) {
    a.Some? && (b.None? || a.value > b.value)
  }

  function Scores(p: Probe, cards: seq<Card>, cov: Coverage, tp: Throughput): seq<Scored> {
    seq(|cards|, i requires 0 <= i < |cards| => Scored(Score(cards[i], p, cov, tp), cards[i]))
  }

  function NotBeaten(): Order<Scored> { (a: Scored, b: Scored) => !Beats(b.score, a.score) }

  /** `_rank_specs_for_node`: best first, catalog order among equals, misfits last. */
  function Rank(p: Probe, cards: seq<Card>, cov: Coverage, tp: Throughput): seq<Scored> {
    Sort(NotBeaten(), Scores(p, cards, cov, tp))
  }

  predicate BestFirst(s: seq<Scored>) {
    forall i, j :: 0 <= i < j < |s| ==> !Beats(s[j].score, s[i].score)
  }

  predicate Fits(r: Scored, p: Probe, cards: seq<Card>, cov: Coverage, tp: Throughput) {
    r.card in cards && r.score == Score(r.card, p, cov, tp)
  }

  lemma RankSorted(p: Probe, cards: seq<Card>, cov: Coverage, tp: Throughput)
    ensures BestFirst(Rank(p, cards, cov, tp))
  {
    var ranked := Rank(p, cards, cov, tp);
    SortFacts(NotBeaten(), Scores(p, cards, cov, tp));
    SortedMeans(NotBeaten(), ranked);
    forall i, j | 0 <= i < j < |ranked| ensures !Beats(ranked[j].score, ranked[i].score) {
      assert NotBeaten()(ranked[i], ranked[j]);
    }
  }

  /** Cards that score the same stay in the order of the catalog. */
  lemma RankStable(p: Probe, cards: seq<Card>, cov: Coverage, tp: Throughput, x: Scored)
    ensures Ties(NotBeaten(), x, Rank(p, cards, cov, tp)) == Ties(NotBeaten(), x, Scores(p, cards, cov, tp))
  {
    SortStable(NotBeaten(), x, Scores(p, cards, cov, tp));
  }

  lemma ScoresIn(p: Probe, cards: seq<Card>, cov: Coverage, tp: Throughput, r: Scored)
    ensures r in Scores(p, cards, cov, tp) <==> Fits(r, p, cards, cov, tp)
  {
    if Fits(r, p, cards, cov, tp) {
      var i :| 0 <= i < |cards| && cards[i] == r.card;
      assert Scores(p, cards, cov, tp)[i] == r;
    }
  }

  lemma RankFacts(p: Probe, cards: seq<Card>, cov: Coverage, tp: Throughput)
    ensures BestFirst(Rank(p, cards, cov, tp)) && |Rank(p, cards, cov, tp)| == |cards|
    ensures forall r :: r in Rank(p, cards, cov, tp) <==> Fits(r, p, cards, cov, tp)
  {
    var scores, ranked := Scores(p, cards, cov, tp), Rank(p, cards, cov, tp);
    RankSorted(p, cards, cov, tp);
    SortFacts(NotBeaten(), scores);
    forall r ensures r in ranked <==> Fits(r, p, cards, cov, tp) {
      assert r in multiset(ranked) <==> r in multiset(scores);
      ScoresIn(p, cards, cov, tp, r);
    }
  }

  /** The head of the ranking decides whether a node can host anything, and is its best card. */
  lemma BestCard(p: Probe, cards: seq<Card>, cov: Coverage, tp: Throughput)
    ensures var r := Rank(p, cards, cov, tp);
            && ((|r| > 0 && r[0].score.Some?) <==> exists c :: c in cards && Eligible(c, p))
            && (|r| > 0 && r[0].score.Some? ==>
                  && r[0].card in cards && Eligible(r[0].card, p)
                  && forall c :: c in cards && Eligible(c, p) ==> !Beats(Score(c, p, cov, tp), r[0].score))
  {
    var r := Rank(p, cards, cov, tp);
    RankFacts(p, cards, cov, tp);
    forall c | c in cards && Eligible(c, p)
      ensures |r| > 0 && r[0].score.Some? && !Beats(Score(c, p, cov, tp), r[0].score)
    {
      FiniteIffEligible(c, p, cov, tp);
      assert Fits(Scored(Score(c, p, cov, tp), c), p, cards, cov, tp);
      var k :| 0 <= k < |r| && r[k] == Scored(Score(c, p, cov, tp), c);
      if k > 0 { assert !Beats(r[k].score, r[0].score); }
    }
    if |r| > 0 && r[0].score.Some? {
      assert Fits(r[0], p, cards, cov, tp);
      FiniteIffEligible(r[0].card, p, cov, tp);
    }
  }
}
