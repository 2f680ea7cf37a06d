/** Holdout curation (packages/slancha-mesh-tune/mesh/curation.py): rank by difficulty, take the hardest real rows as
    the exam, train on the rest.

    A trace carries what the code derives from it: the fingerprint of its prompt, the hash of its whole row, its
    canonical line, its score (`None` when not finite). Hashes and lines are numbers in the order of the strings. */
module Curation {
  import opened Wrappers
  import opened Sorting

  type Embedding = seq<real>
  datatype Trace = Trace(line: nat, fingerprint: nat, key: nat, score: Option<real>, sdg: bool, embedding: Option<Embedding>)

  /** An entry of the ranking: the position in the caller's list, with the row it stands for. */
  datatype Ranked = Ranked(index: nat, row: Trace)

  // ----- ranking -----

  function Score(t: Trace): real { if t.score.Some? then t.score.value else 0.5 }

  /** Hardest first, then by prompt fingerprint, then by row hash. */
  predicate Leq(a: Trace, b: Trace) {
    if Score(a) != Score(b) then Score(a) > Score(b)
    else if a.fingerprint != b.fingerprint then a.fingerprint < b.fingerprint
    else a.key <= b.key
  }

  function ByDifficulty(): Order<Trace> { (a: Trace, b: Trace) => Leq(a, b) }
  function Harder(): Order<Ranked> { (a: Ranked, b: Ranked) => Leq(a.row, b.row) }

  lemma Orders()
    ensures Preorder(ByDifficulty()) && Preorder(Harder())
  {}

  function Numbered(traces: seq<Trace>): seq<Ranked> {
    seq(|traces|, i requires 0 <= i < |traces| => Ranked(i, traces[i]))
  }

  function Rows(s: seq<Ranked>): seq<Trace> {
    seq(|s|, i requires 0 <= i < |s| => s[i].row)
  }

  /** `rank_by_difficulty`. */
  function Rank(traces: seq<Trace>): seq<Ranked> { Sort(Harder(), Numbered(traces)) }

  lemma {:induction false} InsertRows(x: Ranked, s: seq<Ranked>)
    ensures Rows(Insert(Harder(), x, s)) == Insert(ByDifficulty(), x.row, Rows(s))
  {
    if |s| > 0 && !Leq(x.row, s[0].row) {
      InsertRows(x, s[1..]);
      assert Rows(s)[1..] == Rows(s[1..]);
      assert Rows([s[0]] + Insert(Harder(), x, s[1..])) == [s[0].row] + Rows(Insert(Harder(), x, s[1..]));
    } else {
      assert Rows([x] + s) == [x.row] + Rows(s);
    }
  }

  lemma {:induction false} SortRows(s: seq<Ranked>)
    ensures Rows(Sort(Harder(), s)) == Sort(ByDifficulty(), Rows(s))
  {
    if |s| > 0 {
      SortRows(s[1..]);
      InsertRows(s[0], Sort(Harder(), s[1..]));
      assert Rows(s)[1..] == Rows(s[1..]);
    }
  }

  /** The ranked rows are the input's rows, hardest first, each entry with its position in the input. */
  lemma RankFacts(traces: seq<Trace>)
    ensures Rows(Rank(traces)) == Sort(ByDifficulty(), traces)
    ensures Sorted(Harder(), Rank(traces)) && multiset(Rank(traces)) == multiset(Numbered(traces))
    ensures |Rank(traces)| == |traces| && multiset(Rows(Rank(traces))) == multiset(traces)
  {
    Orders();
    SortRows(Numbered(traces));
    assert Rows(Numbered(traces)) == traces;
    SortFacts(Harder(), Numbered(traces));
    SortFacts(ByDifficulty(), traces);
  }

  /** No two different rows share a row hash. */
  predicate CollisionFree(traces: seq<Trace>) {
    forall a, b :: a in traces && b in traces && a.key == b.key ==> a == b
  }

  /** Ranking gives the same rows in the same order for exactly the permutations of the traces. */
  lemma RankIgnoresOrder(a: seq<Trace>, b: seq<Trace>)
    requires CollisionFree(a)
    ensures Rows(Rank(a)) == Rows(Rank(b)) <==> multiset(a) == multiset(b)
  {
    Orders();
    RankFacts(a);
    RankFacts(b);
    forall x, y | x in multiset(a) && y in multiset(a) && Leq(x, y) && Leq(y, x) ensures x == y {
      assert x in a && y in a && x.key == y.key;
    }
    SortIffSameElements(ByDifficulty(), a, b);
  }

  // ----- the split -----

  type Near = (Embedding, Embedding) -> bool
  datatype Params = Params(frac: real, minHoldout: int, maxHoldout: int, minTrain: int, near: Option<Near>)

  const DEFAULTS := Params(0.2, 20, 500, 50, None)

  /** Python's `round`: to the nearest integer, halves to the even one. */
  function Round(x: real): int {
    var low := x.Floor;
    var part := x - low as real;
    if part < 0.5 then low else if part > 0.5 then low + 1 else if low % 2 == 0 then low else low + 1
  }

  /** How many rows are real. */
  function Count(rows: seq<Trace>): nat {
    if |rows| == 0 then 0 else Count(rows[1..]) + if rows[0].sdg then 0 else 1
  }

  function Clamped(wanted: int, p: Params): int {
    var atLeast := if wanted < p.minHoldout then p.minHoldout else wanted;
    if atLeast > p.maxHoldout then p.maxHoldout else atLeast
  }

  function Share(p: Params, n: nat): real { p.frac * n as real }

  function Target(p: Params, n: nat): int { Clamped(Round(Share(p, n)), p) }

  /** The walk down the ranking: `prints` and `near` are what it remembers of the exam's rows. */
  datatype Walk = Walk(holdout: seq<Ranked>, prints: set<nat>, near: set<Embedding>, rest: seq<Ranked>,
                       dropped: nat, skipped: nat)

  const START := Walk([], {}, {}, [], 0, 0)

  function WalkOne(w: Walk, r: Ranked, target: int): Walk {
    if |w.holdout| >= target then w.(rest := w.rest + [r])
    else if r.row.sdg then w.(rest := w.rest + [r], skipped := w.skipped + 1)
    else if r.row.fingerprint in w.prints then w.(dropped := w.dropped + 1)
    else w.(holdout := w.holdout + [r], prints := w.prints + {r.row.fingerprint},
            near := w.near + if r.row.embedding.Some? then {r.row.embedding.value} else {})
  }

  function WalkAll(ranked: seq<Ranked>, target: int): Walk {
    if |ranked| == 0 then START
    else WalkOne(WalkAll(ranked[..|ranked| - 1], target), ranked[|ranked| - 1], target)
  }

  /** The row is in the exam, or close to a row of it. */
  predicate Leaks(row: Trace, prints: set<nat>, near: set<Embedding>, p: Params) {
    || row.fingerprint in prints
    || (p.near.Some? && row.embedding.Some? && exists e :: e in near && p.near.value(row.embedding.value, e))
  }

  datatype Pool = Pool(train: seq<Ranked>, dropped: nat)

  function PoolOne(q: Pool, r: Ranked, w: Walk, p: Params): Pool {
    if Leaks(r.row, w.prints, w.near, p) then q.(dropped := q.dropped + 1) else q.(train := q.train + [r])
  }

  function PoolAll(rest: seq<Ranked>, w: Walk, p: Params): Pool {
    if |rest| == 0 then Pool([], w.dropped) else PoolOne(PoolAll(rest[..|rest| - 1], w, p), rest[|rest| - 1], w, p)
  }

  datatype Refusal = ContradictoryBounds | TooFewRows | TooLittleTraining
  datatype Outcome = Split(holdout: seq<Ranked>, train: seq<Ranked>, dropped: nat, skipped: nat) | Refused(why: Refusal)

  /** `split_hard_holdout`. */
  function SplitOf(traces: seq<Trace>, ranked: seq<Ranked>, p: Params): Outcome {
    if p.maxHoldout < p.minHoldout then Refused(ContradictoryBounds)
    else if Count(traces) < p.minHoldout + p.minTrain then Refused(TooFewRows)
    else
      var w := WalkAll(ranked, Target(p, Count(traces)));
      var pool := PoolAll(w.rest, w, p);
      if |pool.train| < p.minTrain then Refused(TooLittleTraining)
      else Split(w.holdout, pool.train, pool.dropped, w.skipped)
  }

  function Curate(traces: seq<Trace>, p: Params): Outcome { SplitOf(traces, Rank(traces), p) }

  // ----- what the split guarantees -----

  predicate Remembers(w: Walk) {
    && w.prints == (set r | r in w.holdout :: r.row.fingerprint)
    && w.near == (set r | r in w.holdout && r.row.embedding.Some? :: r.row.embedding.value)
  }

  predicate Once(s: seq<Ranked>) {
    forall i, j :: 0 <= i < j < |s| ==> s[i].row.fingerprint != s[j].row.fingerprint
  }

  /** Real rows wait only once the exam is full, and are no harder than any row of it. */
  ghost predicate Fair(holdout: seq<Ranked>, others: seq<Ranked>, target: int) {
    && (forall r, h :: r in others && !r.row.sdg && h in holdout ==> Leq(h.row, r.row))
    && (forall r :: r in others && !r.row.sdg ==> |holdout| >= target)
  }

  /** The state of the walk over a prefix of the ranking. */
  ghost predicate Walked(w: Walk, ranked: seq<Ranked>, target: int) {
    && |w.holdout| + |w.rest| + w.dropped == |ranked|
    && multiset(w.holdout) + multiset(w.rest) <= multiset(ranked)
    && (forall r :: r in w.holdout ==> !r.row.sdg)
    && (|w.holdout| <= target || |w.holdout| == 0)
    && Fair(w.holdout, w.rest, target)
    && Remembers(w) && Once(w.holdout)
  }

  lemma WalkOneRemembers(w: Walk, r: Ranked, target: int)
    requires Remembers(w) && Once(w.holdout)
    ensures Remembers(WalkOne(w, r, target)) && Once(WalkOne(w, r, target).holdout)
  {
    assert forall i :: 0 <= i < |w.holdout| ==> w.holdout[i] in w.holdout;
  }

  lemma WalkOneFair(w: Walk, r: Ranked, target: int)
    requires Fair(w.holdout, w.rest, target) && forall h :: h in w.holdout ==> Leq(h.row, r.row)
    ensures Fair(WalkOne(w, r, target).holdout, WalkOne(w, r, target).rest, target)
  {}

  lemma WalkOneKeeps(w: Walk, front: seq<Ranked>, r: Ranked, target: int)
    requires Walked(w, front, target) && forall x :: x in multiset(front) ==> Leq(x.row, r.row)
    ensures Walked(WalkOne(w, r, target), front + [r], target)
  {
    forall x | x in w.holdout ensures Leq(x.row, r.row) { assert x in multiset(w.holdout) && x in multiset(front); }
    WalkOneFair(w, r, target);
    WalkOneRemembers(w, r, target);
  }

  lemma {:induction false} WalkKeeps(ranked: seq<Ranked>, target: int)
    requires forall i, j :: 0 <= i < j < |ranked| ==> Leq(ranked[i].row, ranked[j].row)
    ensures Walked(WalkAll(ranked, target), ranked, target)
  {
    if |ranked| > 0 {
      var front, r := ranked[..|ranked| - 1], ranked[|ranked| - 1];
      assert ranked == front + [r];
      WalkKeeps(front, target);
      WalkOneKeeps(WalkAll(front, target), front, r, target);
    }
  }

  lemma {:induction false} PoolFacts(rest: seq<Ranked>, w: Walk, p: Params)
    ensures var q := PoolAll(rest, w, p);
            && (forall r :: r in q.train ==> r in rest && !Leaks(r.row, w.prints, w.near, p))
            && |q.train| + q.dropped == |rest| + w.dropped && multiset(q.train) <= multiset(rest)
  {
    if |rest| > 0 {
      assert rest == rest[..|rest| - 1] + [rest[|rest| - 1]];
      PoolFacts(rest[..|rest| - 1], w, p);
    }
  }

  predicate LeaksExam(row: Trace, holdout: seq<Ranked>, p: Params) {
    exists h :: h in holdout
      && (h.row.fingerprint == row.fingerprint
          || (p.near.Some? && row.embedding.Some? && h.row.embedding.Some?
              && p.near.value(row.embedding.value, h.row.embedding.value)))
  }

  /** Every row is in the exam, in training or dropped; the exam is real, free of duplicates and no larger than its
      target; nothing that trains leaks the exam or is harder than a row of it; and real rows train only once the exam
      is full. */
  ghost predicate Curated(s: Outcome, traces: seq<Trace>, p: Params)
    requires s.Split?
  {
    && |s.holdout| + |s.train| + s.dropped == |traces|
    && multiset(s.holdout) + multiset(s.train) <= multiset(Numbered(traces))
    && (forall h :: h in s.holdout ==> !h.row.sdg) && Once(s.holdout)
    && (forall t :: t in s.train ==> !LeaksExam(t.row, s.holdout, p))
    && Fair(s.holdout, s.train, Target(p, Count(traces)))
    && (|s.holdout| <= Target(p, Count(traces)) || |s.holdout| == 0)
    && |s.train| >= p.minTrain
  }

  lemma LeaksMeans(row: Trace, w: Walk, p: Params)
    requires Remembers(w)
    ensures Leaks(row, w.prints, w.near, p) <==> LeaksExam(row, w.holdout, p)
  {}

  lemma CurateFacts(traces: seq<Trace>, p: Params)
    requires Curate(traces, p).Split?
    ensures Curated(Curate(traces, p), traces, p)
  {
    var ranked, target := Rank(traces), Target(p, Count(traces));
    var w := WalkAll(ranked, target);
    RankFacts(traces);
    SortedMeans(Harder(), ranked);
    forall i, j | 0 <= i < j < |ranked| ensures Leq(ranked[i].row, ranked[j].row) { assert Harder()(ranked[i], ranked[j]); }
    WalkKeeps(ranked, target);
    PoolFacts(w.rest, w, p);
    forall t | t in PoolAll(w.rest, w, p).train ensures !LeaksExam(t.row, w.holdout, p) { LeaksMeans(t.row, w, p); }
  }

  /** The nearest integer, the even one of two. */
  predicate Nearest(x: real, w: int) {
    -0.5 <= x - w as real <= 0.5 && (x - w as real == 0.5 || x - w as real == -0.5 ==> w % 2 == 0)
  }

  /** Unless the bounds contradict each other, the exam's target is the fraction of the real rows, rounded to the nearest
      integer, or the bound that this is beyond. */
  lemma TargetIs(p: Params, n: nat, w: int)
    requires p.minHoldout <= p.maxHoldout && Nearest(Share(p, n), w)
    ensures Share(p, n) == p.frac * n as real
    ensures var t := Target(p, n);
            && p.minHoldout <= t <= p.maxHoldout
            && (w < p.minHoldout ==> t == p.minHoldout) && (w > p.maxHoldout ==> t == p.maxHoldout)
            && (p.minHoldout <= w <= p.maxHoldout ==> t == w)
  {
    RoundIsNearest(Share(p, n), w);
  }

  /** Rounding is to a nearest integer. */
  lemma RoundIsNearest(x: real, w: int)
    ensures Round(x) == w <==> Nearest(x, w)
  {}

  // ----- nothing useful is left out -----

  /** How many rows are synthetic. */
  function Synthetic(s: seq<Ranked>): nat {
    if |s| == 0 then 0 else Synthetic(s[..|s| - 1]) + if s[|s| - 1].row.sdg then 1 else 0
  }

  predicate Duplicates(row: Trace, holdout: seq<Ranked>) {
    exists h :: h in holdout && h.row.fingerprint == row.fingerprint
  }

  /** In the order of the ranking. */
  predicate InOrder(s: seq<Ranked>) {
    forall i, j :: 0 <= i < j < |s| ==> Leq(s[i].row, s[j].row)
  }

  lemma InOrderSnoc(s: seq<Ranked>, r: Ranked)
    requires InOrder(s) && forall x :: x in s ==> Leq(x.row, r.row)
    ensures InOrder(s + [r])
  {}

  /** Every row of the walk is in the exam, waits, or duplicates a row of the exam. */
  ghost predicate Complete(w: Walk, ranked: seq<Ranked>, target: int) {
    && (forall r :: r in ranked ==> r in w.holdout || r in w.rest || Duplicates(r.row, w.holdout))
    && (forall r :: r in w.holdout || r in w.rest ==> r in ranked)
    && w.skipped <= Synthetic(ranked) && (|w.holdout| < target ==> w.skipped == Synthetic(ranked))
    && InOrder(w.holdout) && InOrder(w.rest)
  }

  lemma WalkOneCompletes(w: Walk, front: seq<Ranked>, r: Ranked, target: int)
    requires Complete(w, front, target) && Remembers(w) && forall x :: x in front ==> Leq(x.row, r.row)
    ensures Complete(WalkOne(w, r, target), front + [r], target)
  {
    var v := WalkOne(w, r, target);
    assert (front + [r])[..|front|] == front;
    forall x | x in front + [r] ensures x in v.holdout || x in v.rest || Duplicates(x.row, v.holdout) {
      if x in front && x !in w.holdout && x !in w.rest {
        var h :| h in w.holdout && h.row.fingerprint == x.row.fingerprint;
        assert h in v.holdout;
      }
    }
    InOrderSnoc(w.holdout, r);
    InOrderSnoc(w.rest, r);
  }

  lemma {:induction false} WalkCompletes(ranked: seq<Ranked>, target: int)
    requires InOrder(ranked)
    ensures Complete(WalkAll(ranked, target), ranked, target)
  {
    if |ranked| > 0 {
      var front, r := ranked[..|ranked| - 1], ranked[|ranked| - 1];
      assert ranked == front + [r];
      WalkCompletes(front, target);
      WalkKeeps(front, target);
      WalkOneCompletes(WalkAll(front, target), front, r, target);
    }
  }

  lemma {:induction false} PoolCompletes(rest: seq<Ranked>, w: Walk, p: Params)
    requires InOrder(rest)
    ensures forall r :: r in rest ==> r in PoolAll(rest, w, p).train || Leaks(r.row, w.prints, w.near, p)
    ensures InOrder(PoolAll(rest, w, p).train)
  {
    if |rest| > 0 {
      var front, r := rest[..|rest| - 1], rest[|rest| - 1];
      assert rest == front + [r];
      PoolCompletes(front, w, p);
      PoolFacts(front, w, p);
      forall x | x in PoolAll(front, w, p).train ensures Leq(x.row, r.row) {
        var i :| 0 <= i < |front| && front[i] == x;
        assert rest[i] == x;
      }
      InOrderSnoc(PoolAll(front, w, p).train, r);
    }
  }

  /** A row of the input is used, or leaks the exam. */
  predicate Used(s: Outcome, r: Ranked, p: Params)
    requires s.Split?
  {
    r in s.holdout || r in s.train || LeaksExam(r.row, s.holdout, p)
  }

  lemma RankInOrder(traces: seq<Trace>)
    ensures InOrder(Rank(traces)) && forall r :: r in Rank(traces) <==> r in Numbered(traces)
  {
    RankFacts(traces);
    var ranked := Rank(traces);
    SortedMeans(Harder(), ranked);
    forall i, j | 0 <= i < j < |ranked| ensures Leq(ranked[i].row, ranked[j].row) { assert Harder()(ranked[i], ranked[j]); }
    forall r ensures r in ranked <==> r in Numbered(traces) { assert r in multiset(ranked) <==> r in multiset(Numbered(traces)); }
  }

  /** Nothing useful is left out: each row examines, trains, or leaks the exam; a real row that is not in the exam and
      duplicates none of its rows means that the exam is full; exam and training are in the order of the ranking; and
      unless the exam was filled every synthetic row counts as skipped. */
  lemma CurateLeavesNothingOut(traces: seq<Trace>, p: Params, i: nat)
    requires Curate(traces, p).Split? && i < |traces|
    ensures var s, r := Curate(traces, p), Ranked(i, traces[i]);
            && Used(s, r, p) && InOrder(s.holdout) && InOrder(s.train)
            && (!r.row.sdg && r !in s.holdout && !Duplicates(r.row, s.holdout) ==> |s.holdout| >= Target(p, Count(traces)))
            && s.skipped <= Synthetic(Rank(traces))
            && (|s.holdout| < Target(p, Count(traces)) ==> s.skipped == Synthetic(Rank(traces)))
  {
    var ranked, target, r := Rank(traces), Target(p, Count(traces)), Ranked(i, traces[i]);
    var w := WalkAll(ranked, target);
    RankInOrder(traces);
    assert Numbered(traces)[i] == r && r in ranked;
    WalkKeeps(ranked, target);
    WalkCompletes(ranked, target);
    PoolCompletes(w.rest, w, p);
    LeaksMeans(r.row, w, p);
    if Duplicates(r.row, w.holdout) {
      var h :| h in w.holdout && h.row.fingerprint == r.row.fingerprint;
      assert LeaksExam(r.row, w.holdout, p);
    }
  }

  /** The order of the ranking: by score, 0.5 for a row without one, highest first; then by fingerprint; then by row. */
  lemma RankOrder(traces: seq<Trace>, i: nat, j: nat)
    requires i < j < |Rank(traces)|
    ensures var a, b := Rank(traces)[i].row, Rank(traces)[j].row;
            var x := if a.score.Some? then a.score.value else 0.5;
            var y := if b.score.Some? then b.score.value else 0.5;
            x > y || (x == y && (a.fingerprint < b.fingerprint || (a.fingerprint == b.fingerprint && a.key <= b.key)))
  {
    RankFacts(traces);
    RankInOrder(traces);
  }

  // ----- refusals -----

  lemma {:induction false} CountSnoc(rows: seq<Trace>, t: Trace)
    ensures Count(rows + [t]) == Count(rows) + if t.sdg then 0 else 1
  {
    if |rows| > 0 {
      assert (rows + [t])[1..] == rows[1..] + [t];
      CountSnoc(rows[1..], t);
    }
  }

  function RealUpTo(traces: seq<Trace>, n: nat): set<nat>
    requires n <= |traces|
  {
    set i: nat | i < n && !traces[i].sdg
  }

  lemma {:induction false} CountIs(traces: seq<Trace>, n: nat)
    requires n <= |traces|
    ensures Count(traces[..n]) == |RealUpTo(traces, n)|
  {
    if n == 0 {
      assert RealUpTo(traces, 0) == {};
    } else {
      CountIs(traces, n - 1);
      assert traces[..n] == traces[..n - 1] + [traces[n - 1]];
      CountSnoc(traces[..n - 1], traces[n - 1]);
      assert RealUpTo(traces, n) == RealUpTo(traces, n - 1) + if traces[n - 1].sdg then {} else {n - 1};
    }
  }

  /** Curation is refused first for contradictory bounds, then for too few real rows for an exam and a training pool, and
      last when too little is left to train on. */
  lemma RefusedIff(traces: seq<Trace>, p: Params)
    ensures var found, s := |RealUpTo(traces, |traces|)|, Curate(traces, p);
            && (s == Refused(ContradictoryBounds) <==> p.maxHoldout < p.minHoldout)
            && (s == Refused(TooFewRows) <==> p.minHoldout <= p.maxHoldout && found < p.minHoldout + p.minTrain)
            && (s.Split? ==> |s.train| >= p.minTrain)
            && (s == Refused(TooLittleTraining) ==>
                  var w := WalkAll(Rank(traces), Target(p, found)); |PoolAll(w.rest, w, p).train| < p.minTrain)
  {
    CountIs(traces, |traces|);
    assert traces[..|traces|] == traces;
  }

  // ----- the split does not depend on the order of the input -----

  lemma {:induction false} InsertCount(x: Trace, s: seq<Trace>)
    ensures Count(Insert(ByDifficulty(), x, s)) == Count(s) + if x.sdg then 0 else 1
  {
    if |s| > 0 && !Leq(x, s[0]) {
      InsertCount(x, s[1..]);
      assert ([s[0]] + Insert(ByDifficulty(), x, s[1..]))[1..] == Insert(ByDifficulty(), x, s[1..]);
    } else {
      assert ([x] + s)[1..] == s;
    }
  }

  lemma {:induction false} SortCount(s: seq<Trace>)
    ensures Count(Sort(ByDifficulty(), s)) == Count(s)
  {
    if |s| > 0 {
      SortCount(s[1..]);
      InsertCount(s[0], Sort(ByDifficulty(), s[1..]));
    }
  }

  /** The same state, up to the positions in the input. */
  predicate SameWalk(v: Walk, w: Walk) {
    && Rows(v.holdout) == Rows(w.holdout) && Rows(v.rest) == Rows(w.rest)
    && v.prints == w.prints && v.near == w.near && v.dropped == w.dropped && v.skipped == w.skipped
  }

  lemma RowsSnoc(s: seq<Ranked>, r: Ranked)
    ensures Rows(s + [r]) == Rows(s) + [r.row]
  {}

  lemma RowsFront(a: seq<Ranked>, b: seq<Ranked>)
    requires Rows(a) == Rows(b) && |a| > 0
    ensures |b| == |a| && Rows(a[..|a| - 1]) == Rows(b[..|b| - 1]) && a[|a| - 1].row == b[|b| - 1].row
  {
    assert |Rows(a)| == |a| && |Rows(b)| == |b|;
    assert Rows(a)[|a| - 1] == Rows(b)[|a| - 1];
    assert Rows(a[..|a| - 1]) == Rows(a)[..|a| - 1] && Rows(b[..|b| - 1]) == Rows(b)[..|b| - 1];
  }

  lemma WalkOneSame(v: Walk, w: Walk, r: Ranked, q: Ranked, target: int)
    requires SameWalk(v, w) && r.row == q.row
    ensures SameWalk(WalkOne(v, r, target), WalkOne(w, q, target))
  {
    assert |Rows(v.holdout)| == |v.holdout| && |Rows(w.holdout)| == |w.holdout|;
    RowsSnoc(v.holdout, r);
    RowsSnoc(w.holdout, q);
    RowsSnoc(v.rest, r);
    RowsSnoc(w.rest, q);
  }

  lemma {:induction false} WalkSame(a: seq<Ranked>, b: seq<Ranked>, target: int)
    requires Rows(a) == Rows(b)
    ensures SameWalk(WalkAll(a, target), WalkAll(b, target))
  {
    assert |Rows(a)| == |a| && |Rows(b)| == |b|;
    if |a| > 0 {
      RowsFront(a, b);
      WalkSame(a[..|a| - 1], b[..|b| - 1], target);
      WalkOneSame(WalkAll(a[..|a| - 1], target), WalkAll(b[..|b| - 1], target), a[|a| - 1], b[|b| - 1], target);
    }
  }

  lemma {:induction false} PoolSame(a: seq<Ranked>, b: seq<Ranked>, v: Walk, w: Walk, p: Params)
    requires Rows(a) == Rows(b) && SameWalk(v, w)
    ensures Rows(PoolAll(a, v, p).train) == Rows(PoolAll(b, w, p).train)
    ensures PoolAll(a, v, p).dropped == PoolAll(b, w, p).dropped
  {
    assert |Rows(a)| == |a| && |Rows(b)| == |b|;
    if |a| > 0 {
      RowsFront(a, b);
      PoolSame(a[..|a| - 1], b[..|b| - 1], v, w, p);
      RowsSnoc(PoolAll(a[..|a| - 1], v, p).train, a[|a| - 1]);
      RowsSnoc(PoolAll(b[..|b| - 1], w, p).train, b[|b| - 1]);
    }
  }

  /** The same rows are examined, trained on and dropped, or the same refusal is given. */
  predicate SameOutcome(s: Outcome, t: Outcome) {
    if s.Refused? || t.Refused? then s == t
    else && Rows(s.holdout) == Rows(t.holdout) && Rows(s.train) == Rows(t.train)
         && s.dropped == t.dropped && s.skipped == t.skipped
  }

  // ----- the content reference -----

  function Ascending(): Order<nat> { (a: nat, b: nat) => a <= b }

  function LinesOf(rows: seq<Trace>): seq<nat> {
    seq(|rows|, i requires 0 <= i < |rows| => rows[i].line)
  }

  /** What `holdout_content_ref` hashes: the canonical lines in sorted order. */
  function ContentRef(rows: seq<Trace>): seq<nat> { Sort(Ascending(), LinesOf(rows)) }

  /** Two exams have the same reference exactly when they have the same lines, in whatever order the rows come. */
  lemma RefIffSameLines(a: seq<Trace>, b: seq<Trace>)
    ensures ContentRef(a) == ContentRef(b) <==> multiset(LinesOf(a)) == multiset(LinesOf(b))
  {
    SortIffSameElements(Ascending(), LinesOf(a), LinesOf(b));
  }

  /** With collision-free row hashes, permuting the traces changes neither the exam and its reference, nor the training
      rows, nor what is dropped or refused. */
  lemma CurationIgnoresOrder(a: seq<Trace>, b: seq<Trace>, p: Params)
    requires multiset(a) == multiset(b) && CollisionFree(a)
    ensures SameOutcome(Curate(a, p), Curate(b, p))
    ensures Curate(a, p).Split? ==> ContentRef(Rows(Curate(a, p).holdout)) == ContentRef(Rows(Curate(b, p).holdout))
  {
    RankIgnoresOrder(a, b);
    RankFacts(a);
    RankFacts(b);
    SortCount(a);
    SortCount(b);
    var target := Target(p, Count(a));
    var v, w := WalkAll(Rank(a), target), WalkAll(Rank(b), target);
    WalkSame(Rank(a), Rank(b), target);
    PoolSame(v.rest, w.rest, v, w, p);
    assert |Rows(PoolAll(v.rest, v, p).train)| == |PoolAll(v.rest, v, p).train|;
    assert |Rows(PoolAll(w.rest, w, p).train)| == |PoolAll(w.rest, w, p).train|;
  }

  // ----- the methods -----

  method RankByDifficulty(traces: seq<Trace>) returns (ranked: seq<Ranked>)
    ensures ranked == Rank(traces)
  {
    var entries: seq<Ranked> := [];
    for i := 0 to |traces|
      invariant entries == Numbered(traces)[..i]
    {
      entries := entries + [Ranked(i, traces[i])];
    }
    assert entries == Numbered(traces);
    ranked := Sort(Harder(), entries);
  }

  method WalkRanking(ranked: seq<Ranked>, target: int) returns (w: Walk)
    ensures w == WalkAll(ranked, target)
  {
    w := START;
    for i := 0 to |ranked|
      invariant w == WalkAll(ranked[..i], target)
    {
      var r := ranked[i];
      assert ranked[..i + 1][..i] == ranked[..i];
      if |w.holdout| < target {
        if r.row.sdg {
          w := w.(skipped := w.skipped + 1, rest := w.rest + [r]);
          continue;
        }
        if r.row.fingerprint in w.prints {
          w := w.(dropped := w.dropped + 1);
          continue;
        }
        w := w.(holdout := w.holdout + [r], prints := w.prints + {r.row.fingerprint});
        if r.row.embedding.Some? { w := w.(near := w.near + {r.row.embedding.value}); }
      } else {
        w := w.(rest := w.rest + [r]);
      }
    }
    assert ranked[..|ranked|] == ranked;
  }

  method TrainPool(w: Walk, p: Params) returns (q: Pool)
    ensures q == PoolAll(w.rest, w, p)
  {
    q := Pool([], w.dropped);
    for i := 0 to |w.rest|
      invariant q == PoolAll(w.rest[..i], w, p)
    {
      assert w.rest[..i + 1][..i] == w.rest[..i];
      if Leaks(w.rest[i].row, w.prints, w.near, p) {
        q := q.(dropped := q.dropped + 1);
        continue;
      }
      q := q.(train := q.train + [w.rest[i]]);
    }
    assert w.rest[..|w.rest|] == w.rest;
  }

  method SplitHardHoldout(traces: seq<Trace>, ranked: seq<Ranked>, p: Params) returns (s: Outcome)
    ensures s == SplitOf(traces, ranked, p)
    ensures ranked == Rank(traces) && s.Split? ==> Curated(s, traces, p)
  {
    if p.maxHoldout < p.minHoldout { return Refused(ContradictoryBounds); }
    var n := Count(traces);
    if n < p.minHoldout + p.minTrain { return Refused(TooFewRows); }
    var w := WalkRanking(ranked, Target(p, n));
    var pool := TrainPool(w, p);
    if |pool.train| < p.minTrain { return Refused(TooLittleTraining); }
    s := Split(w.holdout, pool.train, pool.dropped, w.skipped);
    if ranked == Rank(traces) { CurateFacts(traces, p); }
  }
}
