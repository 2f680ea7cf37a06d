/** The ownership protocol of mesh/router_app.py read from its history: what happened before a job was given up, why a
    worker does what it does, and what becomes of a row. Nothing here rests on the labels of `OwnerProtocol.System`
    other than the handlers at work and the store. */
module OwnerHistory {
  import opened Wrappers
  import opened JobTable
  import opened JobOps
  import opened JobRuns
  import opened JobLaws
  import opened OwnerProtocol

  // ----- what create handlers did -----

  /** Handler `h` works on the create of job `k`. */
  predicate Creates(s: System, h: Handler, k: Key) {
    h in s.creators && s.creators[h].request.key == k
  }

  ghost predicate WriteFails(s: System, c: Config, a: Action, h: Handler, k: Key) {
    a.Persist? && a.h == h && Creates(s, h, k) && (!a.ok || StoreReply(s, c, a) == Rejected)
  }

  predicate DeleteFails(s: System, a: Action, h: Handler, k: Key) {
    a.Compensate? && a.h == h && Creates(s, h, k) && !a.confirmed
  }

  ghost predicate EnqueueFails(s: System, c: Config, a: Action, h: Handler, k: Key) {
    a.EnqueueCleanup? && a.h == h && Creates(s, h, k) && (!a.ok || StoreReply(s, c, a) == Rejected)
  }

  ghost predicate WriteFailed(ss: seq<System>, c: Config, actions: seq<Action>, n: nat, h: Handler, k: Key)
    requires n <= |actions| < |ss|
  {
    exists i: nat :: i < n && WriteFails(ss[i], c, actions[i], h, k)
  }

  /** The write of the row failed, and after it the deletion at the owner. */
  ghost predicate DeleteFailed(ss: seq<System>, c: Config, actions: seq<Action>, n: nat, h: Handler, k: Key)
    requires n <= |actions| < |ss|
  {
    exists i: nat :: i < n && DeleteFails(ss[i], actions[i], h, k) && WriteFailed(ss, c, actions, i, h, k)
  }

  /** All three attempts of the handler failed, in their order: the write, the deletion at the owner, the enqueue. */
  ghost predicate GaveUp(ss: seq<System>, c: Config, actions: seq<Action>, n: nat, h: Handler, k: Key)
    requires n <= |actions| < |ss|
  {
    exists i: nat :: i < n && EnqueueFails(ss[i], c, actions[i], h, k) && DeleteFailed(ss, c, actions, i, h, k)
  }

  /** What one action does to the create handler `h`: its own action ends it or moves it on to the next attempt, which
      it does exactly when the attempt failed; no other action touches it. */
  lemma RouteCreator(s: System, protocol: string, a: Action, reply: Reply, h: Handler)
    requires Enabled(s, protocol, a) && h in s.creators
    ensures var t, cr := Route(s, protocol, a, reply), s.creators[h];
            var own := (a.Persist? || a.Compensate? || a.EnqueueCleanup?) && a.h == h;
            var failed := match a case Persist(_, _, _, ok) => !ok || reply == Rejected case Compensate(_, done) => !done case _ => false;
            && (!own ==> h in t.creators && t.creators[h] == cr)
            && (own ==> (h in t.creators <==> failed))
            && (own && failed ==> t.creators[h].request == cr.request)
            && (own && failed && a.Persist? ==> t.creators[h].phase.Compensating?)
            && (own && failed && a.Compensate? ==> t.creators[h].phase.Enqueueing?)
  {}

  /** An accepted job is at once in the hands of its handler, which starts with the write. */
  lemma AcceptedIsCreated(s: System, c: Config, protocol: string, a: Action)
    requires Enabled(s, protocol, a) && a.OwnerAccepts?
    ensures var t := Step(s, c, protocol, a);
            && Creates(t, a.h, a.request.key) && t.creators[a.h] == Creator(a.request, Persisting)
            && a.request.key in t.parsed && At(a.request.key) in t.live
  {}

  ghost predicate CreatorPath(ss: seq<System>, c: Config, actions: seq<Action>, n: nat, h: Handler)
    requires n <= |actions| < |ss| && h in ss[n].creators
  {
    var k := ss[n].creators[h].request.key;
    && (ss[n].creators[h].phase.Compensating? ==> WriteFailed(ss, c, actions, n, h, k))
    && (ss[n].creators[h].phase.Enqueueing? ==> DeleteFailed(ss, c, actions, n, h, k))
  }

  lemma WriteFailedGrows(ss: seq<System>, c: Config, actions: seq<Action>, m: nat, n: nat, h: Handler, k: Key)
    requires m <= n <= |actions| < |ss| && WriteFailed(ss, c, actions, m, h, k)
    ensures WriteFailed(ss, c, actions, n, h, k)
  {}

  lemma DeleteFailedGrows(ss: seq<System>, c: Config, actions: seq<Action>, m: nat, n: nat, h: Handler, k: Key)
    requires m <= n <= |actions| < |ss| && DeleteFailed(ss, c, actions, m, h, k)
    ensures DeleteFailed(ss, c, actions, n, h, k)
  {}

  lemma GaveUpGrows(ss: seq<System>, c: Config, actions: seq<Action>, m: nat, n: nat, h: Handler, k: Key)
    requires m <= n <= |actions| < |ss| && GaveUp(ss, c, actions, m, h, k)
    ensures GaveUp(ss, c, actions, n, h, k)
  {}

  lemma NewCreator(s: System, protocol: string, a: Action, reply: Reply, h: Handler)
    requires Enabled(s, protocol, a) && h !in s.creators && h in Route(s, protocol, a, reply).creators
    ensures Route(s, protocol, a, reply).creators[h].phase.Persisting?
  {}

  /** How handler `h` got where it is after step `i`. */
  ghost predicate CreatorMoves(ss: seq<System>, c: Config, actions: seq<Action>, i: nat, h: Handler)
    requires i < |actions| < |ss| && h in ss[i + 1].creators
  {
    var cr := ss[i + 1].creators[h];
    if h !in ss[i].creators then cr.phase.Persisting?
    else
      && cr.request == ss[i].creators[h].request
      && (cr.phase == ss[i].creators[h].phase
          || (cr.phase.Compensating? && ss[i].creators[h].phase.Persisting? && WriteFails(ss[i], c, actions[i], h, cr.request.key))
          || (cr.phase.Enqueueing? && ss[i].creators[h].phase.Compensating? && DeleteFails(ss[i], actions[i], h, cr.request.key)))
  }

  lemma StepMovesCreator(ss: seq<System>, c: Config, protocol: string, actions: seq<Action>, i: nat, h: Handler)
    requires Execution(ss, c, protocol, actions) && i < |actions| && h in ss[i + 1].creators
    ensures CreatorMoves(ss, c, actions, i, h)
  {
    var s, a := ss[i], actions[i];
    var reply := StoreReply(s, c, a);
    if h in s.creators { RouteCreator(s, protocol, a, reply, h); } else { NewCreator(s, protocol, a, reply, h); }
  }

  lemma PathGrows(ss: seq<System>, c: Config, actions: seq<Action>, n: nat, h: Handler)
    requires n < |actions| < |ss| && h in ss[n + 1].creators && CreatorMoves(ss, c, actions, n, h)
    requires h in ss[n].creators ==> CreatorPath(ss, c, actions, n, h)
    ensures CreatorPath(ss, c, actions, n + 1, h)
  {
    if h in ss[n].creators {
      var k, phase := ss[n].creators[h].request.key, ss[n].creators[h].phase;
      if phase.Compensating? { WriteFailedGrows(ss, c, actions, n, n + 1, h, k); }
      if phase.Enqueueing? { DeleteFailedGrows(ss, c, actions, n, n + 1, h, k); }
    }
  }

  lemma {:induction false} CreatorPaths(ss: seq<System>, c: Config, protocol: string, actions: seq<Action>, n: nat, h: Handler)
    requires Execution(ss, c, protocol, actions) && n <= |actions| && h in ss[n].creators
    ensures CreatorPath(ss, c, actions, n, h)
  {
    if n > 0 {
      StepMovesCreator(ss, c, protocol, actions, n - 1, h);
      if h in ss[n - 1].creators { CreatorPaths(ss, c, protocol, actions, n - 1, h); }
      PathGrows(ss, c, actions, n - 1, h);
    }
  }

  lemma RouteLost(s: System, protocol: string, a: Action, reply: Reply, k: Key)
    requires Enabled(s, protocol, a) && k in Route(s, protocol, a, reply).lost && k !in s.lost
    ensures a.EnqueueCleanup? && Creates(s, a.h, k) && (!a.ok || reply == Rejected) && s.creators[a.h].phase.Enqueueing?
  {}

  /** A key is lost only after the three attempts of its create handler failed. */
  lemma {:induction false} LostGaveUp(ss: seq<System>, c: Config, protocol: string, actions: seq<Action>, n: nat, k: Key)
    requires Execution(ss, c, protocol, actions) && n <= |actions| && k in ss[n].lost
    ensures exists h :: GaveUp(ss, c, actions, n, h, k)
  {
    if n > 0 {
      var s, a := ss[n - 1], actions[n - 1];
      assert Enabled(s, protocol, a) && ss[(n - 1) + 1] == Step(s, c, protocol, a);
      if k in s.lost {
        LostGaveUp(ss, c, protocol, actions, n - 1, k);
        var h :| GaveUp(ss, c, actions, n - 1, h, k);
        GaveUpGrows(ss, c, actions, n - 1, n, h, k);
      } else {
        RouteLost(s, protocol, a, StoreReply(s, c, a), k);
        CreatorPaths(ss, c, protocol, actions, n - 1, a.h);
        assert EnqueueFails(s, c, a, a.h, k);
        assert GaveUp(ss, c, actions, n, a.h, k);
      }
    }
  }

  // ----- confirmed deletions -----

  /** The owner confirms to a handler or a worker that it deleted job `u`. */
  predicate Confirms(s: System, a: Action, u: UpstreamJob) {
    || (a.Compensate? && a.confirmed && a.h in s.creators && At(s.creators[a.h].request.key) == u)
    || (a.OwnerAnswers? && a.confirmed && a.h in s.workers && At(s.workers[a.h].job.key) == u)
  }

  ghost predicate DeletionConfirmed(ss: seq<System>, actions: seq<Action>, n: nat, u: UpstreamJob)
    requires n <= |actions| < |ss|
  {
    exists i: nat :: i < n && Confirms(ss[i], actions[i], u)
  }

  lemma RouteConfirmed(s: System, protocol: string, a: Action, reply: Reply, u: UpstreamJob)
    requires Enabled(s, protocol, a)
    ensures u in Route(s, protocol, a, reply).confirmed <==> u in s.confirmed || Confirms(s, a, u)
  {}

  /** The owner has confirmed exactly what it confirmed in an answer. */
  lemma {:induction false} ConfirmedIff(ss: seq<System>, c: Config, protocol: string, actions: seq<Action>, n: nat, u: UpstreamJob)
    requires Execution(ss, c, protocol, actions) && n <= |actions|
    ensures u in ss[n].confirmed <==> DeletionConfirmed(ss, actions, n, u)
  {
    if n > 0 {
      var s, a := ss[n - 1], actions[n - 1];
      assert Enabled(s, protocol, a) && ss[(n - 1) + 1] == Step(s, c, protocol, a);
      ConfirmedIff(ss, c, protocol, actions, n - 1, u);
      RouteConfirmed(s, protocol, a, StoreReply(s, c, a), u);
      if DeletionConfirmed(ss, actions, n, u) && !Confirms(s, a, u) {
        var i: nat :| i < n && Confirms(ss[i], actions[i], u);
        assert i < n - 1;
      }
    }
  }

  /** Step `i` forgets no parsed key, and adds that of the job it accepts. */
  predicate ParsesAt(ss: seq<System>, actions: seq<Action>, i: nat)
    requires i < |actions| < |ss|
  {
    ss[i].parsed <= ss[i + 1].parsed && (actions[i].OwnerAccepts? ==> actions[i].request.key in ss[i + 1].parsed)
  }

  lemma StepParses(s: System, protocol: string, a: Action, reply: Reply)
    requires Enabled(s, protocol, a)
    ensures var t := Route(s, protocol, a, reply); s.parsed <= t.parsed && (a.OwnerAccepts? ==> a.request.key in t.parsed)
  {}

  lemma AllParse(ss: seq<System>, c: Config, protocol: string, actions: seq<Action>)
    requires Execution(ss, c, protocol, actions)
    ensures forall i: nat :: i < |actions| ==> ParsesAt(ss, actions, i)
  {
    forall i: nat | i < |actions| ensures ParsesAt(ss, actions, i) {
      StepParses(ss[i], protocol, actions[i], StoreReply(ss[i], c, actions[i]));
    }
  }

  lemma {:induction false} AcceptedIsParsed(ss: seq<System>, actions: seq<Action>, m: nat, n: nat)
    requires m < n <= |actions| < |ss| && actions[m].OwnerAccepts? && forall i: nat :: i < |actions| ==> ParsesAt(ss, actions, i)
    ensures actions[m].request.key in ss[n].parsed
    decreases n
  {
    assert ParsesAt(ss, actions, n - 1);
    if m < n - 1 { AcceptedIsParsed(ss, actions, m, n - 1); }
  }

  /** No silent orphan: over every interleaving, a job whose create reply was parsed and whose deletion no answer of the
      owner has confirmed is in the hands of its create handler, or covered by a row with its key; or else its handler
      tried everything in its order and failed each time: the write, the deletion at the owner, the cleanup enqueue. */
  lemma NoSilentOrphan(ss: seq<System>, c: Config, protocol: string, actions: seq<Action>, m: nat, n: nat)
    requires Execution(ss, c, protocol, actions) && m < n <= |actions| && actions[m].OwnerAccepts?
    requires !DeletionConfirmed(ss, actions, n, At(actions[m].request.key))
    ensures var k := actions[m].request.key;
            || (exists h :: Creates(ss[n], h, k))
            || HasKey(ss[n].world.table, k)
            || (exists h :: GaveUp(ss, c, actions, n, h, k))
  {
    var k := actions[m].request.key;
    AllParse(ss, c, protocol, actions);
    AcceptedIsParsed(ss, actions, m, n);
    ConfirmedIff(ss, c, protocol, actions, n, At(k));
    OrphansAreLost(ss, c, protocol, actions, n, k);
    if InCreation(ss[n], k) {
      var h :| h in ss[n].creators && ss[n].creators[h].request.key == k;
      assert Creates(ss[n], h, k);
    } else if !HasKey(ss[n].world.table, k) {
      LostGaveUp(ss, c, protocol, actions, n, k);
    }
  }

  // ----- what workers do -----

  /** By this action worker `h` comes by its claim: a delete request, or the cleanup loop. */
  ghost predicate TakesUp(s: System, c: Config, a: Action, h: Handler, w: Worker) {
    var r := StoreReply(s, c, a);
    && r.Claimed? && r.claim == Some(w.job)
    && (if w.cleanup then a.ClaimWork? && a.h == h && a.token == w.token else a.ClaimVideo? && a.h == h && a.token == w.token)
  }

  lemma NewWorker(s: System, protocol: string, a: Action, reply: Reply, h: Handler)
    requires Enabled(s, protocol, a) && h !in s.workers && h in Route(s, protocol, a, reply).workers
    ensures var w := Route(s, protocol, a, reply).workers[h];
            && (a.ClaimVideo? || a.ClaimWork?) && a.h == h && a.token == w.token && w.cleanup == a.ClaimWork?
            && reply.Claimed? && reply.claim == Some(w.job)
            && (w.phase.Asking? <==> w.job.key.protocol == protocol)
            && (w.phase.Quarantining? <==> w.job.key.protocol != protocol && w.cleanup)
            && (w.phase.Releasing? <==> w.job.key.protocol != protocol && !w.cleanup)
  {}

  /** What one action does to worker `h`: an answer makes it confirm, or release and for the cleanup loop let the lease
      run out; the store operation that follows ends it; no other action touches it. */
  lemma RouteWorker(s: System, protocol: string, a: Action, reply: Reply, h: Handler)
    requires Enabled(s, protocol, a) && h in s.workers
    ensures var t, w := Route(s, protocol, a, reply), s.workers[h];
            var own := (a.OwnerAnswers? || a.ConfirmDelete? || a.ReleaseClaim? || a.QuarantineRow?) && a.h == h;
            && (!own ==> h in t.workers && t.workers[h] == w)
            && (own && a.OwnerAnswers? ==>
                  && (h !in t.workers <==> !a.confirmed && w.cleanup)
                  && (a.confirmed ==> t.workers[h] == w.(phase := Confirming))
                  && (!a.confirmed && !w.cleanup ==> t.workers[h] == w.(phase := Releasing)))
            && (own && !a.OwnerAnswers? ==> h !in t.workers)
  {}

  ghost predicate Took(ss: seq<System>, c: Config, actions: seq<Action>, n: nat, h: Handler, w: Worker)
    requires n <= |actions| < |ss|
  {
    exists i: nat :: i < n && TakesUp(ss[i], c, actions[i], h, w)
  }

  /** The owner answered this worker about its job. */
  ghost predicate Answered(ss: seq<System>, actions: seq<Action>, n: nat, h: Handler, w: Worker, confirmed: bool)
    requires n <= |actions| < |ss|
  {
    exists i: nat :: i < n && actions[i] == OwnerAnswers(h, confirmed) && h in ss[i].workers && ss[i].workers[h].job == w.job
  }

  /** Why a worker is where it is. */
  ghost predicate WorkerPath(ss: seq<System>, c: Config, protocol: string, actions: seq<Action>, n: nat, h: Handler)
    requires n <= |actions| < |ss| && h in ss[n].workers
  {
    var w := ss[n].workers[h];
    var own := w.job.key.protocol == protocol;
    && Took(ss, c, actions, n, h, w)
    && (w.phase.Asking? ==> own)
    && (w.phase.Confirming? ==> own && Answered(ss, actions, n, h, w, true))
    && (w.phase.Releasing? ==> !w.cleanup && (own ==> Answered(ss, actions, n, h, w, false)))
    && (w.phase.Quarantining? ==> w.cleanup && !own)
  }

  lemma TookGrows(ss: seq<System>, c: Config, actions: seq<Action>, n: nat, h: Handler, w: Worker, v: Worker)
    requires n < |actions| < |ss| && Took(ss, c, actions, n, h, w)
    requires v.job == w.job && v.token == w.token && v.cleanup == w.cleanup
    ensures Took(ss, c, actions, n + 1, h, v)
  {
    var i: nat :| i < n && TakesUp(ss[i], c, actions[i], h, w);
    assert TakesUp(ss[i], c, actions[i], h, v);
  }

  lemma AnsweredGrows(ss: seq<System>, actions: seq<Action>, n: nat, h: Handler, w: Worker, confirmed: bool)
    requires n < |actions| < |ss| && Answered(ss, actions, n, h, w, confirmed)
    ensures Answered(ss, actions, n + 1, h, w, confirmed)
  {}

  /** Worker `w` goes on as `v`: as it was, or on an answer of the owner. */
  predicate Moved(a: Action, h: Handler, w: Worker, v: Worker) {
    && v.job == w.job && v.token == w.token && v.cleanup == w.cleanup
    && (v.phase == w.phase
        || (w.phase.Asking? && v.phase.Confirming? && a == OwnerAnswers(h, true))
        || (w.phase.Asking? && v.phase.Releasing? && !w.cleanup && a == OwnerAnswers(h, false)))
  }

  lemma StepMoves(s: System, protocol: string, a: Action, reply: Reply, h: Handler)
    requires Enabled(s, protocol, a) && h in s.workers && h in Route(s, protocol, a, reply).workers
    ensures Moved(a, h, s.workers[h], Route(s, protocol, a, reply).workers[h])
  {
    RouteWorker(s, protocol, a, reply, h);
    if a.OwnerAnswers? && a.h == h { assert a == OwnerAnswers(h, a.confirmed); }
  }

  lemma WorkerMoves(ss: seq<System>, c: Config, protocol: string, actions: seq<Action>, n: nat, h: Handler)
    requires n < |actions| < |ss| && h in ss[n].workers && h in ss[n + 1].workers
    requires WorkerPath(ss, c, protocol, actions, n, h) && Moved(actions[n], h, ss[n].workers[h], ss[n + 1].workers[h])
    ensures WorkerPath(ss, c, protocol, actions, n + 1, h)
  {
    var w, v := ss[n].workers[h], ss[n + 1].workers[h];
    TookGrows(ss, c, actions, n, h, w, v);
    if w.phase.Confirming? { AnsweredGrows(ss, actions, n, h, w, true); }
    if w.phase.Releasing? && w.job.key.protocol == protocol { AnsweredGrows(ss, actions, n, h, w, false); }
  }

  /** Over every interleaving a worker acts on a claim it was granted: it confirms only after the owner confirmed, gives a
      claim back only for a delete request that failed or for a job of another protocol, and quarantines only a job of
      another protocol, which it never asks the owner about. */
  lemma {:induction false} WorkersFollowAnswers(ss: seq<System>, c: Config, protocol: string, actions: seq<Action>, n: nat, h: Handler)
    requires Execution(ss, c, protocol, actions) && n <= |actions| && h in ss[n].workers
    ensures WorkerPath(ss, c, protocol, actions, n, h)
  {
    if n > 0 {
      var s, a := ss[n - 1], actions[n - 1];
      assert Enabled(s, protocol, a) && ss[(n - 1) + 1] == Step(s, c, protocol, a);
      if h in s.workers {
        WorkersFollowAnswers(ss, c, protocol, actions, n - 1, h);
        StepMoves(s, protocol, a, StoreReply(s, c, a), h);
        WorkerMoves(ss, c, protocol, actions, n - 1, h);
      } else {
        NewWorker(s, protocol, a, StoreReply(s, c, a), h);
        assert TakesUp(s, c, a, h, ss[n].workers[h]);
      }
    }
  }

  // ----- what the actions do to the rows -----

  /** A write that succeeds makes the job visible under its public id, with what the request says. */
  lemma WriteShows(s: System, c: Config, protocol: string, a: Action)
    requires Inv(s, c) && ValidConfig(c) && Enabled(s, protocol, a) && a.Persist? && a.ok && StoreReply(s, c, a) != Rejected
    ensures var t := Step(s, c, protocol, a);
            && Visible(t.world.table, a.id, a.now) && a.h !in t.creators
            && SaysRequest(t.world.table[a.id].job, s.creators[a.h].request, a.id, a.now)
  {
    CreateStores(s.world, c, StoreOp(s, a).value);
  }

  /** A cleanup enqueue that succeeds leaves a row of the key that is live or waits for the cleanup loop. */
  lemma EnqueueShows(s: System, c: Config, protocol: string, a: Action)
    requires Inv(s, c) && ValidConfig(c) && Enabled(s, protocol, a) && a.EnqueueCleanup? && a.ok && StoreReply(s, c, a) != Rejected
    ensures var t, k := Step(s, c, protocol, a), s.creators[a.h].request.key;
            a.h !in t.creators && exists id :: id in t.world.table && t.world.table[id].job.key == k
                                               && !t.world.table[id].phase.Quarantined?
  {
    EnqueueCovers(s.world, c, StoreOp(s, a).value);
    var id := StoreReply(s, c, a).job.value.id;
    assert id in Step(s, c, protocol, a).world.table;
  }

  /** A worker's last step does to its row what it is for, as long as its token holds the row: a confirm removes it, a
      release frees it, a quarantine parks it. With a failed write or a lost claim nothing changes. */
  lemma WorkerStores(s: System, c: Config, protocol: string, a: Action)
    requires Inv(s, c) && ValidConfig(c) && Enabled(s, protocol, a) && (a.ConfirmDelete? || a.ReleaseClaim? || a.QuarantineRow?)
    ensures var w, t, u := s.workers[a.h], s.world.table, StoreNext(s, c, a).table;
            var id := w.job.id;
            var works := a.ok && Holds(t, id, w.token) && (a.QuarantineRow? ==> t[id].phase.Hidden?);
            && (!works ==> u == t)
            && (works ==> OnlyRow(t, u, id))
            && (works && a.ConfirmDelete? ==> id !in u)
            && (works && a.ReleaseClaim? ==> id in u && u[id] == t[id].(lease := Free))
            && (works && a.QuarantineRow? ==> id in u && u[id].phase.Quarantined? && u[id].job == t[id].job)
  {
    if a.ok {
      var op := StoreOp(s, a).value;
      TokenAnswers(s.world, c, op);
      if a.ReleaseClaim? && Holds(s.world.table, op.id, op.token) { ReleasedRow(s.world, c, op); }
    }
  }

  /** Claims are taken for the length of a lease, on the row the request names or on the first one of the queue. */
  lemma ClaimsAreLeases(s: System, c: Config, protocol: string, a: Action)
    requires Inv(s, c) && ValidConfig(c) && Enabled(s, protocol, a) && (a.ClaimVideo? || a.ClaimWork?)
    requires StoreReply(s, c, a).Claimed? && StoreReply(s, c, a).claim.Some?
    ensures var j, u := StoreReply(s, c, a).claim.value, StoreNext(s, c, a).table;
            && j.id in u && u[j.id].job == j && u[j.id].lease == Held(a.token, a.now + LEASE)
            && (a.ClaimVideo? ==> j.id == a.id && u[j.id].phase.Live?) && (a.ClaimWork? ==> u[j.id].phase.Hidden?)
  {
    ClaimLeases(s.world, c, StoreOp(s, a).value);
  }

  // ----- when the actions succeed -----

  predicate BadRequest(r: Request) {
    || TooLong(r.key.protocol, 128) || TooLong(r.specialist, 256) || TooLong(r.node, 256)
    || TooLong(r.key.origin, 2048) || TooLong(r.key.upstream, 1024) || TooLong(r.status, 64)
  }

  /** The write of a row and the cleanup enqueue fail only when the store does, or for a text that is empty or too long. */
  lemma WritesFailIff(s: System, c: Config, protocol: string, a: Action)
    requires Enabled(s, protocol, a) && (a.Persist? || a.EnqueueCleanup?) && a.ok
    ensures StoreReply(s, c, a) == Rejected <==> BadRequest(s.creators[a.h].request)
  {
    RefusedIff(s.world, c, StoreOp(s, a).value);
  }

  /** A delete request gets to work exactly when the job is alive and its row is not leased. */
  lemma DeleteRequestWorksIff(s: System, c: Config, protocol: string, a: Action)
    requires Inv(s, c) && ValidConfig(c) && Enabled(s, protocol, a) && a.ClaimVideo?
    ensures a.h in Step(s, c, protocol, a).workers <==>
              Alive(s.world.jobs, c.ttl, a.id, a.now) && a.id in s.world.table && LeaseFree(s.world.table[a.id].lease, a.now)
  {
    var op, w := StoreOp(s, a).value, s.world;
    BaseAgrees(w, c, op);
    BaseWellFormedFor(w, c, op);
    if a.id in Base(w.table, c, op) { BaseKeepsRow(w.table, c, op, a.id); }
  }

  /** The cleanup loop gets to work exactly when work is waiting after the pass. */
  lemma CleanupWorksIff(s: System, c: Config, protocol: string, a: Action)
    requires Inv(s, c) && ValidConfig(c) && Enabled(s, protocol, a) && a.ClaimWork?
    ensures a.h in Step(s, c, protocol, a).workers <==> exists x :: Waits(Cleanup(s.world.table, a.now, c.batch), a.now, x)
  {
    CleanupClaimIff(s.world, c, StoreOp(s, a).value);
  }

  /** Other requests are answered as a plain map with a time to live answers them, and run one bounded cleanup pass. */
  lemma ServedByStore(s: System, c: Config, protocol: string, a: Action)
    requires Inv(s, c) && ValidConfig(c) && Enabled(s, protocol, a) && a.Serve?
    ensures var t := Step(s, c, protocol, a);
            && RefReply(s.world.jobs, c.ttl, a.op, StoreReply(s, c, a)) && t.world.clock == a.op.now
            && t.creators == s.creators && t.workers == s.workers
            && (StoreReply(s, c, a) != Rejected ==>
                  var expired := |ExpiredLive(s.world.table, a.op.now)|;
                  |ExpiredLive(t.world.table, a.op.now)| == if expired <= c.batch then 0 else expired - c.batch)
  {
    NextReply(s.world, c, a.op);
    if !IsRejected(a.op) { ServeTidies(s.world, c, a.op); }
  }

  lemma ServeTidies(w: World, c: Config, op: Op)
    requires Sound(w, c) && Legal(w, op) && (op.Sweep? || op.Get? || op.UpdateStatus?) && !IsRejected(op)
    ensures |ExpiredLive(JobRuns.Next(w, c, op).table, op.now)|
            == if |ExpiredLive(w.table, op.now)| <= c.batch then 0 else |ExpiredLive(w.table, op.now)| - c.batch
  {
    var u, t := Cleanup(w.table, op.now, c.batch), JobRuns.Next(w, c, op).table;
    CleanupProgress(w.table, op.now, c.batch);
    assert ExpiredLive(t, op.now) == ExpiredLive(u, op.now);
  }

  // ----- upstream jobs -----

  predicate Accepts(a: Action, u: UpstreamJob) {
    (a.OwnerAccepts? && At(a.request.key) == u) || a == OwnerAcceptsUnseen(u)
  }

  /** A job is alive at its owner from the accept until a confirmed deletion, or until the owner forgets it. */
  lemma AliveIff(s: System, protocol: string, a: Action, reply: Reply, u: UpstreamJob)
    requires Enabled(s, protocol, a)
    ensures u in Route(s, protocol, a, reply).live <==>
              Accepts(a, u) || (u in s.live && !Confirms(s, a, u) && a != OwnerForgets(u))
  {}

  lemma SeenGrows(s: System, protocol: string, a: Action, reply: Reply, u: UpstreamJob)
    requires Enabled(s, protocol, a)
    ensures u in Route(s, protocol, a, reply).seen <==> u in s.seen || Accepts(a, u)
  {}

  lemma {:induction false} AcceptedIsSeen(ss: seq<System>, c: Config, protocol: string, actions: seq<Action>, i: nat, n: nat, u: UpstreamJob)
    requires Execution(ss, c, protocol, actions) && i < n <= |actions| && Accepts(actions[i], u)
    ensures u in ss[n].seen
    decreases n
  {
    var s, a := ss[n - 1], actions[n - 1];
    assert Enabled(s, protocol, a) && ss[(n - 1) + 1] == Step(s, c, protocol, a);
    SeenGrows(s, protocol, a, StoreReply(s, c, a), u);
    if i < n - 1 { AcceptedIsSeen(ss, c, protocol, actions, i, n - 1, u); }
  }

  /** No upstream id is accepted twice. */
  lemma AcceptedOnce(ss: seq<System>, c: Config, protocol: string, actions: seq<Action>, i: nat, j: nat, u: UpstreamJob)
    requires Execution(ss, c, protocol, actions) && i < j < |actions| && Accepts(actions[i], u)
    ensures !Accepts(actions[j], u)
  {
    AcceptedIsSeen(ss, c, protocol, actions, i, j, u);
    assert Enabled(ss[j], protocol, actions[j]);
  }
}
