/** Cleanup never deletes a job that is still in use: what the handlers of mesh/router_app.py delete upstream while the
    job's row is live was asked for by a delete request. */
module OwnerSafety {
  import opened Wrappers
  import opened JobTable
  import opened JobOps
  import opened JobRuns
  import opened OwnerProtocol

  predicate RowOf(t: Table, id: PublicId, u: UpstreamJob) {
    id in t && At(t[id].job.key) == u
  }

  ghost predicate HasLive(t: Table, u: UpstreamJob) {
    exists id :: RowOf(t, id, u) && t[id].phase.Live?
  }

  ghost predicate NoWorker(s: System, u: UpstreamJob) {
    forall w :: w in s.workers ==> At(s.workers[w].job.key) != u
  }

  /** Only create handler `h` knows the job so far, and it still has to write its row. */
  ghost predicate Pending(s: System, k: Key, h: Handler) {
    && h in s.creators && s.creators[h].request.key == k && s.creators[h].phase.Persisting?
    && (forall x :: x in s.creators && At(s.creators[x].request.key) == At(k) ==> x == h)
    && (forall id :: !RowOf(s.world.table, id, At(k)))
    && NoWorker(s, At(k)) && At(k) !in s.confirmed
  }

  /** The row was written: it is the only one of the job, and while it is live nobody works on a deletion. */
  ghost predicate Written(s: System, k: Key) {
    && (forall x :: x in s.creators ==> At(s.creators[x].request.key) != At(k))
    && (forall x, y :: RowOf(s.world.table, x, At(k)) && RowOf(s.world.table, y, At(k)) ==> x == y)
    && (HasLive(s.world.table, At(k)) ==> NoWorker(s, At(k)) && At(k) !in s.confirmed)
  }

  ghost predicate Kept(s: System, k: Key) {
    Written(s, k) || exists h :: Pending(s, k, h)
  }

  /** The action is a delete request that is granted the claim of a row of this job. */
  ghost predicate AsksFor(s: System, c: Config, a: Action, u: UpstreamJob) {
    var r := StoreReply(s, c, a);
    a.ClaimVideo? && r.Claimed? && r.claim.Some? && At(r.claim.value.key) == u
  }

  // ----- rows through one store operation -----

  lemma DecideKeepsLive(u: Table, c: Config, op: Op, id: PublicId)
    requires id in u && id in Patch(u, Decide(u, c, op).0) && Fresh(u, op)
    ensures Patch(u, Decide(u, c, op).0)[id].phase.Live? ==> u[id].phase.Live?
  {}

  /** A row after an operation was there before with the same upstream job, and live if it is live now; or the operation
      brought it. */
  lemma RowComesFrom(w: World, c: Config, op: Op, id: PublicId)
    requires Sound(w, c) && ValidConfig(c) && Legal(w, op) && id in JobRuns.Next(w, c, op).table
    ensures var row := JobRuns.Next(w, c, op).table[id];
            if id in w.table then w.table[id].job.key == row.job.key && (row.phase.Live? ==> w.table[id].phase.Live?)
            else Brings(op, row.job.key) && id == op.id
  {
    SoundFresh(w, c, op);
    if !IsRejected(op) {
      var u := Base(w.table, c, op);
      BaseWellFormed(w.table, c, op);
      DecideShaped(u, c, op);
      if id in u {
        BaseKeepsRow(w.table, c, op, id);
        DecideKeepsLive(u, c, op, id);
        BaseKeepsLive(w.table, c, op, id);
      }
    }
  }

  lemma BaseKeepsLive(t: Table, c: Config, op: Op, id: PublicId)
    requires WellFormed(t) && id in Base(t, c, op) && id in t
    ensures Base(t, c, op)[id].phase.Live? ==> t[id].phase.Live?
  {
    if CleansFirst(op) {
      CleanupTidies(t, op.now, c.batch);
      assert IdTidied(t, Base(t, c, op), op.now, id);
    }
  }

  /** A cleanup claim is one of a hidden row. */
  lemma CleanupClaimsHidden(w: World, c: Config, op: Op)
    requires Sound(w, c) && ValidConfig(c) && Legal(w, op) && op.ClaimCleanup?
    requires ReplyOf(w, c, op).Claimed? && ReplyOf(w, c, op).claim.Some?
    ensures var j, t := ReplyOf(w, c, op).claim.value, JobRuns.Next(w, c, op).table;
            j.id in t && t[j.id].phase.Hidden? && t[j.id].job.key == j.key
  {
    SoundFresh(w, c, op);
    BaseWellFormed(w.table, c, op);
    DecideClaims(Base(w.table, c, op), c, op);
  }

  /** Rows of the job are never added but by its own create handler. */
  lemma StepRowsOf(s: System, c: Config, protocol: string, a: Action, u: UpstreamJob, id: PublicId)
    requires Inv(s, c) && ValidConfig(c) && Enabled(s, protocol, a) && RowOf(StoreNext(s, c, a).table, id, u)
    ensures var t := StoreNext(s, c, a).table;
            || (RowOf(s.world.table, id, u) && (t[id].phase.Live? ==> s.world.table[id].phase.Live?))
            || ((a.Persist? || a.EnqueueCleanup?) && a.ok && a.id == id && id !in s.world.table
                && At(s.creators[a.h].request.key) == u)
  {
    if StoreOp(s, a).Some? { RowComesFrom(s.world, c, StoreOp(s, a).value, id); }
  }

  /** A worker on the job after the step worked on it before, or has just claimed a row of it. */
  lemma StepWorkersOf(s: System, c: Config, protocol: string, a: Action, u: UpstreamJob, w: Handler)
    requires Inv(s, c) && ValidConfig(c) && Enabled(s, protocol, a) && !AsksFor(s, c, a, u)
    requires w in Step(s, c, protocol, a).workers && At(Step(s, c, protocol, a).workers[w].job.key) == u
    ensures || (w in s.workers && At(s.workers[w].job.key) == u)
            || (exists id :: RowOf(StoreNext(s, c, a).table, id, u) && StoreNext(s, c, a).table[id].phase.Hidden?)
  {
    RouteWorkers(s, protocol, a, StoreReply(s, c, a), w);
    if w !in s.workers && a.ClaimWork? {
      var op := StoreOp(s, a).value;
      CleanupClaimsHidden(s.world, c, op);
      assert RowOf(StoreNext(s, c, a).table, ReplyOf(s.world, c, op).claim.value.id, u);
    }
  }

  lemma RouteConfirms(s: System, protocol: string, a: Action, reply: Reply, u: UpstreamJob)
    requires Enabled(s, protocol, a) && u !in s.confirmed && u in Route(s, protocol, a, reply).confirmed
    ensures || (a.Compensate? && At(s.creators[a.h].request.key) == u)
            || (a.OwnerAnswers? && At(s.workers[a.h].job.key) == u)
  {}

  /** Handlers of the job: none is added once it was seen. */
  lemma RouteCreatorsOf(s: System, protocol: string, a: Action, reply: Reply, u: UpstreamJob, x: Handler)
    requires Enabled(s, protocol, a) && u in s.seen
    requires x in Route(s, protocol, a, reply).creators && At(Route(s, protocol, a, reply).creators[x].request.key) == u
    ensures x in s.creators && Route(s, protocol, a, reply).creators[x].request == s.creators[x].request
  {}

  // ----- one step -----

  lemma AcceptedIsPending(s: System, c: Config, protocol: string, a: Action)
    requires Inv(s, c) && Enabled(s, protocol, a) && a.OwnerAccepts?
    ensures Pending(Step(s, c, protocol, a), a.request.key, a.h)
  {
    var s', u := Step(s, c, protocol, a), At(a.request.key);
    forall x | x in s.creators ensures At(s.creators[x].request.key) != u { assert CreatorSound(s, x); }
    forall w | w in s.workers ensures At(s.workers[w].job.key) != u { assert WorkerSound(s, w); }
    assert s'.world == s.world && s'.workers == s.workers && s'.confirmed == s.confirmed;
  }

  lemma NoRowAdded(s: System, c: Config, protocol: string, a: Action, u: UpstreamJob, id: PublicId)
    requires Inv(s, c) && ValidConfig(c) && Enabled(s, protocol, a) && RowOf(StoreNext(s, c, a).table, id, u)
    requires forall x :: x in s.creators ==> At(s.creators[x].request.key) != u
    ensures RowOf(s.world.table, id, u) && (StoreNext(s, c, a).table[id].phase.Live? ==> s.world.table[id].phase.Live?)
  {
    StepRowsOf(s, c, protocol, a, u, id);
  }

  /** Nobody starts on a deletion of a job with a live row. */
  lemma NobodyStarts(s: System, c: Config, protocol: string, a: Action, u: UpstreamJob, id: PublicId)
    requires Inv(s, c) && ValidConfig(c) && Enabled(s, protocol, a) && !AsksFor(s, c, a, u)
    requires (forall x :: x in s.creators ==> At(s.creators[x].request.key) != u) && NoWorker(s, u) && u !in s.confirmed
    requires RowOf(StoreNext(s, c, a).table, id, u) && StoreNext(s, c, a).table[id].phase.Live?
    requires forall x :: RowOf(StoreNext(s, c, a).table, x, u) ==> x == id
    ensures NoWorker(Step(s, c, protocol, a), u) && u !in Step(s, c, protocol, a).confirmed
  {
    var s' := Step(s, c, protocol, a);
    forall w | w in s'.workers ensures At(s'.workers[w].job.key) != u {
      if At(s'.workers[w].job.key) == u { StepWorkersOf(s, c, protocol, a, u, w); }
    }
    if u in s'.confirmed { RouteConfirms(s, protocol, a, StoreReply(s, c, a), u); }
  }

  lemma WrittenStays(s: System, c: Config, protocol: string, a: Action, k: Key)
    requires Inv(s, c) && ValidConfig(c) && Enabled(s, protocol, a) && At(k) in s.seen
    requires Written(s, k) && !AsksFor(s, c, a, At(k))
    ensures Written(Step(s, c, protocol, a), k)
  {
    var s', u, reply := Step(s, c, protocol, a), At(k), StoreReply(s, c, a);
    forall x | x in s'.creators ensures At(s'.creators[x].request.key) != u {
      if At(s'.creators[x].request.key) == u { RouteCreatorsOf(s, protocol, a, reply, u, x); }
    }
    forall id | RowOf(s'.world.table, id, u)
      ensures RowOf(s.world.table, id, u) && (s'.world.table[id].phase.Live? ==> s.world.table[id].phase.Live?)
    {
      NoRowAdded(s, c, protocol, a, u, id);
    }
    if id :| RowOf(s'.world.table, id, u) && s'.world.table[id].phase.Live? {
      assert HasLive(s.world.table, u);
      NobodyStarts(s, c, protocol, a, u, id);
    }
  }

  lemma PendingGoesOn(s: System, c: Config, protocol: string, a: Action, k: Key, h: Handler)
    requires Inv(s, c) && ValidConfig(c) && Enabled(s, protocol, a) && At(k) in s.seen
    requires Pending(s, k, h) && !AsksFor(s, c, a, At(k)) && k !in Step(s, c, protocol, a).refused
    ensures Kept(Step(s, c, protocol, a), k)
  {
    var s', u, reply := Step(s, c, protocol, a), At(k), StoreReply(s, c, a);
    var own := a.Persist? && a.h == h;
    forall id | RowOf(s'.world.table, id, u) ensures own && id == a.id && a.ok && s'.world.table[id].phase.Live? {
      StepRowsOf(s, c, protocol, a, u, id);
      assert a.h == h;
      CreatedIsLive(s, c, a);
    }
    forall x | x in s'.creators && At(s'.creators[x].request.key) == u ensures x == h {
      RouteCreatorsOf(s, protocol, a, reply, u, x);
    }
    forall w | w in s'.workers ensures At(s'.workers[w].job.key) != u {
      if At(s'.workers[w].job.key) == u { StepWorkersOf(s, c, protocol, a, u, w); }
    }
    if u in s'.confirmed { RouteConfirms(s, protocol, a, reply, u); }
    if own {
      assert a.ok && reply != Rejected && h !in s'.creators;
      assert Written(s', k);
    } else {
      PendingRoute(s, protocol, a, reply, h);
      assert Pending(s', k, h);
    }
  }

  lemma PendingRoute(s: System, protocol: string, a: Action, reply: Reply, h: Handler)
    requires Enabled(s, protocol, a) && h in s.creators && s.creators[h].phase.Persisting? && !(a.Persist? && a.h == h)
    ensures h in Route(s, protocol, a, reply).creators && Route(s, protocol, a, reply).creators[h] == s.creators[h]
  {}

  lemma CreatedIsLive(s: System, c: Config, a: Action)
    requires a.Persist? && a.ok && a.h in s.creators && a.id !in s.world.table && a.id in StoreNext(s, c, a).table
    ensures StoreNext(s, c, a).table[a.id].phase.Live?
  {}

  // ----- whole runs -----

  /** A delete request was granted a claim of the job before state `n`. */
  ghost predicate AskedFor(ss: seq<System>, c: Config, actions: seq<Action>, n: nat, u: UpstreamJob)
    requires n <= |actions| < |ss|
  {
    exists i: nat :: i < n && AsksFor(ss[i], c, actions[i], u)
  }

  lemma StepKept(s: System, c: Config, protocol: string, a: Action, k: Key)
    requires Inv(s, c) && ValidConfig(c) && Enabled(s, protocol, a) && k in Step(s, c, protocol, a).parsed
    requires k in s.parsed && k !in s.refused ==> Kept(s, k)
    requires k !in Step(s, c, protocol, a).refused && !AsksFor(s, c, a, At(k))
    ensures Kept(Step(s, c, protocol, a), k)
  {
    RefusedGrows(s, protocol, a, StoreReply(s, c, a));
    if k !in s.parsed {
      assert a.OwnerAccepts? && a.request.key == k;
      AcceptedIsPending(s, c, protocol, a);
    } else if Written(s, k) {
      WrittenStays(s, c, protocol, a, k);
    } else {
      var h :| Pending(s, k, h);
      PendingGoesOn(s, c, protocol, a, k, h);
    }
  }

  lemma NotAsked(ss: seq<System>, c: Config, actions: seq<Action>, n: nat, u: UpstreamJob)
    requires n < |actions| < |ss| && !AskedFor(ss, c, actions, n + 1, u)
    ensures !AskedFor(ss, c, actions, n, u) && !AsksFor(ss[n], c, actions[n], u)
  {}

  lemma {:induction false} JobsAreKept(ss: seq<System>, c: Config, protocol: string, actions: seq<Action>, n: nat, k: Key)
    requires Execution(ss, c, protocol, actions) && n <= |actions|
    requires k in ss[n].parsed && k !in ss[n].refused && !AskedFor(ss, c, actions, n, At(k))
    ensures Kept(ss[n], k)
  {
    if n > 0 {
      var s, a := ss[n - 1], actions[n - 1];
      assert Enabled(s, protocol, a) && ss[(n - 1) + 1] == Step(s, c, protocol, a);
      ExecutionInv(ss, c, protocol, actions, n - 1);
      NotAsked(ss, c, actions, n - 1, At(k));
      if k in s.parsed && k !in s.refused { JobsAreKept(ss, c, protocol, actions, n - 1, k); }
      StepKept(s, c, protocol, a, k);
    }
  }

  lemma RefusedGrows(s: System, protocol: string, a: Action, reply: Reply)
    requires Enabled(s, protocol, a)
    ensures s.refused <= Route(s, protocol, a, reply).refused
  {}

  /** No job in use is deleted by cleanup: over every interleaving, while the row of a job created in this run is live,
      and visible rows are, its deletion is confirmed by the owner, or even in the hands of a worker, only if a delete
      request was granted the job's claim before. */
  lemma LiveJobsAreKept(ss: seq<System>, c: Config, protocol: string, actions: seq<Action>, n: nat, k: Key, id: PublicId)
    requires Execution(ss, c, protocol, actions) && n <= |actions|
    requires k in ss[n].parsed && k !in ss[n].refused
    requires RowOf(ss[n].world.table, id, At(k)) && ss[n].world.table[id].phase.Live?
    ensures At(k) in ss[n].confirmed || !NoWorker(ss[n], At(k)) ==> AskedFor(ss, c, actions, n, At(k))
  {
    if !AskedFor(ss, c, actions, n, At(k)) {
      JobsAreKept(ss, c, protocol, actions, n, k);
      assert HasLive(ss[n].world.table, At(k));
    }
  }
}
