/** What each operation of mesh/job_store.py promises, read from the history of a run and from the table before and
    after: leases and tokens, refusals, the queue of cleanup work, and what a new row says. */
module JobLaws {
  import opened Wrappers
  import opened JobTable
  import opened JobOps
  import opened JobRuns

  // ----- the lease of a row is what its history says -----

  /** A release or a quarantine of row `id` succeeds. */
  ghost predicate GivesBack(w: World, c: Config, op: Op, id: PublicId) {
    (op.Release? || op.Quarantine?) && op.id == id && ReplyOf(w, c, op) == Done(true)
  }

  /** The lease of row `id` by history: the last one granted, unless it was given back since. */
  ghost function LeaseGiven(ws: seq<World>, c: Config, ops: seq<Op>, n: nat, id: PublicId): Lease
    requires n <= |ops| < |ws|
  {
    if n == 0 then if id in ws[0].table then ws[0].table[id].lease else Free
    else
      var w, op := ws[n - 1], ops[n - 1];
      if Grants(w, c, op, id) then Held(op.token, op.now + op.lease)
      else if GivesBack(w, c, op, id) then Free
      else LeaseGiven(ws, c, ops, n - 1, id)
  }

  lemma TouchesKnown(w: World, c: Config, op: Op, id: PublicId)
    requires Sound(w, c) && Legal(w, op) && (Grants(w, c, op, id) || GivesBack(w, c, op, id))
    ensures id in w.ids
  {
    assert IdSound(w, c, id);
    if Grants(w, c, op, id) { GrantLeases(w, c, op, id); }
  }

  lemma {:induction false} UnknownIsFree(ws: seq<World>, c: Config, ops: seq<Op>, n: nat, id: PublicId)
    requires Behavior(ws, c, ops) && n <= |ops| && id !in ws[n].ids
    ensures LeaseGiven(ws, c, ops, n, id) == Free
  {
    if n > 0 {
      TokensKept(ws, c, ops, n - 1, n);
      BehaviorSound(ws, c, ops, n - 1);
      if Grants(ws[n - 1], c, ops[n - 1], id) || GivesBack(ws[n - 1], c, ops[n - 1], id) {
        TouchesKnown(ws[n - 1], c, ops[n - 1], id);
      }
      UnknownIsFree(ws, c, ops, n - 1, id);
    } else {
      BehaviorSound(ws, c, ops, 0);
      assert IdSound(ws[0], c, id);
    }
  }

  lemma StepLeaseGiven(w: World, c: Config, op: Op, id: PublicId)
    requires Sound(w, c) && ValidConfig(c) && Legal(w, op) && id in Next(w, c, op).table
    ensures Next(w, c, op).table[id].lease ==
              if Grants(w, c, op, id) then Held(op.token, op.now + op.lease)
              else if GivesBack(w, c, op, id) || id !in w.table then Free
              else w.table[id].lease
    ensures id in w.table || id !in w.ids
    ensures Grants(w, c, op, id) || GivesBack(w, c, op, id) ==> id in w.table
  {
    SoundFresh(w, c, op);
    assert IdSound(w, c, id);
    if !IsRejected(op) {
      var u := Base(w.table, c, op);
      BaseWellFormed(w.table, c, op);
      StepLease(w, c, op, id);
      DecideShaped(u, c, op);
      if id in u {
        GivenByDecide(u, c, op, id);
      } else {
        AddedByDecide(u, c, op, id);
      }
    }
  }

  lemma AddedByDecide(u: Table, c: Config, op: Op, id: PublicId)
    requires WellFormed(u) && Fresh(u, op) && !IsRejected(op) && id !in u && id in Patch(u, Decide(u, c, op).0)
    ensures (op.Create? || op.Enqueue?) && op.id == id && Patch(u, Decide(u, c, op).0)[id].lease == Free
  {}

  lemma GivenByDecide(u: Table, c: Config, op: Op, id: PublicId)
    requires WellFormed(u) && Fresh(u, op) && !IsRejected(op) && id in u && id in Patch(u, Decide(u, c, op).0)
    requires u[id].phase.Quarantined? ==> u[id].lease.Free?
    ensures var (ch, r) := Decide(u, c, op);
            Patch(u, ch)[id].lease ==
              if (op.ClaimDelete? || op.ClaimCleanup?) && r.Claimed? && r.claim.Some? && r.claim.value.id == id
              then Held(op.token, op.now + op.lease)
              else if (op.Release? || op.Quarantine?) && op.id == id && r == Done(true) then Free
              else u[id].lease
  {}

  /** The lease of a row is the one that was granted last, unless it was given back with its token since. */
  lemma {:induction false} LeaseIsHistory(ws: seq<World>, c: Config, ops: seq<Op>, n: nat, id: PublicId)
    requires Behavior(ws, c, ops) && n <= |ops| && id in ws[n].table
    ensures ws[n].table[id].lease == LeaseGiven(ws, c, ops, n, id)
  {
    if n > 0 {
      var w, op := ws[n - 1], ops[n - 1];
      BehaviorSound(ws, c, ops, n - 1);
      assert ws[(n - 1) + 1] == Next(w, c, op);
      StepLeaseGiven(w, c, op, id);
      if id in w.table { LeaseIsHistory(ws, c, ops, n - 1, id); } else { UnknownIsFree(ws, c, ops, n - 1, id); }
    }
  }

  // ----- tokens -----

  /** The token holds the row: it was granted last, and not given back or superseded since. */
  ghost predicate InForce(ws: seq<World>, c: Config, ops: seq<Op>, n: nat, id: PublicId, token: Token)
    requires n <= |ops| < |ws|
  {
    id in ws[n].table && LeaseGiven(ws, c, ops, n, id).Held? && LeaseGiven(ws, c, ops, n, id).token == token
  }

  /** Nothing but row `id` differs. */
  predicate OnlyRow(t: Table, u: Table, id: PublicId) {
    t - {id} == u - {id}
  }

  lemma TokenAnswers(w: World, c: Config, op: Op)
    requires op.Release? || op.Quarantine? || op.Confirm?
    ensures var works := Holds(w.table, op.id, op.token) && (op.Quarantine? ==> w.table[op.id].phase.Hidden?);
            && ReplyOf(w, c, op) == Done(works)
            && (if !works then Next(w, c, op).table == w.table
                else
                  && OnlyRow(w.table, Next(w, c, op).table, op.id)
                  && (op.Confirm? <==> op.id !in Next(w, c, op).table)
                  && (!op.Confirm? ==>
                        var row, row' := w.table[op.id], Next(w, c, op).table[op.id];
                        && row'.lease.Free? && row'.job == row.job
                        && row'.phase == if op.Quarantine? then Quarantined else row.phase))
  {
    var t := Next(w, c, op).table;
    assert t - {op.id} == w.table - {op.id};
  }

  /** A token that is in force works, whatever the time is, and no other does. With it a confirm removes the row, a
      release frees it, and a quarantine parks it if it is hidden; otherwise nothing changes. */
  lemma TokenWorksIff(ws: seq<World>, c: Config, ops: seq<Op>, n: nat)
    requires Behavior(ws, c, ops) && n < |ops| && (ops[n].Release? || ops[n].Quarantine? || ops[n].Confirm?)
    ensures var op, t, u := ops[n], ws[n].table, ws[n + 1].table;
            var works := InForce(ws, c, ops, n, op.id, op.token) && (op.Quarantine? ==> t[op.id].phase.Hidden?);
            && ReplyOf(ws[n], c, op) == Done(works)
            && (!works ==> u == t)
            && (works ==> OnlyRow(t, u, op.id))
            && (works && op.Confirm? ==> op.id !in u)
            && (works && op.Release? ==> op.id in u && u[op.id] == t[op.id].(lease := Free))
            && (works && op.Quarantine? ==> op.id in u && u[op.id].phase.Quarantined? && u[op.id].job == t[op.id].job)
  {
    var op := ops[n];
    TokenAnswers(ws[n], c, op);
    if op.id in ws[n].table { LeaseIsHistory(ws, c, ops, n, op.id); }
    assert ws[n + 1] == Next(ws[n], c, op);
    if op.Release? && Holds(ws[n].table, op.id, op.token) { ReleasedRow(ws[n], c, op); }
  }

  lemma ReleasedRow(w: World, c: Config, op: Op)
    requires op.Release? && Holds(w.table, op.id, op.token)
    ensures op.id in Next(w, c, op).table && Next(w, c, op).table[op.id] == w.table[op.id].(lease := Free)
  {}

  // ----- claims -----

  /** A delete request is granted the claim of a job exactly when the job is alive and nobody has it. */
  lemma DeleteClaimIff(ws: seq<World>, c: Config, ops: seq<Op>, n: nat)
    requires Behavior(ws, c, ops) && n < |ops| && ops[n].ClaimDelete? && ops[n].lease > 0.0
    ensures var op := ops[n];
            Grants(ws[n], c, op, op.id) <==>
              Alive(ws[n].jobs, c.ttl, op.id, op.now) && LeaseFree(LeaseGiven(ws, c, ops, n, op.id), op.now)
  {
    var op, w := ops[n], ws[n];
    BehaviorSound(ws, c, ops, n);
    BaseAgrees(w, c, op);
    BaseWellFormedFor(w, c, op);
    if Alive(w.jobs, c.ttl, op.id, op.now) {
      BaseKeepsRow(w.table, c, op, op.id);
      LeaseIsHistory(ws, c, ops, n, op.id);
    }
    VisibleIsNamed(Base(w.table, c, op), op);
  }

  lemma BaseWellFormedFor(w: World, c: Config, op: Op)
    requires Sound(w, c) && Legal(w, op)
    ensures WellFormed(Base(w.table, c, op)) && Fresh(Base(w.table, c, op), op)
  {
    SoundFresh(w, c, op);
    BaseWellFormed(w.table, c, op);
  }

  lemma VisibleIsNamed(u: Table, op: Op)
    requires op.ClaimDelete? && WellFormed(u)
    ensures Visible(u, op.id, op.now) ==> u[op.id].job.id == op.id
  {}

  /** Row `x` is cleanup work that nobody has at that time. */
  predicate Waits(t: Table, now: Time, x: PublicId) {
    x in t && t[x].phase.Hidden? && (t[x].lease.Free? || t[x].lease.until <= now)
  }

  /** A cleanup claim is granted whenever work is waiting after the pass; it is the work that expired first, the smaller
      id first among equals, and it is leased until the end of the lease. */
  lemma CleanupClaimIff(w: World, c: Config, op: Op)
    requires Sound(w, c) && ValidConfig(c) && Legal(w, op) && op.ClaimCleanup? && op.lease > 0.0
    ensures var u, r := Cleanup(w.table, op.now, c.batch), ReplyOf(w, c, op);
            && r.Claimed? && (r.claim.Some? <==> exists x :: Waits(u, op.now, x))
            && (r.claim.Some? ==>
                  var m := r.claim.value.id;
                  && Waits(u, op.now, m) && u[m].job == r.claim.value
                  && (forall x :: Waits(u, op.now, x) ==>
                        u[m].job.expires < u[x].job.expires || (u[m].job.expires == u[x].job.expires && m <= x))
                  && Next(w, c, op).table == u[m := u[m].(lease := Held(op.token, op.now + op.lease))])
  {
    var u := Cleanup(w.table, op.now, c.batch);
    BaseWellFormedFor(w, c, op);
    ApplyClaimCleanup(w.table, c, op.lease, op.now, op.token);
    forall x ensures Waits(u, op.now, x) <==> x in Claimable(u, op.now) {}
    if exists x :: Waits(u, op.now, x) {
      var x :| Waits(u, op.now, x);
      assert x in Claimable(u, op.now);
      var m := First(u, ByExpiry, Claimable(u, op.now));
      forall y | Waits(u, op.now, y)
        ensures u[m].job.expires < u[y].job.expires || (u[m].job.expires == u[y].job.expires && m <= y)
      {
        assert y in Claimable(u, op.now);
      }
    }
  }

  /** A granted claim leases its row until the end of the lease: the named live row, or a hidden one. */
  lemma ClaimLeases(w: World, c: Config, op: Op)
    requires Sound(w, c) && Legal(w, op) && (op.ClaimDelete? || op.ClaimCleanup?)
    requires ReplyOf(w, c, op).Claimed? && ReplyOf(w, c, op).claim.Some?
    ensures var j, u := ReplyOf(w, c, op).claim.value, Next(w, c, op).table;
            && j.id in u && u[j.id].job == j && u[j.id].lease == Held(op.token, op.now + op.lease)
            && (op.ClaimDelete? ==> j.id == op.id && u[j.id].phase.Live?) && (op.ClaimCleanup? ==> u[j.id].phase.Hidden?)
  {
    BaseWellFormedFor(w, c, op);
    DecideClaims(Base(w.table, c, op), c, op);
    if op.ClaimDelete? { VisibleIsNamed(Base(w.table, c, op), op); }
  }

  // ----- refusals -----

  predicate TooLong(s: string, limit: nat) { |s| == 0 || |s| > limit }

  /** A create or an enqueue is refused exactly when one of its texts is empty or too long, and then changes nothing. */
  lemma RefusedIff(w: World, c: Config, op: Op)
    requires op.Create? || op.Enqueue?
    ensures var r := op.request;
            ReplyOf(w, c, op) == Rejected <==>
              || TooLong(r.key.protocol, 128) || TooLong(r.specialist, 256) || TooLong(r.node, 256)
              || TooLong(r.key.origin, 2048) || TooLong(r.key.upstream, 1024) || TooLong(r.status, 64)
    ensures ReplyOf(w, c, op) == Rejected ==> Next(w, c, op).table == w.table
  {}

  /** The others are refused for a lease that is not positive, or a status that is empty or too long. */
  lemma OthersRefusedIff(w: World, c: Config, op: Op)
    requires !op.Create? && !op.Enqueue?
    ensures ReplyOf(w, c, op) == Rejected <==>
              || ((op.ClaimDelete? || op.ClaimCleanup?) && op.lease <= 0.0)
              || (op.UpdateStatus? && TooLong(op.status, 64))
    ensures ReplyOf(w, c, op) == Rejected ==> Next(w, c, op).table == w.table
  {}

  // ----- new rows, and rows that go -----

  /** What a job says that a request brought. */
  predicate SaysRequest(j: Job, r: Request, id: PublicId, now: Time) {
    && j.id == id && j.key == r.key && j.specialist == r.specialist && j.node == r.node && j.status == r.status
    && j.created == now && j.updated == now
  }

  /** An accepted create adds one live row that nobody holds, with what the request says, for the time to live. */
  lemma CreateStores(w: World, c: Config, op: Op)
    requires op.Create? && ReplyOf(w, c, op) != Rejected
    ensures var t := Next(w, c, op).table;
            && OnlyRow(Cleanup(w.table, op.now, c.batch), t, op.id) && op.id in t
            && t[op.id].phase.Live? && t[op.id].lease.Free? && ReplyOf(w, c, op) == Found(Some(t[op.id].job))
            && SaysRequest(t[op.id].job, op.request, op.id, op.now) && t[op.id].job.expires == op.now + c.ttl
  {
    var t := Next(w, c, op).table;
    assert t - {op.id} == Cleanup(w.table, op.now, c.batch) - {op.id};
  }

  /** A delete that succeeds leaves no row of the job, and no delete touches another row. */
  lemma DeleteDrops(w: World, c: Config, op: Op)
    requires op.Delete?
    ensures Next(w, c, op).table ==
              if ReplyOf(w, c, op) == Done(true) then Cleanup(w.table, op.now, c.batch) - {op.id}
              else Cleanup(w.table, op.now, c.batch)
  {}

  /** A status write changes the status and the time of the update, of that row alone. */
  lemma UpdateWrites(w: World, c: Config, op: Op)
    requires op.UpdateStatus? && ReplyOf(w, c, op) == Done(true)
    ensures var u, t := Cleanup(w.table, op.now, c.batch), Next(w, c, op).table;
            && OnlyRow(u, t, op.id) && op.id in u && op.id in t
            && t[op.id] == u[op.id].(job := t[op.id].job)
            && t[op.id].job == u[op.id].job.(status := op.status, updated := op.now)
  {
    var u, t := Cleanup(w.table, op.now, c.batch), Next(w, c, op).table;
    assert t - {op.id} == u - {op.id};
  }

  /** Reading, sweeping and claims that are not granted only run the pass. */
  lemma OnlyTidies(w: World, c: Config, op: Op)
    requires op.Sweep? || op.Get? || (op.UpdateStatus? && ReplyOf(w, c, op) == Done(false))
             || ((op.ClaimDelete? || op.ClaimCleanup?) && ReplyOf(w, c, op) == Claimed(None))
    ensures Next(w, c, op).table == Cleanup(w.table, op.now, c.batch)
  {}

  // ----- enqueueing cleanup work -----

  /** The enqueue keeps `hit`, the row of the key that comes first: live before hidden before quarantined, then by
      creation, then by id. */
  predicate ComesFirst(t: Table, k: Key, hit: PublicId) {
    && hit in t && t[hit].job.key == k
    && forall x :: x in t && t[x].job.key == k ==>
         var a, b := Urgency(t[hit].phase), Urgency(t[x].phase);
         a < b || (a == b && (t[hit].job.created < t[x].job.created || (t[hit].job.created == t[x].job.created && hit <= x)))
  }

  function Urgency(p: Phase): nat { match p case Live => 0 case Hidden => 1 case Quarantined => 2 }

  lemma ExistingComesFirst(t: Table, k: Key)
    ensures HasKey(t, k) ==> Existing(t, k).Some? && ComesFirst(t, k, Existing(t, k).value)
  {
    if HasKey(t, k) {
      var hit := Existing(t, k).value;
      var live, hidden, parked := WithKey(t, k, Live), WithKey(t, k, Hidden), WithKey(t, k, Quarantined);
      forall x | x in t && t[x].job.key == k
        ensures var a, b := Urgency(t[hit].phase), Urgency(t[x].phase);
                a < b || (a == b && (t[hit].job.created < t[x].job.created || (t[hit].job.created == t[x].job.created && hit <= x)))
      {
        assert x in WithKey(t, k, t[x].phase);
      }
    }
  }

  /** An accepted enqueue leaves a row of the key that is live or hidden work. A row of the key is used again: as it is
      unless it was quarantined; a quarantined one, and a new one, becomes work that waits from now on and says what the
      request says. No other row changes, and no pass is run. */
  lemma EnqueueCovers(w: World, c: Config, op: Op)
    requires Sound(w, c) && Legal(w, op) && op.Enqueue? && ReplyOf(w, c, op) != Rejected
    ensures var t, u, r := w.table, Next(w, c, op).table, ReplyOf(w, c, op);
            && r.Found? && r.job.Some?
            && var hit := r.job.value.id;
            && hit in u && u[hit].job == r.job.value && u[hit].job.key == op.request.key && !u[hit].phase.Quarantined?
            && OnlyRow(t, u, hit)
            && (HasKey(t, op.request.key) ==> ComesFirst(t, op.request.key, hit))
            && (hit in t && !t[hit].phase.Quarantined? ==> u == t)
            && (hit in t && t[hit].phase.Quarantined? ==> u[hit].job.created == t[hit].job.created)
            && (hit !in t ==> hit == op.id && SaysRequest(u[hit].job, op.request, op.id, op.now))
            && (hit !in t || t[hit].phase.Quarantined? ==> IsNewWork(u[hit], op.request, op.now))
  {
    var t, u := w.table, Next(w, c, op).table;
    SoundFresh(w, c, op);
    ExistingComesFirst(t, op.request.key);
    var hit := ReplyOf(w, c, op).job.value.id;
    assert t - {hit} == u - {hit};
  }

  predicate IsNewWork(row: Row, r: Request, now: Time) {
    && row.phase.Hidden? && row.reason.CreateCompensation? && row.lease.Free?
    && row.job.specialist == r.specialist && row.job.node == r.node && row.job.status == r.status
    && row.job.updated == now && row.job.expires == now
  }

  // ----- quarantined rows -----

  lemma StepQuarantined(w: World, c: Config, op: Op, id: PublicId)
    requires Sound(w, c) && ValidConfig(c) && Legal(w, op) && id in w.table && w.table[id].phase.Quarantined?
    requires !(op.Enqueue? && op.request.key == w.table[id].job.key && ReplyOf(w, c, op) != Rejected)
    ensures id in Next(w, c, op).table && Next(w, c, op).table[id] == w.table[id] && !Grants(w, c, op, id)
  {
    assert IdSound(w, c, id);
    SoundFresh(w, c, op);
    if Grants(w, c, op, id) {
      BaseWellFormedFor(w, c, op);
      DecideClaims(Base(w.table, c, op), c, op);
      BaseKeepsRow(w.table, c, op, id);
      BaseLeavesQuarantined(w, c, op, id);
    }
    if !IsRejected(op) {
      BaseLeavesQuarantined(w, c, op, id);
      BaseWellFormedFor(w, c, op);
      DecideLeavesQuarantined(Base(w.table, c, op), c, op, id);
    }
  }

  lemma BaseLeavesQuarantined(w: World, c: Config, op: Op, id: PublicId)
    requires Sound(w, c) && id in w.table && w.table[id].phase.Quarantined?
    ensures id in Base(w.table, c, op) && Base(w.table, c, op)[id] == w.table[id]
  {
    if CleansFirst(op) {
      CleanupTidies(w.table, op.now, c.batch);
      assert IdTidied(w.table, Base(w.table, c, op), op.now, id);
    }
  }

  lemma DecideLeavesQuarantined(u: Table, c: Config, op: Op, id: PublicId)
    requires WellFormed(u) && Fresh(u, op) && id in u && u[id].phase.Quarantined? && u[id].lease.Free? && !IsRejected(op)
    requires !(op.Enqueue? && op.request.key == u[id].job.key)
    ensures id in Patch(u, Decide(u, c, op).0) && Patch(u, Decide(u, c, op).0)[id] == u[id]
  {}

  /** The operation is an accepted enqueue of this key. */
  ghost predicate Requeues(w: World, c: Config, op: Op, k: Key) {
    op.Enqueue? && op.request.key == k && ReplyOf(w, c, op) != Rejected
  }

  /** If row `id` is quarantined before operation `i`, it stays so, and is not handed out, unless its key is requeued. */
  ghost predicate StaysAt(ws: seq<World>, c: Config, ops: seq<Op>, i: nat, id: PublicId)
    requires i < |ops| < |ws|
  {
    id in ws[i].table && ws[i].table[id].phase.Quarantined? && !Requeues(ws[i], c, ops[i], ws[i].table[id].job.key) ==>
      id in ws[i + 1].table && ws[i + 1].table[id] == ws[i].table[id] && !Grants(ws[i], c, ops[i], id)
  }

  lemma AllStay(ws: seq<World>, c: Config, ops: seq<Op>, id: PublicId)
    requires Behavior(ws, c, ops)
    ensures forall i: nat :: i < |ops| ==> StaysAt(ws, c, ops, i, id)
  {
    forall i: nat | i < |ops| ensures StaysAt(ws, c, ops, i, id) {
      if id in ws[i].table && ws[i].table[id].phase.Quarantined? && !Requeues(ws[i], c, ops[i], ws[i].table[id].job.key) {
        BehaviorSound(ws, c, ops, i);
        StepQuarantined(ws[i], c, ops[i], id);
      }
    }
  }

  lemma {:induction false} RowLasts(ws: seq<World>, c: Config, ops: seq<Op>, m: nat, n: nat, id: PublicId, row: Row)
    requires m <= n <= |ops| < |ws| && forall i: nat :: i < |ops| ==> StaysAt(ws, c, ops, i, id)
    requires id in ws[m].table && ws[m].table[id] == row && row.phase.Quarantined?
    requires forall i: nat :: m <= i < n ==> !Requeues(ws[i], c, ops[i], row.job.key)
    ensures id in ws[n].table && ws[n].table[id] == row && forall i: nat :: m <= i < n ==> !Grants(ws[i], c, ops[i], id)
    decreases n
  {
    if m < n {
      RowLasts(ws, c, ops, m, n - 1, id, row);
      assert StaysAt(ws, c, ops, n - 1, id);
    }
  }

  /** A quarantined row stays as it is, and nobody is handed it, until its key is enqueued again. */
  lemma QuarantineLasts(ws: seq<World>, c: Config, ops: seq<Op>, m: nat, n: nat, id: PublicId)
    requires Behavior(ws, c, ops) && m <= n <= |ops| && id in ws[m].table && ws[m].table[id].phase.Quarantined?
    requires forall i: nat :: m <= i < n ==> !Requeues(ws[i], c, ops[i], ws[m].table[id].job.key)
    ensures id in ws[n].table && ws[n].table[id] == ws[m].table[id]
    ensures forall i: nat :: m <= i < n ==> !Grants(ws[i], c, ops[i], id)
  {
    AllStay(ws, c, ops, id);
    RowLasts(ws, c, ops, m, n, id, ws[m].table[id]);
  }
}
