/** The operations of mesh/job_store.py as steps on the owner table.

    Every operation is one transaction: `Apply` gives the new table and the reply.
    A rejected argument (`ValueError`) leaves the table as it was. */
module JobOps {
  import opened Wrappers
  import opened JobTable

  datatype Request = Request(key: Key, specialist: string, node: string, status: string)

  predicate ValidText(s: string, limit: nat) {
    0 < |s| <= limit
  }

  predicate ValidRequest(r: Request) {
    && ValidText(r.key.protocol, 128) && ValidText(r.specialist, 256) && ValidText(r.node, 256)
    && ValidText(r.key.origin, 2048) && ValidText(r.key.upstream, 1024) && ValidText(r.status, 64)
  }

  datatype Config = Config(ttl: Time, batch: nat)

  predicate ValidConfig(c: Config) {
    c.ttl > 0.0 && c.batch >= 1
  }

  datatype Op =
    | Sweep(now: Time)
    | Create(request: Request, now: Time, id: PublicId)
    | Enqueue(request: Request, now: Time, id: PublicId)
    | Get(id: PublicId, now: Time)
    | UpdateStatus(id: PublicId, status: string, now: Time)
    | Delete(id: PublicId, now: Time)
    | ClaimDelete(id: PublicId, lease: Time, now: Time, token: Token)
    | ClaimCleanup(lease: Time, now: Time, token: Token)
    | Release(id: PublicId, token: Token)
    | Quarantine(id: PublicId, token: Token)
    | Confirm(id: PublicId, token: Token)

  datatype Reply =
    | Rejected
    | Done(ok: bool)
    | Found(job: Option<Job>)
    | Claimed(claim: Option<Job>)

  function NewJob(r: Request, id: PublicId, now: Time, expires: Time): Job {
    Job(id, r.key, r.specialist, r.node, now, now, expires, r.status)
  }

  // ----- enqueue_cleanup -----

  function WithKey(t: Table, k: Key, p: Phase): set<PublicId> {
    set id | id in t && t[id].job.key == k && t[id].phase == p
  }

  /** The row `ORDER BY CASE cleanup_pending ..., created_at, public_id LIMIT 1` finds. */
  ghost function Existing(t: Table, k: Key): (r: Option<PublicId>)
    ensures r.None? <==> !HasKey(t, k)
    ensures r.Some? ==> r.value in t && t[r.value].job.key == k
    ensures r.Some? && t[r.value].phase.Quarantined? ==> !HasHidden(t, k)
  {
    var live, hidden, parked := WithKey(t, k, Live), WithKey(t, k, Hidden), WithKey(t, k, Quarantined);
    assert HasKey(t, k) ==> exists id :: id in live + hidden + parked by {
      if HasKey(t, k) {
        var id :| id in t && t[id].job.key == k;
        assert id in live + hidden + parked;
      }
    }
    assert HasHidden(t, k) ==> |hidden| > 0 by {
      if HasHidden(t, k) {
        var id :| id in t && t[id].phase.Hidden? && t[id].job.key == k;
        assert id in hidden;
      }
    }
    if |live| > 0 then Some(First(t, ByCreation, live))
    else if |hidden| > 0 then Some(First(t, ByCreation, hidden))
    else if |parked| > 0 then Some(First(t, ByCreation, parked))
    else None
  }

  function Requeue(row: Row, r: Request, now: Time): Row {
    Row(row.job.(specialist := r.specialist, node := r.node, updated := now, expires := now, status := r.status),
        Hidden, CreateCompensation, Free)
  }

  // ----- claims -----

  function Claimable(t: Table, now: Time): set<PublicId> {
    set id | id in t && t[id].phase.Hidden? && LeaseFree(t[id].lease, now)
  }

  predicate Holds(t: Table, id: PublicId, token: Token) {
    id in t && t[id].lease.Held? && t[id].lease.token == token
  }

  // ----- one transaction -----

  /** The write of one operation after its cleanup pass: at most one row changes. */
  datatype Change = Keep | Put(id: PublicId, row: Row) | Drop(id: PublicId)

  function Patch(t: Table, ch: Change): Table {
    match ch
    case Keep => t
    case Put(id, row) => t[id := row]
    case Drop(id) => t - {id}
  }

  predicate IsRejected(op: Op) {
    match op
    case Create(r, _, _) => !ValidRequest(r)
    case Enqueue(r, _, _) => !ValidRequest(r)
    case UpdateStatus(_, status, _) => !ValidText(status, 64)
    case ClaimDelete(_, lease, _, _) => lease <= 0.0
    case ClaimCleanup(lease, _, _) => lease <= 0.0
    case _ => false
  }

  /** Operations that run `_cleanup_expired` first. Enqueue and the token operations do not. */
  predicate CleansFirst(op: Op) {
    !IsRejected(op) && !op.Enqueue? && !op.Release? && !op.Quarantine? && !op.Confirm?
  }

  ghost function Base(t: Table, c: Config, op: Op): Table {
    if CleansFirst(op) then Cleanup(t, op.now, c.batch) else t
  }

  ghost function DecideEnqueue(u: Table, r: Request, now: Time, id: PublicId): (Change, Reply) {
    match Existing(u, r.key)
    case None =>
      var job := NewJob(r, id, now, now);
      (Put(id, Row(job, Hidden, CreateCompensation, Free)), Found(Some(job)))
    case Some(hit) =>
      if u[hit].phase.Quarantined? then
        var row := Requeue(u[hit], r, now);
        (Put(hit, row), Found(Some(row.job)))
      else (Keep, Found(Some(u[hit].job)))
  }

  function Lend(u: Table, id: PublicId, token: Token, until: Time): (Change, Reply)
    requires id in u
  {
    (Put(id, u[id].(lease := Held(token, until))), Claimed(Some(u[id].job)))
  }

  /** What an accepted operation does to the table `u` its cleanup pass left. */
  ghost function Decide(u: Table, c: Config, op: Op): (Change, Reply) {
    match op
    case Sweep(now) => (Keep, Done(true))
    case Create(r, now, id) =>
      var job := NewJob(r, id, now, now + c.ttl);
      (Put(id, Row(job, Live, NoReason, Free)), Found(Some(job)))
    case Enqueue(r, now, id) => DecideEnqueue(u, r, now, id)
    case Get(id, now) => (Keep, Found(if Visible(u, id, now) then Some(u[id].job) else None))
    case UpdateStatus(id, status, now) =>
      if Visible(u, id, now)
      then (Put(id, u[id].(job := u[id].job.(status := status, updated := now))), Done(true))
      else (Keep, Done(false))
    case Delete(id, now) => if Visible(u, id, now) then (Drop(id), Done(true)) else (Keep, Done(false))
    case ClaimDelete(id, lease, now, token) =>
      if Visible(u, id, now) && LeaseFree(u[id].lease, now) then Lend(u, id, token, now + lease)
      else (Keep, Claimed(None))
    case ClaimCleanup(lease, now, token) =>
      if |Claimable(u, now)| == 0 then (Keep, Claimed(None))
      else Lend(u, First(u, ByExpiry, Claimable(u, now)), token, now + lease)
    case Release(id, token) =>
      if Holds(u, id, token) then (Put(id, u[id].(lease := Free)), Done(true)) else (Keep, Done(false))
    case Quarantine(id, token) =>
      if Holds(u, id, token) && u[id].phase.Hidden?
      then (Put(id, Row(u[id].job, Quarantined, InvalidProtocol, Free)), Done(true))
      else (Keep, Done(false))
    case Confirm(id, token) => if Holds(u, id, token) then (Drop(id), Done(true)) else (Keep, Done(false))
  }

  ghost function Apply(t: Table, c: Config, op: Op): (Table, Reply) {
    if IsRejected(op) then (t, Rejected)
    else
      var u := Base(t, c, op);
      var (change, reply) := Decide(u, c, op);
      (Patch(u, change), reply)
  }

  lemma ApplyClaimDelete(t: Table, c: Config, id: PublicId, lease: Time, now: Time, token: Token)
    ensures var u := Cleanup(t, now, c.batch);
            Apply(t, c, ClaimDelete(id, lease, now, token)) ==
            if lease <= 0.0 then (t, Rejected)
            else if Visible(u, id, now) && LeaseFree(u[id].lease, now) then Lent(u, id, token, now + lease)
            else (u, Claimed(None))
  {}

  lemma ApplyClaimCleanup(t: Table, c: Config, lease: Time, now: Time, token: Token)
    ensures var u := Cleanup(t, now, c.batch);
            Apply(t, c, ClaimCleanup(lease, now, token)) ==
            if lease <= 0.0 then (t, Rejected)
            else if |Claimable(u, now)| == 0 then (u, Claimed(None))
            else Lent(u, First(u, ByExpiry, Claimable(u, now)), token, now + lease)
  {}

  function Lent(u: Table, id: PublicId, token: Token, until: Time): (Table, Reply)
    requires id in u
  {
    (Patch(u, Lend(u, id, token, until).0), Lend(u, id, token, until).1)
  }

  predicate Fresh(t: Table, op: Op) {
    op.Create? || op.Enqueue? ==> op.id !in t
  }

  /** Every write replaces one row under its own key, adds one fresh row, or drops one row. */
  ghost predicate Shaped(u: Table, op: Op, ch: Change) {
    match ch
    case Keep => true
    case Drop(id) => id in u && (op.Confirm? || op.Delete?) && op.id == id
    case Put(id, row) =>
      && row.job.id == id
      && (if id in u then row.job.key == u[id].job.key && SameRole(u, id, row)
          else Brings(op, row.job.key) && id == op.id && (row.phase.Hidden? ==> !HasHidden(u, row.job.key)))
  }

  ghost predicate SameRole(u: Table, id: PublicId, row: Row)
    requires id in u
  {
    row.phase.Hidden? ==> u[id].phase.Hidden? || !HasHidden(u, row.job.key)
  }

  predicate Brings(op: Op, k: Key) {
    (op.Create? || op.Enqueue?) && op.request.key == k && !IsRejected(op)
  }

  lemma DecideShaped(u: Table, c: Config, op: Op)
    requires WellFormed(u) && Fresh(u, op) && !IsRejected(op)
    ensures Shaped(u, op, Decide(u, c, op).0)
    ensures Decide(u, c, op).0.Drop? ==> Decide(u, c, op).1 == Done(true)
  {}

  /** A granted claim reports the row it leases, unchanged but for the lease. */
  lemma DecideClaims(u: Table, c: Config, op: Op)
    requires WellFormed(u) && (op.ClaimDelete? || op.ClaimCleanup?)
    requires Decide(u, c, op).1.Claimed? && Decide(u, c, op).1.claim.Some?
    ensures var j := Decide(u, c, op).1.claim.value;
            && j.id in u && u[j.id].job == j && LeaseFree(u[j.id].lease, op.now)
            && (op.ClaimCleanup? ==> u[j.id].phase.Hidden?)
            && (op.ClaimDelete? ==> u[j.id].phase.Live? && op.now < j.expires)
            && Decide(u, c, op).0 == Put(j.id, u[j.id].(lease := Held(op.token, op.now + op.lease)))
  {}

  lemma PatchWellFormed(u: Table, op: Op, ch: Change)
    requires WellFormed(u) && Shaped(u, op, ch)
    ensures WellFormed(Patch(u, ch))
  {
    var t' := Patch(u, ch);
    forall x, y | BothHidden(t', x, y) ensures x == y {
      if ch.Put? && (x == ch.id) != (y == ch.id) {
        var other := if x == ch.id then y else x;
        assert HasHidden(u, ch.row.job.key) by { assert u[other].job.key == ch.row.job.key; }
        if ch.id in u { assert BothHidden(u, ch.id, other); }
      } else if x != y {
        assert BothHidden(u, x, y);
      }
    }
  }

  lemma PatchKeys(u: Table, op: Op, ch: Change, k: Key)
    requires Shaped(u, op, ch)
    ensures HasKey(u, k) && !HasKey(Patch(u, ch), k) ==> ch.Drop? && u[ch.id].job.key == k
    ensures HasKey(Patch(u, ch), k) && !HasKey(u, k) ==> Brings(op, k)
    ensures ch.Put? && ch.row.job.key == k ==> HasKey(Patch(u, ch), k)
  {
    var t' := Patch(u, ch);
    if x :| x in u && u[x].job.key == k {
      if !(ch.Drop? && ch.id == x) { assert t'[x].job.key == k; }
    }
    if x :| x in t' && t'[x].job.key == k {
      if x in u { assert u[x].job.key == k; }
    }
    if ch.Put? { assert t'[ch.id] == ch.row; }
  }

  lemma BaseWellFormed(t: Table, c: Config, op: Op)
    requires WellFormed(t) && Fresh(t, op)
    ensures WellFormed(Base(t, c, op)) && Fresh(Base(t, c, op), op)
  {
    if CleansFirst(op) {
      CleanupTidies(t, op.now, c.batch);
      if op.Create? { assert IdTidied(t, Base(t, c, op), op.now, op.id); }
    }
  }

  lemma BaseKeepsKeys(t: Table, c: Config, op: Op, k: Key)
    requires WellFormed(t)
    ensures HasKey(Base(t, c, op), k) == HasKey(t, k)
  {
    if CleansFirst(op) { CleanupKeepsKeys(t, op.now, c.batch, k); }
  }

  /** A row keeps its key through the pass, so a reply names the key the row always had. */
  lemma BaseKeepsRow(t: Table, c: Config, op: Op, id: PublicId)
    requires WellFormed(t) && id in Base(t, c, op)
    ensures id in t && SameIdentity(t[id].job, Base(t, c, op)[id].job) && Base(t, c, op)[id].lease == t[id].lease
    ensures Base(t, c, op)[id].phase.Quarantined? ==> t[id].phase.Quarantined?
  {
    if CleansFirst(op) {
      CleanupTidies(t, op.now, c.batch);
      assert IdTidied(t, Base(t, c, op), op.now, id);
    }
  }

  /** Uniqueness of hidden rows is kept by the operations themselves. */
  lemma ApplyWellFormed(t: Table, c: Config, op: Op)
    requires WellFormed(t) && Fresh(t, op)
    ensures WellFormed(Apply(t, c, op).0)
  {
    if !IsRejected(op) {
      var u := Base(t, c, op);
      BaseWellFormed(t, c, op);
      DecideShaped(u, c, op);
      PatchWellFormed(u, op, Decide(u, c, op).0);
    }
  }

  /** Conservation: an upstream key leaves the table only with a successful confirm or delete of
      a row that carries it, and enters it only with an accepted create or enqueue. */
  lemma KeyConservation(t: Table, c: Config, op: Op, k: Key)
    requires WellFormed(t) && Fresh(t, op)
    ensures HasKey(t, k) && !HasKey(Apply(t, c, op).0, k) ==>
              && (op.Confirm? || op.Delete?) && Apply(t, c, op).1 == Done(true)
              && op.id in t && t[op.id].job.key == k
    ensures HasKey(Apply(t, c, op).0, k) && !HasKey(t, k) ==> Brings(op, k)
    ensures Brings(op, k) ==> HasKey(Apply(t, c, op).0, k)
  {
    if !IsRejected(op) {
      var u := Base(t, c, op);
      BaseWellFormed(t, c, op);
      BaseKeepsKeys(t, c, op, k);
      DecideShaped(u, c, op);
      var ch := Decide(u, c, op).0;
      PatchKeys(u, op, ch, k);
      if ch.Drop? { BaseKeepsRow(t, c, op, op.id); }
      if op.Enqueue? && Existing(u, op.request.key).Some? {
        assert HasKey(u, op.request.key);
      }
    }
  }

  /** Operations that clean first never change the phase of a row by their own write, and drop only a visible row. */
  lemma CleanWriteKeepsPhase(u: Table, c: Config, op: Op)
    requires CleansFirst(op)
    ensures var ch := Decide(u, c, op).0;
            && (ch.Put? && ch.id in u && !op.Create? ==> ch.row.phase == u[ch.id].phase && ch.row.job.key == u[ch.id].job.key)
            && (ch.Put? && op.Create? ==> ch.id == op.id)
            && (ch.Drop? ==> op.Delete? && ch.id == op.id && ch.id in u && u[ch.id].phase.Live?)
  {}

  lemma CleanWriteKeepsHidden(u: Table, c: Config, op: Op, k: Key)
    requires CleansFirst(op) && Fresh(u, op) && HasHidden(u, k)
    ensures HasHidden(Patch(u, Decide(u, c, op).0), k)
  {
    CleanWriteKeepsPhase(u, c, op);
    var h :| h in u && u[h].phase.Hidden? && u[h].job.key == k;
    assert h in Patch(u, Decide(u, c, op).0);
  }

  /** A row was merged away: it had expired, and a hidden row stays behind for its upstream key. */
  ghost predicate MergedAway(t: Table, u: Table, now: Time, id: PublicId)
    requires id in t
  {
    t[id].phase.Live? && t[id].job.expires <= now && HasHidden(u, t[id].job.key)
  }

  /** A single row leaves the table in two ways only: by its own successful confirm or delete, or merged into a hidden
      row of its key. */
  lemma RowLeaves(t: Table, c: Config, op: Op, id: PublicId)
    requires WellFormed(t) && Fresh(t, op) && id in t && id !in Apply(t, c, op).0
    ensures || ((op.Confirm? || op.Delete?) && op.id == id && Apply(t, c, op).1 == Done(true))
            || (CleansFirst(op) && MergedAway(t, Apply(t, c, op).0, op.now, id))
  {
    var u := Base(t, c, op);
    BaseWellFormed(t, c, op);
    DecideShaped(u, c, op);
    if id !in u {
      CleanupTidies(t, op.now, c.batch);
      assert IdTidied(t, u, op.now, id);
      CleanWriteKeepsHidden(u, c, op, t[id].job.key);
    }
  }
}
