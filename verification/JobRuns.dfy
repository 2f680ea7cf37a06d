/** Whole runs of the job store: what a reader of public ids sees, and who may hold a lease.

    A run is any sequence of operations with non-decreasing times, fresh public ids and fresh
    tokens. `jobs` is the reference: a plain map with a time to live, which knows nothing of
    cleanup batches, merging, leases or quarantine. */
module JobRuns {
  import opened Wrappers
  import opened JobTable
  import opened JobOps

  datatype World = World(table: Table, clock: Time, ids: set<PublicId>, tokens: set<Token>,
                         jobs: map<PublicId, Job>)

  // ----- the reference -----

  predicate Alive(jobs: map<PublicId, Job>, ttl: Time, id: PublicId, at: Time) {
    id in jobs && at < jobs[id].created + ttl
  }

  /** How an operation, with the reply it got, changes the plain map. */
  function RefNext(jobs: map<PublicId, Job>, ttl: Time, op: Op, reply: Reply): map<PublicId, Job> {
    match op
    case Create(r, now, id) =>
      if ValidRequest(r) then jobs[id := NewJob(r, id, now, now + ttl)] else jobs
    case UpdateStatus(id, status, now) =>
      if ValidText(status, 64) && Alive(jobs, ttl, id, now)
      then jobs[id := jobs[id].(status := status, updated := now)] else jobs
    case Delete(id, now) => if Alive(jobs, ttl, id, now) then jobs - {id} else jobs
    case Confirm(id, _) => if reply == Done(true) then jobs - {id} else jobs
    case _ => jobs
  }

  /** The replies the plain map itself determines. */
  predicate RefReply(jobs: map<PublicId, Job>, ttl: Time, op: Op, reply: Reply) {
    match op
    case Create(r, now, id) =>
      reply == if ValidRequest(r) then Found(Some(NewJob(r, id, now, now + ttl))) else Rejected
    case Get(id, now) => reply == Found(if Alive(jobs, ttl, id, now) then Some(jobs[id]) else None)
    case UpdateStatus(id, status, now) =>
      reply == if ValidText(status, 64) then Done(Alive(jobs, ttl, id, now)) else Rejected
    case Delete(id, now) => reply == Done(Alive(jobs, ttl, id, now))
    case ClaimDelete(id, lease, now, _) =>
      reply.Claimed? && reply.claim.Some? ==> Alive(jobs, ttl, id, now) && reply.claim.value == jobs[id]
    case _ => true
  }

  // ----- runs -----

  predicate Timed(op: Op) {
    !op.Release? && !op.Quarantine? && !op.Confirm?
  }

  predicate Legal(w: World, op: Op) {
    && (Timed(op) ==> w.clock <= op.now)
    && (op.Create? || op.Enqueue? ==> op.id !in w.ids)
    && (op.ClaimDelete? || op.ClaimCleanup? ==> op.token !in w.tokens)
  }

  ghost function Next(w: World, c: Config, op: Op): World {
    var (table, reply) := Apply(w.table, c, op);
    World(table,
          if Timed(op) then op.now else w.clock,
          if op.Create? || op.Enqueue? then w.ids + {op.id} else w.ids,
          if op.ClaimDelete? || op.ClaimCleanup? then w.tokens + {op.token} else w.tokens,
          RefNext(w.jobs, c.ttl, op, reply))
  }

  ghost function ReplyOf(w: World, c: Config, op: Op): Reply {
    Apply(w.table, c, op).1
  }

  /** `ws[i]` is the state before operation `i`; `ws[|ops|]` is the last one. */
  ghost predicate Behavior(ws: seq<World>, c: Config, ops: seq<Op>) {
    && ValidConfig(c)
    && |ws| == |ops| + 1 && Sound(ws[0], c)
    && (forall i :: 0 <= i < |ops| ==> Legal(ws[i], ops[i]) && ws[i + 1] == Next(ws[i], c, ops[i]))
  }

  function Start(clock: Time): World {
    World(map[], clock, {}, {}, map[])
  }

  /** What holds of every public id in every reachable state. */
  predicate IdSound(w: World, c: Config, id: PublicId) {
    && (id in w.table ==>
          && id in w.ids
          && (w.table[id].lease.Held? ==> w.table[id].lease.token in w.tokens && !w.table[id].phase.Quarantined?)
          && (w.table[id].phase.Live? ==> id in w.jobs && w.jobs[id] == w.table[id].job))
    && (id in w.jobs ==>
          && id in w.ids && w.jobs[id].expires == w.jobs[id].created + c.ttl
          && ((id in w.table && w.table[id].phase.Live?) || w.jobs[id].expires <= w.clock))
  }

  ghost predicate Sound(w: World, c: Config) {
    WellFormed(w.table) && forall id :: IdSound(w, c, id)
  }

  lemma StartSound(clock: Time, c: Config)
    ensures Sound(Start(clock), c)
  {
    assert WellFormed(Start(clock).table);
  }

  lemma SoundAgrees(w: World, c: Config, id: PublicId, at: Time)
    requires Sound(w, c) && w.clock <= at
    ensures Visible(w.table, id, at) == Alive(w.jobs, c.ttl, id, at)
    ensures Visible(w.table, id, at) ==> w.table[id].job == w.jobs[id]
  {
    assert IdSound(w, c, id);
  }

  lemma SoundFresh(w: World, c: Config, op: Op)
    requires Sound(w, c) && Legal(w, op)
    ensures Fresh(w.table, op)
  {
    if op.Create? || op.Enqueue? { assert IdSound(w, c, op.id); }
  }

  /** The cleanup pass alone keeps everything, once the clock has moved to its time. */
  lemma CleanupSound(w: World, c: Config, now: Time)
    requires Sound(w, c) && w.clock <= now
    ensures Sound(w.(table := Cleanup(w.table, now, c.batch), clock := now), c)
  {
    var w' := w.(table := Cleanup(w.table, now, c.batch), clock := now);
    CleanupTidies(w.table, now, c.batch);
    forall id ensures IdSound(w', c, id) {
      assert IdSound(w, c, id) && IdTidied(w.table, w'.table, now, id);
    }
  }

  ghost function AfterBase(w: World, c: Config, op: Op): World {
    w.(table := Base(w.table, c, op), clock := if Timed(op) then op.now else w.clock)
  }

  /** `Next` after the cleanup pass. */
  ghost function AfterDecide(b: World, c: Config, op: Op): World {
    var (change, reply) := Decide(b.table, c, op);
    b.(table := Patch(b.table, change),
       ids := if op.Create? || op.Enqueue? then b.ids + {op.id} else b.ids,
       tokens := if op.ClaimDelete? || op.ClaimCleanup? then b.tokens + {op.token} else b.tokens,
       jobs := RefNext(b.jobs, c.ttl, op, reply))
  }

  lemma DecideSound(b: World, c: Config, op: Op)
    requires Sound(b, c) && ValidConfig(c) && !IsRejected(op)
    requires Timed(op) ==> op.now == b.clock
    requires op.Create? || op.Enqueue? ==> op.id !in b.ids
    ensures Sound(AfterDecide(b, c, op), c)
  {
    var change := Decide(b.table, c, op).0;
    var w' := AfterDecide(b, c, op);
    if op.Create? || op.Enqueue? { assert IdSound(b, c, op.id); }
    DecideShaped(b.table, c, op);
    PatchWellFormed(b.table, op, change);
    if op.UpdateStatus? || op.Delete? { SoundAgrees(b, c, op.id, op.now); }
    forall id ensures IdSound(w', c, id) {
      assert IdSound(b, c, id);
      if change == Keep || id != change.id { OthersSound(b, c, op, id); } else { TouchedSound(b, c, op, id); }
    }
  }

  lemma OthersSound(b: World, c: Config, op: Op, id: PublicId)
    requires IdSound(b, c, id) && ValidConfig(c) && !IsRejected(op) && WellFormed(b.table) && Fresh(b.table, op)
    requires op.UpdateStatus? || op.Delete? ==> Visible(b.table, op.id, op.now) == Alive(b.jobs, c.ttl, op.id, op.now)
    requires Decide(b.table, c, op).0 == Keep || id != Decide(b.table, c, op).0.id
    ensures IdSound(AfterDecide(b, c, op), c, id)
  {}

  lemma TouchedSound(b: World, c: Config, op: Op, id: PublicId)
    requires IdSound(b, c, id) && ValidConfig(c) && !IsRejected(op) && WellFormed(b.table)
    requires Timed(op) ==> op.now == b.clock
    requires op.Create? || op.Enqueue? ==> op.id !in b.ids
    requires op.UpdateStatus? || op.Delete? ==> Visible(b.table, op.id, op.now) == Alive(b.jobs, c.ttl, op.id, op.now)
    requires Decide(b.table, c, op).0 != Keep && id == Decide(b.table, c, op).0.id
    ensures IdSound(AfterDecide(b, c, op), c, id)
  {}

  lemma NextSound(w: World, c: Config, op: Op)
    requires Sound(w, c) && ValidConfig(c) && Legal(w, op)
    ensures Sound(Next(w, c, op), c)
  {
    if IsRejected(op) {
      forall id ensures IdSound(Next(w, c, op), c, id) { assert IdSound(w, c, id); }
    } else {
      var b := AfterBase(w, c, op);
      SoundFresh(w, c, op);
      if CleansFirst(op) {
        CleanupSound(w, c, op.now);
      } else {
        forall id ensures IdSound(b, c, id) { assert IdSound(w, c, id); }
      }
      DecideSound(b, c, op);
      assert Next(w, c, op) == AfterDecide(b, c, op);
    }
  }

  lemma BaseAgrees(w: World, c: Config, op: Op)
    requires Sound(w, c) && Legal(w, op)
    requires (op.Get? || op.UpdateStatus? || op.Delete? || op.ClaimDelete?) && !IsRejected(op)
    ensures var u := Base(w.table, c, op);
            && Visible(u, op.id, op.now) == Alive(w.jobs, c.ttl, op.id, op.now)
            && (Visible(u, op.id, op.now) ==> u[op.id].job == w.jobs[op.id])
  {
    CleanupSound(w, c, op.now);
    SoundAgrees(w.(table := Base(w.table, c, op), clock := op.now), c, op.id, op.now);
  }

  /** Each reply is the one the plain map gives. */
  lemma NextReply(w: World, c: Config, op: Op)
    requires Sound(w, c) && ValidConfig(c) && Legal(w, op)
    ensures RefReply(w.jobs, c.ttl, op, ReplyOf(w, c, op))
  {
    if (op.Get? || op.UpdateStatus? || op.Delete? || op.ClaimDelete?) && !IsRejected(op) {
      BaseAgrees(w, c, op);
    }
  }

  lemma {:induction false} BehaviorSound(ws: seq<World>, c: Config, ops: seq<Op>, n: nat)
    requires Behavior(ws, c, ops) && n <= |ops|
    ensures Sound(ws[n], c)
  {
    if n > 0 {
      BehaviorSound(ws, c, ops, n - 1);
      NextSound(ws[n - 1], c, ops[n - 1]);
    }
  }

  /** Refinement: in every reachable state the visible jobs are those the plain map with a time
      to live holds, and the next operation is answered as that map answers it - whatever the
      batch size and whichever merging, claims and quarantine happened before. */
  lemma StoreRefinesTtlMap(ws: seq<World>, c: Config, ops: seq<Op>, n: nat, id: PublicId, at: Time)
    requires Behavior(ws, c, ops) && n <= |ops| && ws[n].clock <= at
    ensures Visible(ws[n].table, id, at) == Alive(ws[n].jobs, c.ttl, id, at)
    ensures Visible(ws[n].table, id, at) ==> ws[n].table[id].job == ws[n].jobs[id]
    ensures n < |ops| ==> RefReply(ws[n].jobs, c.ttl, ops[n], ReplyOf(ws[n], c, ops[n]))
  {
    BehaviorSound(ws, c, ops, n);
    SoundAgrees(ws[n], c, id, at);
    if n < |ops| { NextReply(ws[n], c, ops[n]); }
  }

  /** One step never shows again what was hidden, nor changes whose job it is. */
  lemma StepBack(w: World, c: Config, op: Op, id: PublicId, at: Time)
    requires Sound(w, c) && ValidConfig(c) && Legal(w, op) && id in w.ids && Next(w, c, op).clock <= at
    ensures id in Next(w, c, op).ids && w.clock <= Next(w, c, op).clock
    ensures Visible(Next(w, c, op).table, id, at) ==>
              Visible(w.table, id, w.clock) && SameOwner(Next(w, c, op).table[id].job, w.table[id].job)
  {
    NextSound(w, c, op);
    SoundAgrees(w, c, id, w.clock);
    SoundAgrees(Next(w, c, op), c, id, at);
  }

  /** A public id that is not visible any more never becomes visible again, and what is visible
      keeps its identity fields from creation on. */
  lemma {:induction false} VanishedStaysVanished(ws: seq<World>, c: Config, ops: seq<Op>, m: nat, n: nat,
                                                 id: PublicId, at: Time)
    requires Behavior(ws, c, ops) && m <= n <= |ops| && ws[n].clock <= at
    requires id in ws[m].ids
    ensures id in ws[n].ids
    ensures ws[m].clock <= ws[n].clock
    ensures !Visible(ws[m].table, id, ws[m].clock) ==> !Visible(ws[n].table, id, at)
    ensures Visible(ws[n].table, id, at) ==>
              Visible(ws[m].table, id, ws[m].clock)
              && SameOwner(ws[n].table[id].job, ws[m].table[id].job)
    decreases n
  {
    if m == n {
      BehaviorSound(ws, c, ops, m);
      SoundAgrees(ws[m], c, id, at);
      SoundAgrees(ws[m], c, id, ws[m].clock);
    } else {
      BehaviorSound(ws, c, ops, n - 1);
      assert ws[n] == Next(ws[n - 1], c, ops[n - 1]) by { assert ws[(n - 1) + 1] == Next(ws[n - 1], c, ops[n - 1]); }
      VanishedStaysVanished(ws, c, ops, m, n - 1, id, ws[n - 1].clock);
      StepBack(ws[n - 1], c, ops[n - 1], id, at);
    }
  }

  predicate SameOwner(a: Job, b: Job) {
    SameIdentity(a, b) && a.specialist == b.specialist && a.node == b.node
  }

  // ----- leases -----

  /** Operation `op` hands row `id` to a caller. */
  ghost predicate Grants(w: World, c: Config, op: Op, id: PublicId) {
    var r := ReplyOf(w, c, op);
    (op.ClaimDelete? || op.ClaimCleanup?) && r.Claimed? && r.claim.Some? && r.claim.value.id == id
  }

  /** Operation `op`, run with `token`, succeeds on row `id`. */
  ghost predicate Uses(w: World, c: Config, op: Op, id: PublicId, token: Token) {
    && (op.Release? || op.Quarantine? || op.Confirm?) && op.id == id && op.token == token
    && ReplyOf(w, c, op) == Done(true)
  }

  /** The lease is still on the row, or the row is gone for good. */
  predicate Kept(w: World, id: PublicId, token: Token, until: Time) {
    && id in w.ids && token in w.tokens
    && (id in w.table ==> w.table[id].lease == Held(token, until))
  }

  /** `token` can no longer act on row `id`. */
  predicate Dead(w: World, id: PublicId, token: Token) {
    id in w.ids && token in w.tokens && !Holds(w.table, id, token)
  }

  /** The three ways the lease of a row changes: it is granted, given back, or the row is new. */
  ghost predicate LeaseChange(u: Table, c: Config, op: Op, id: PublicId, l: Lease) {
    var r := Decide(u, c, op).1;
    if id !in u then (op.Create? || op.Enqueue?) && id == op.id
    else
      || l == u[id].lease
      || ( && (op.ClaimDelete? || op.ClaimCleanup?) && r.Claimed? && r.claim.Some? && r.claim.value.id == id
           && LeaseFree(u[id].lease, op.now) && l == Held(op.token, op.now + op.lease))
      || ( && (op.Release? || op.Quarantine?) && op.id == id && Holds(u, id, op.token) && r == Done(true)
           && l.Free?)
  }

  lemma DecideLease(u: Table, c: Config, op: Op, id: PublicId)
    requires WellFormed(u) && !IsRejected(op) && Fresh(u, op)
    requires forall x :: x in u && u[x].phase.Quarantined? ==> u[x].lease.Free?
    ensures id in Patch(u, Decide(u, c, op).0) ==>
              LeaseChange(u, c, op, id, Patch(u, Decide(u, c, op).0)[id].lease)
    ensures var r := Decide(u, c, op).1;
            (op.ClaimDelete? || op.ClaimCleanup?) && r.Claimed? && r.claim.Some? && r.claim.value.id == id ==>
              && id in u && LeaseFree(u[id].lease, op.now)
              && id in Patch(u, Decide(u, c, op).0)
              && Patch(u, Decide(u, c, op).0)[id].lease == Held(op.token, op.now + op.lease)
    ensures (op.Release? || op.Quarantine? || op.Confirm?) && op.id == id ==>
              (Decide(u, c, op).1 == Done(true) ==> Holds(u, id, op.token) && !Holds(Patch(u, Decide(u, c, op).0), id, op.token))
  {}

  lemma StepLease(w: World, c: Config, op: Op, id: PublicId)
    requires Sound(w, c) && Legal(w, op) && !IsRejected(op)
    ensures var u := Base(w.table, c, op);
            && WellFormed(u) && Fresh(u, op)
            && (id in u ==> id in w.table && u[id].lease == w.table[id].lease)
            && (forall x :: x in u && u[x].phase.Quarantined? ==> u[x].lease.Free?)
            && (id in Next(w, c, op).table ==> LeaseChange(u, c, op, id, Next(w, c, op).table[id].lease))
  {
    var u := Base(w.table, c, op);
    SoundFresh(w, c, op);
    BaseWellFormed(w.table, c, op);
    forall x | x in u && u[x].phase.Quarantined? ensures u[x].lease.Free? {
      BaseKeepsRow(w.table, c, op, x);
      assert IdSound(w, c, x);
    }
    if id in u { BaseKeepsRow(w.table, c, op, id); }
    DecideLease(u, c, op, id);
  }

  lemma GrantLeases(w: World, c: Config, op: Op, id: PublicId)
    requires Sound(w, c) && Legal(w, op) && Grants(w, c, op, id)
    ensures Kept(Next(w, c, op), id, op.token, op.now + op.lease) && id in Next(w, c, op).table
    ensures id in w.table && LeaseFree(w.table[id].lease, op.now) && op.token !in w.tokens
  {
    StepLease(w, c, op, id);
    DecideLease(Base(w.table, c, op), c, op, id);
    assert IdSound(w, c, id);
  }

  lemma StepKeepsLease(w: World, c: Config, op: Op, id: PublicId, token: Token, until: Time)
    requires Sound(w, c) && Legal(w, op) && Kept(w, id, token, until)
    requires !Uses(w, c, op, id, token)
    requires Timed(op) ==> op.now < until
    ensures Kept(Next(w, c, op), id, token, until) && !Grants(w, c, op, id)
  {
    if !IsRejected(op) {
      StepLease(w, c, op, id);
      if Grants(w, c, op, id) { GrantLeases(w, c, op, id); }
    }
  }

  lemma StepKeepsDead(w: World, c: Config, op: Op, id: PublicId, token: Token)
    requires Sound(w, c) && Legal(w, op) && Dead(w, id, token)
    ensures Dead(Next(w, c, op), id, token) && !Uses(w, c, op, id, token)
  {
    if !IsRejected(op) {
      StepLease(w, c, op, id);
      DecideLease(Base(w.table, c, op), c, op, id);
    }
  }

  /** After another grant of the row, or a successful use of the token, the token is dead. */
  lemma StepKills(w: World, c: Config, op: Op, id: PublicId, token: Token)
    requires Sound(w, c) && Legal(w, op) && id in w.ids && token in w.tokens
    requires Grants(w, c, op, id) || Uses(w, c, op, id, token)
    ensures Dead(Next(w, c, op), id, token)
  {
    if Grants(w, c, op, id) {
      GrantLeases(w, c, op, id);
    } else {
      StepLease(w, c, op, id);
      DecideLease(Base(w.table, c, op), c, op, id);
    }
  }

  lemma {:induction false} LeaseLasts(ws: seq<World>, c: Config, ops: seq<Op>, m: nat, n: nat,
                                      id: PublicId, token: Token, until: Time)
    requires Behavior(ws, c, ops) && m <= n <= |ops| && Kept(ws[m], id, token, until)
    requires forall i :: m <= i < n ==> !Uses(ws[i], c, ops[i], id, token)
    requires ws[n].clock < until
    ensures Kept(ws[n], id, token, until)
    decreases n - m
  {
    if m < n {
      ClockMonotone(ws, c, ops, m + 1, n);
      BehaviorSound(ws, c, ops, m);
      StepKeepsLease(ws[m], c, ops[m], id, token, until);
      LeaseLasts(ws, c, ops, m + 1, n, id, token, until);
    }
  }

  lemma ClockMonotone(ws: seq<World>, c: Config, ops: seq<Op>, m: nat, n: nat)
    requires Behavior(ws, c, ops) && m <= n <= |ops|
    ensures ws[m].clock <= ws[n].clock
    decreases n
  {
    if m < n { ClockMonotone(ws, c, ops, m, n - 1); }
  }

  lemma NoGrantWithin(w: World, c: Config, op: Op, id: PublicId, token: Token, until: Time)
    requires Sound(w, c) && Legal(w, op) && Kept(w, id, token, until) && Grants(w, c, op, id)
    ensures until <= op.now
  {
    GrantLeases(w, c, op, id);
  }

  /** Exclusivity: a second claim on a public id comes only after the first one was given back
      with its token or its lease has ended - also when the row turns from live to hidden. */
  lemma LeaseExclusive(ws: seq<World>, c: Config, ops: seq<Op>, m: nat, n: nat, id: PublicId)
    requires Behavior(ws, c, ops) && m < n < |ops|
    requires Grants(ws[m], c, ops[m], id) && Grants(ws[n], c, ops[n], id)
    requires forall i :: m < i < n ==> !Uses(ws[i], c, ops[i], id, ops[m].token)
    ensures ops[m].now + ops[m].lease <= ops[n].now
  {
    var until := ops[m].now + ops[m].lease;
    assert Legal(ws[n], ops[n]);
    if ws[n].clock < until {
      BehaviorSound(ws, c, ops, m);
      GrantLeases(ws[m], c, ops[m], id);
      LeaseLasts(ws, c, ops, m + 1, n, id, ops[m].token, until);
      BehaviorSound(ws, c, ops, n);
      NoGrantWithin(ws[n], c, ops[n], id, ops[m].token, until);
    }
  }

  lemma {:induction false} DeadStays(ws: seq<World>, c: Config, ops: seq<Op>, m: nat, n: nat,
                                     id: PublicId, token: Token)
    requires Behavior(ws, c, ops) && m <= n <= |ops| && Dead(ws[m], id, token)
    ensures Dead(ws[n], id, token)
    decreases n - m
  {
    if m < n {
      BehaviorSound(ws, c, ops, m);
      StepKeepsDead(ws[m], c, ops[m], id, token);
      DeadStays(ws, c, ops, m + 1, n, id, token);
    }
  }

  /** A token that was superseded by a later claim on the same row never again confirms,
      releases or quarantines it; neither does a token that was used. */
  lemma SupersededTokenIsDead(ws: seq<World>, c: Config, ops: seq<Op>, m: nat, n: nat, k: nat,
                              id: PublicId, token: Token)
    requires Behavior(ws, c, ops) && m < n < k < |ops|
    requires Grants(ws[m], c, ops[m], id) && ops[m].token == token
    requires Grants(ws[n], c, ops[n], id) || Uses(ws[n], c, ops[n], id, token)
    ensures !Uses(ws[k], c, ops[k], id, token)
  {
    BehaviorSound(ws, c, ops, m);
    GrantLeases(ws[m], c, ops[m], id);
    TokensKept(ws, c, ops, m + 1, n);
    BehaviorSound(ws, c, ops, n);
    StepKills(ws[n], c, ops[n], id, token);
    DeadStays(ws, c, ops, n + 1, k, id, token);
    BehaviorSound(ws, c, ops, k);
    StepKeepsDead(ws[k], c, ops[k], id, token);
  }

  lemma TokensKept(ws: seq<World>, c: Config, ops: seq<Op>, m: nat, n: nat)
    requires Behavior(ws, c, ops) && m <= n <= |ops|
    ensures ws[m].tokens <= ws[n].tokens && ws[m].ids <= ws[n].ids
    decreases n
  {
    if m < n { TokensKept(ws, c, ops, m, n - 1); }
  }

  // ----- upstream keys over runs -----

  /** Conservation over runs: a key that had a row and has none any more was given up by a
      successful confirm or delete of a row that carried it. */
  lemma {:induction false} KeysLeaveByConfirmation(ws: seq<World>, c: Config, ops: seq<Op>, m: nat, n: nat, k: Key)
    requires Behavior(ws, c, ops) && m <= n <= |ops|
    requires HasKey(ws[m].table, k) && !HasKey(ws[n].table, k)
    ensures exists i :: m <= i < n && GivesUp(ws[i], c, ops[i], k)
    decreases n
  {
    if m < n {
      if HasKey(ws[n - 1].table, k) {
        BehaviorSound(ws, c, ops, n - 1);
        SoundFresh(ws[n - 1], c, ops[n - 1]);
        KeyConservation(ws[n - 1].table, c, ops[n - 1], k);
        assert GivesUp(ws[n - 1], c, ops[n - 1], k);
      } else {
        KeysLeaveByConfirmation(ws, c, ops, m, n - 1, k);
      }
    }
  }

  ghost predicate GivesUp(w: World, c: Config, op: Op, k: Key) {
    && (op.Confirm? || op.Delete?) && ReplyOf(w, c, op) == Done(true)
    && op.id in w.table && w.table[op.id].job.key == k
  }

  /** In every reachable state a key has at most one hidden row. */
  lemma HiddenRowsUnique(ws: seq<World>, c: Config, ops: seq<Op>, n: nat, x: PublicId, y: PublicId)
    requires Behavior(ws, c, ops) && n <= |ops| && BothHidden(ws[n].table, x, y)
    ensures x == y
  {
    BehaviorSound(ws, c, ops, n);
  }

  // ----- the cleanup queue -----

  lemma CleanupIdle(t: Table, now: Time, limit: nat)
    requires ExpiredLive(t, now) == {}
    ensures Cleanup(t, now, limit) == t
  {
    assert |Ordered(t, ExpiredLive(t, now))| == 0;
  }

  lemma {:induction false} OrderedFrame(t: Table, u: Table, ids: set<PublicId>)
    requires ids <= t.Keys && ids <= u.Keys && forall x :: x in ids ==> t[x].job == u[x].job
    ensures Ordered(t, ids) == Ordered(u, ids)
    decreases |ids|
  {
    if |ids| > 0 {
      var m := First(t, ByExpiry, ids);
      assert IsFirst(u, ByExpiry, ids, m);
      FirstUnique(u, ByExpiry, ids, m, First(u, ByExpiry, ids));
      OrderedFrame(t, u, ids - {m});
    }
  }

  /** A series of cleanup claims inside one lease window. */
  ghost predicate ClaimSeries(ts: seq<Table>, c: Config, ops: seq<Op>, last: Time) {
    && |ts| == |ops| + 1
    && (forall i :: 0 <= i < |ops| ==>
          && ops[i].ClaimCleanup? && 0.0 < ops[i].lease && ops[i].now <= last < ops[i].now + ops[i].lease
          && ts[i + 1] == Apply(ts[i], c, ops[i]).0)
    && (forall i :: 0 < i < |ops| ==> ops[i - 1].now <= ops[i].now)
  }

  /** No lease of a hidden row ends between `now` and `last`. */
  predicate Window(t: Table, now: Time, last: Time) {
    forall id :: id in t && t[id].phase.Hidden? && t[id].lease.Held? ==>
      t[id].lease.until <= now || last < t[id].lease.until
  }

  ghost function Queue(t: Table, now: Time): (q: seq<PublicId>)
    ensures forall x :: x in q ==> x in t
  {
    Ordered(t, Claimable(t, now))
  }

  function Drop<T>(s: seq<T>, n: nat): seq<T> {
    if n <= |s| then s[n..] else []
  }

  lemma LendShrinksQueue(t: Table, m: PublicId, row: Row, now: Time, next: Time, last: Time)
    requires |Claimable(t, now)| > 0 && m == First(t, ByExpiry, Claimable(t, now))
    requires row == t[m].(lease := row.lease) && row.lease.Held? && last < row.lease.until
    requires now <= next <= last && ExpiredLive(t, last) == {} && Window(t, now, last)
    ensures Claimable(t[m := row], next) == Claimable(t, now) - {m}
    ensures Queue(t, now) == [m] + Queue(t[m := row], next)
    ensures ExpiredLive(t[m := row], last) == {} && Window(t[m := row], next, last)
  {
    var t' := t[m := row];
    forall x ensures x in Claimable(t', next) <==> x in Claimable(t, now) && x != m {}
    OrderedFrame(t, t', Claimable(t, now) - {m});
    assert Queue(t, now) == [m] + Ordered(t, Claimable(t, now) - {m});
    forall id ensures id !in ExpiredLive(t', last) { assert id !in ExpiredLive(t, last); }
  }

  lemma EmptyStaysEmpty(t: Table, now: Time, next: Time, last: Time)
    requires |Claimable(t, now)| == 0 && now <= next <= last && Window(t, now, last)
    ensures Claimable(t, next) == {} && Queue(t, next) == Queue(t, now) == []
  {
    forall x ensures x !in Claimable(t, next) { assert x !in Claimable(t, now); }
  }

  lemma ApplyClaim(t: Table, c: Config, op: Op)
    requires op.ClaimCleanup? && 0.0 < op.lease && ExpiredLive(t, op.now) == {}
    ensures var s := Claimable(t, op.now);
            if |s| == 0 then Apply(t, c, op) == (t, Claimed(None))
            else
              var m := First(t, ByExpiry, s);
              Apply(t, c, op) == (t[m := t[m].(lease := Held(op.token, op.now + op.lease))], Claimed(Some(t[m].job)))
  {
    CleanupIdle(t, op.now, c.batch);
    assert Base(t, c, op) == t;
  }

  lemma OneClaim(t: Table, c: Config, op: Op, next: Time, last: Time)
    requires op.ClaimCleanup? && 0.0 < op.lease && op.now <= next <= last < op.now + op.lease
    requires ExpiredLive(t, last) == {} && Window(t, op.now, last)
    ensures ExpiredLive(Apply(t, c, op).0, last) == {} && Window(Apply(t, c, op).0, next, last)
    ensures Queue(Apply(t, c, op).0, next) == Drop(Queue(t, op.now), 1) && SameJobs(t, Apply(t, c, op).0)
    ensures Apply(t, c, op).1 == Claimed(if |Queue(t, op.now)| > 0 then Some(t[Queue(t, op.now)[0]].job) else None)
  {
    assert ExpiredLive(t, op.now) <= ExpiredLive(t, last);
    ApplyClaim(t, c, op);
    var s := Claimable(t, op.now);
    if |s| == 0 {
      EmptyStaysEmpty(t, op.now, next, last);
    } else {
      var m := First(t, ByExpiry, s);
      LendShrinksQueue(t, m, t[m].(lease := Held(op.token, op.now + op.lease)), op.now, next, last);
    }
  }

  ghost predicate SameJobs(t: Table, u: Table) {
    t.Keys == u.Keys && forall id :: id in t ==> u[id].job == t[id].job
  }

  lemma {:induction false} QueueAt(ts: seq<Table>, c: Config, ops: seq<Op>, last: Time, i: nat)
    requires ClaimSeries(ts, c, ops, last) && i < |ops|
    requires ExpiredLive(ts[0], last) == {} && Window(ts[0], ops[0].now, last)
    ensures ExpiredLive(ts[i], last) == {} && Window(ts[i], ops[i].now, last) && SameJobs(ts[0], ts[i])
    ensures Queue(ts[i], ops[i].now) == Drop(Queue(ts[0], ops[0].now), i)
  {
    if i > 0 {
      QueueAt(ts, c, ops, last, i - 1);
      assert ops[i - 1].now <= ops[i].now;
      OneClaim(ts[i - 1], c, ops[i - 1], ops[i].now, last);
    }
  }

  /** With nothing left to convert and no lease ending meanwhile, k claims hand out the first k
      claimable rows, each once, in (expires_at, public_id) order, and then nothing. */
  lemma ClaimsFollowQueue(ts: seq<Table>, c: Config, ops: seq<Op>, last: Time, i: nat)
    requires ClaimSeries(ts, c, ops, last) && i < |ops|
    requires ExpiredLive(ts[0], last) == {} && Window(ts[0], ops[0].now, last)
    ensures var q := Queue(ts[0], ops[0].now);
            && Apply(ts[i], c, ops[i]).1 == Claimed(if i < |q| then Some(ts[0][q[i]].job) else None)
            && (forall j :: i < j < |q| ==> Before(ts[0], ByExpiry, q[i], q[j]))
  {
    var q := Queue(ts[0], ops[0].now);
    QueueAt(ts, c, ops, last, i);
    OneClaim(ts[i], c, ops[i], last, last);
    forall j | i < j < |q| ensures Before(ts[0], ByExpiry, q[i], q[j]) {
      OrderedSorted(ts[0], Claimable(ts[0], ops[0].now), i, j);
    }
  }
}
