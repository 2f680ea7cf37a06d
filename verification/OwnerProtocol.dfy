/** The video-job ownership protocol of mesh/router_app.py on top of the job store.

    Create handlers, delete handlers and cleanup workers interleave freely; every store operation
    and every upstream reply is one atomic step whose outcome the environment chooses. Upstream
    ids are never reused by an owner, and handlers are not cancelled. */
module OwnerProtocol {
  import opened Wrappers
  import opened JobTable
  import opened JobOps
  import opened JobRuns

  const LEASE: Time := 300.0

  type Handler = int

  /** A job as its upstream owner knows it; the protocol is the router's own label. */
  datatype UpstreamJob = UpstreamJob(origin: string, id: string)

  function At(k: Key): UpstreamJob {
    UpstreamJob(k.origin, k.upstream)
  }

  /** After the create reply: write the row, else delete upstream, else enqueue cleanup. */
  datatype CreatePhase = Persisting | Compensating | Enqueueing
  datatype Creator = Creator(request: Request, phase: CreatePhase)

  /** A claim in the hands of a delete handler or of the cleanup loop. */
  datatype WorkPhase = Asking | Confirming | Releasing | Quarantining
  datatype Worker = Worker(job: Job, token: Token, cleanup: bool, phase: WorkPhase)

  datatype System = System(
    world: World,
    creators: map<Handler, Creator>,
    workers: map<Handler, Worker>,
    seen: set<UpstreamJob>,       // every upstream job ever accepted
    live: set<UpstreamJob>,       // upstream jobs that exist now
    confirmed: set<UpstreamJob>,  // deletions confirmed by the owner
    parsed: set<Key>,             // create replies the router could parse
    refused: set<Key>,            // keys whose create write failed
    lost: set<Key>)               // keys whose create write and cleanup enqueue both failed

  datatype Action =
    | OwnerAccepts(h: Handler, request: Request)
    | OwnerAcceptsUnseen(job: UpstreamJob)
    | OwnerForgets(job: UpstreamJob)
    | Persist(h: Handler, now: Time, id: PublicId, ok: bool)
    | Compensate(h: Handler, confirmed: bool)
    | EnqueueCleanup(h: Handler, now: Time, id: PublicId, ok: bool)
    | ClaimVideo(h: Handler, id: PublicId, now: Time, token: Token)
    | ClaimWork(h: Handler, now: Time, token: Token)
    | OwnerAnswers(h: Handler, confirmed: bool)
    | ConfirmDelete(h: Handler, ok: bool)
    | ReleaseClaim(h: Handler, ok: bool)
    | QuarantineRow(h: Handler, ok: bool)
    | Serve(op: Op)

  // ----- steps -----

  function StoreOp(s: System, a: Action): Option<Op> {
    match a
    case Persist(h, now, id, ok) =>
      if h in s.creators && ok then Some(Create(s.creators[h].request, now, id)) else None
    case EnqueueCleanup(h, now, id, ok) =>
      if h in s.creators && ok then Some(Enqueue(s.creators[h].request, now, id)) else None
    case ClaimVideo(h, id, now, token) => Some(ClaimDelete(id, LEASE, now, token))
    case ClaimWork(h, now, token) => Some(ClaimCleanup(LEASE, now, token))
    case ConfirmDelete(h, ok) =>
      if h in s.workers && ok then Some(Confirm(s.workers[h].job.id, s.workers[h].token)) else None
    case ReleaseClaim(h, ok) =>
      if h in s.workers && ok then Some(Release(s.workers[h].job.id, s.workers[h].token)) else None
    case QuarantineRow(h, ok) =>
      if h in s.workers && ok then Some(Quarantine(s.workers[h].job.id, s.workers[h].token)) else None
    case Serve(op) => Some(op)
    case _ => None
  }

  predicate Enabled(s: System, protocol: string, a: Action) {
    && (StoreOp(s, a).Some? ==> Legal(s.world, StoreOp(s, a).value))
    && match a
       case OwnerAccepts(h, r) =>
         h !in s.creators && At(r.key) !in s.seen && r.key.protocol == protocol
       case OwnerAcceptsUnseen(job) => job !in s.seen
       case OwnerForgets(_) => true
       case Persist(h, _, _, _) => h in s.creators && s.creators[h].phase.Persisting?
       case Compensate(h, _) => h in s.creators && s.creators[h].phase.Compensating?
       case EnqueueCleanup(h, _, _, _) => h in s.creators && s.creators[h].phase.Enqueueing?
       case ClaimVideo(h, _, _, _) => h !in s.workers
       case ClaimWork(h, _, _) => h !in s.workers
       case OwnerAnswers(h, _) => h in s.workers && s.workers[h].phase.Asking?
       case ConfirmDelete(h, _) => h in s.workers && s.workers[h].phase.Confirming?
       case ReleaseClaim(h, _) => h in s.workers && s.workers[h].phase.Releasing?
       case QuarantineRow(h, _) => h in s.workers && s.workers[h].phase.Quarantining?
       case Serve(op) => op.Sweep? || op.Get? || op.UpdateStatus?
  }

  ghost function StoreReply(s: System, c: Config, a: Action): Reply {
    match StoreOp(s, a)
    case None => Rejected
    case Some(op) => ReplyOf(s.world, c, op)
  }

  ghost function StoreNext(s: System, c: Config, a: Action): World {
    match StoreOp(s, a)
    case None => s.world
    case Some(op) => JobRuns.Next(s.world, c, op)
  }

  function Confirmed(s: System, k: Key): System {
    s.(confirmed := s.confirmed + {At(k)}, live := s.live - {At(k)})
  }

  /** What a worker does next with a fresh claim: a foreign protocol is not deleted upstream. */
  function FirstPhase(protocol: string, job: Job, cleanup: bool): WorkPhase {
    if job.key.protocol == protocol then Asking else if cleanup then Quarantining else Releasing
  }

  ghost function Step(s: System, c: Config, protocol: string, a: Action): System
    requires Enabled(s, protocol, a)
  {
    Route(s, protocol, a, StoreReply(s, c, a)).(world := StoreNext(s, c, a))
  }

  /** The router's part of a step, given the store's reply. */
  function Route(n: System, protocol: string, a: Action, reply: Reply): System
    requires Enabled(n, protocol, a)
  {
    match a
    case OwnerAccepts(h, r) =>
      n.(creators := n.creators[h := Creator(r, Persisting)], parsed := n.parsed + {r.key},
         seen := n.seen + {At(r.key)}, live := n.live + {At(r.key)})
    case OwnerAcceptsUnseen(job) => n.(seen := n.seen + {job}, live := n.live + {job})
    case OwnerForgets(job) => n.(live := n.live - {job})
    case Persist(h, _, _, ok) =>
      if ok && reply != Rejected then n.(creators := n.creators - {h})
      else n.(creators := n.creators[h := n.creators[h].(phase := Compensating)],
              refused := n.refused + {n.creators[h].request.key})
    case Compensate(h, confirmed) =>
      if confirmed then Confirmed(n, n.creators[h].request.key).(creators := n.creators - {h})
      else n.(creators := n.creators[h := n.creators[h].(phase := Enqueueing)])
    case EnqueueCleanup(h, _, _, ok) =>
      if ok && reply != Rejected then n.(creators := n.creators - {h})
      else n.(creators := n.creators - {h}, lost := n.lost + {n.creators[h].request.key})
    case ClaimVideo(h, _, _, token) =>
      if reply.Claimed? && reply.claim.Some?
      then n.(workers := n.workers[h := Worker(reply.claim.value, token, false,
                                               FirstPhase(protocol, reply.claim.value, false))])
      else n
    case ClaimWork(h, _, token) =>
      if reply.Claimed? && reply.claim.Some?
      then n.(workers := n.workers[h := Worker(reply.claim.value, token, true,
                                               FirstPhase(protocol, reply.claim.value, true))])
      else n
    case OwnerAnswers(h, confirmed) =>
      if confirmed then
        Confirmed(n, n.workers[h].job.key).(workers := n.workers[h := n.workers[h].(phase := Confirming)])
      else if n.workers[h].cleanup then n.(workers := n.workers - {h})
      else n.(workers := n.workers[h := n.workers[h].(phase := Releasing)])
    case ConfirmDelete(h, _) => n.(workers := n.workers - {h})
    case ReleaseClaim(h, _) => n.(workers := n.workers - {h})
    case QuarantineRow(h, _) => n.(workers := n.workers - {h})
    case Serve(_) => n
  }

  // ----- the invariant -----

  ghost predicate InCreation(s: System, k: Key) {
    exists h :: h in s.creators && s.creators[h].request.key == k
  }

  /** Where the responsibility for upstream job `k` lies. */
  ghost predicate Accounted(s: System, k: Key) {
    At(k) in s.confirmed || InCreation(s, k) || HasKey(s.world.table, k) || k in s.lost
  }

  predicate WorkerSound(s: System, h: Handler)
    requires h in s.workers
  {
    var w := s.workers[h];
    && w.job.id in s.world.ids && At(w.job.key) in s.seen
    && (w.job.id in s.world.table ==> s.world.table[w.job.id].job.key == w.job.key)
    && (w.phase.Confirming? ==> At(w.job.key) in s.confirmed)
  }

  predicate CreatorSound(s: System, h: Handler)
    requires h in s.creators
  {
    var k := s.creators[h].request.key;
    k in s.parsed && (!s.creators[h].phase.Persisting? ==> k in s.refused)
  }

  ghost predicate Inv(s: System, c: Config) {
    && Sound(s.world, c)
    && (forall h :: h in s.workers ==> WorkerSound(s, h))
    && (forall h :: h in s.creators ==> CreatorSound(s, h))
    && (forall k :: k in s.parsed ==> Accounted(s, k) && At(k) in s.seen)
    && (forall id :: id in s.world.table ==> At(s.world.table[id].job.key) in s.seen)
    && s.live !! s.confirmed && s.live <= s.seen && s.confirmed <= s.seen
    && s.lost <= s.refused <= s.parsed
  }

  /** What one store operation does to the keys and rows the protocol relies on. */
  lemma StoreStep(w: World, c: Config, op: Op)
    requires Sound(w, c) && ValidConfig(c) && Legal(w, op)
    ensures Sound(JobRuns.Next(w, c, op), c) && w.ids <= JobRuns.Next(w, c, op).ids
    ensures forall k :: HasKey(w.table, k) && !HasKey(JobRuns.Next(w, c, op).table, k) ==> GivesUp(w, c, op, k)
    ensures forall k :: Brings(op, k) ==> HasKey(JobRuns.Next(w, c, op).table, k)
    ensures forall k :: HasKey(JobRuns.Next(w, c, op).table, k) && !HasKey(w.table, k) ==> Brings(op, k)
    ensures forall id :: id in w.ids && id in JobRuns.Next(w, c, op).table ==>
              id in w.table && JobRuns.Next(w, c, op).table[id].job.key == w.table[id].job.key
    ensures var r := ReplyOf(w, c, op);
            r.Claimed? && r.claim.Some? ==>
              var j := r.claim.value;
              && j.id in JobRuns.Next(w, c, op).ids
              && j.id in JobRuns.Next(w, c, op).table && JobRuns.Next(w, c, op).table[j.id].job.key == j.key
  {
    NextSound(w, c, op);
    SoundFresh(w, c, op);
    forall k ensures HasKey(w.table, k) && !HasKey(JobRuns.Next(w, c, op).table, k) ==> GivesUp(w, c, op, k)
             ensures Brings(op, k) ==> HasKey(JobRuns.Next(w, c, op).table, k)
             ensures HasKey(JobRuns.Next(w, c, op).table, k) && !HasKey(w.table, k) ==> Brings(op, k) {
      KeyConservation(w.table, c, op, k);
    }
    forall id | id in w.ids && id in JobRuns.Next(w, c, op).table
      ensures id in w.table && JobRuns.Next(w, c, op).table[id].job.key == w.table[id].job.key {
      RowKeepsKey(w, c, op, id);
    }
    ClaimNamesRow(w, c, op);
  }

  lemma RowKeepsKey(w: World, c: Config, op: Op, id: PublicId)
    requires Sound(w, c) && Legal(w, op) && Fresh(w.table, op) && id in w.ids && id in JobRuns.Next(w, c, op).table
    ensures id in w.table && JobRuns.Next(w, c, op).table[id].job.key == w.table[id].job.key
  {
    if !IsRejected(op) {
      var u := Base(w.table, c, op);
      BaseWellFormed(w.table, c, op);
      DecideShaped(u, c, op);
      if id in u { BaseKeepsRow(w.table, c, op, id); }
    }
  }

  lemma ClaimNamesRow(w: World, c: Config, op: Op)
    requires Sound(w, c) && Legal(w, op)
    ensures var r := ReplyOf(w, c, op);
            r.Claimed? && r.claim.Some? ==>
              var j := r.claim.value;
              && j.id in JobRuns.Next(w, c, op).ids
              && j.id in JobRuns.Next(w, c, op).table && JobRuns.Next(w, c, op).table[j.id].job.key == j.key
  {
    var r := ReplyOf(w, c, op);
    if r.Claimed? && r.claim.Some? {
      SoundFresh(w, c, op);
      BaseWellFormed(w.table, c, op);
      DecideClaims(Base(w.table, c, op), c, op);
      BaseKeepsRow(w.table, c, op, r.claim.value.id);
      assert IdSound(w, c, r.claim.value.id);
    }
  }

  // ----- every step keeps the invariant -----

  /** A store operation of the router gives up a key only in a confirmed delete. */
  lemma StoreKeepsKey(s: System, c: Config, protocol: string, a: Action, k: Key)
    requires Inv(s, c) && ValidConfig(c) && Enabled(s, protocol, a)
    requires HasKey(s.world.table, k) && !HasKey(StoreNext(s, c, a).table, k)
    ensures At(k) in s.confirmed
  {
    var op := StoreOp(s, a).value;
    StoreStep(s.world, c, op);
    assert GivesUp(s.world, c, op, k);
    assert a.ConfirmDelete? && WorkerSound(s, a.h);
  }

  lemma StoreGainsKey(s: System, c: Config, protocol: string, a: Action)
    requires Inv(s, c) && ValidConfig(c) && Enabled(s, protocol, a)
    requires (a.Persist? || a.EnqueueCleanup?) && a.ok && StoreReply(s, c, a) != Rejected
    ensures HasKey(StoreNext(s, c, a).table, s.creators[a.h].request.key)
  {
    var op := StoreOp(s, a).value;
    StoreStep(s.world, c, op);
    assert Brings(op, s.creators[a.h].request.key);
  }

  /** A create handler ends only with its job stored, confirmed gone, or lost. */
  lemma RouteCreation(s: System, protocol: string, a: Action, reply: Reply, h: Handler)
    requires Enabled(s, protocol, a) && h in s.creators
    ensures var s' := Route(s, protocol, a, reply);
            var k := s.creators[h].request.key;
            || (h in s'.creators && s'.creators[h].request.key == k)
            || At(k) in s'.confirmed || k in s'.lost
            || ((a.Persist? || a.EnqueueCleanup?) && a.h == h && a.ok && reply != Rejected)
  {}

  lemma RouteGrows(s: System, protocol: string, a: Action, reply: Reply)
    requires Enabled(s, protocol, a)
    ensures var s' := Route(s, protocol, a, reply);
            && s.confirmed <= s'.confirmed && s.lost <= s'.lost
            && (a.OwnerAccepts? ==> a.h in s'.creators && s'.creators[a.h].request == a.request)
  {}

  lemma StepAccounts(s: System, c: Config, protocol: string, a: Action, k: Key)
    requires Inv(s, c) && ValidConfig(c) && Enabled(s, protocol, a)
    requires Accounted(s, k) || (a.OwnerAccepts? && a.request.key == k)
    ensures Accounted(Step(s, c, protocol, a), k)
  {
    var s', reply := Step(s, c, protocol, a), StoreReply(s, c, a);
    RouteGrows(s, protocol, a, reply);
    if At(k) in s.confirmed || k in s.lost {
    } else if HasKey(s.world.table, k) {
      if !HasKey(s'.world.table, k) { StoreKeepsKey(s, c, protocol, a, k); }
    } else if a.OwnerAccepts? && a.request.key == k {
      assert s'.creators[a.h].request.key == k;
    } else {
      var h :| h in s.creators && s.creators[h].request.key == k;
      RouteCreation(s, protocol, a, reply, h);
      if (a.Persist? || a.EnqueueCleanup?) && a.h == h && a.ok && reply != Rejected {
        StoreGainsKey(s, c, protocol, a);
      }
    }
  }

  /** Every row belongs to an upstream job that was seen. */
  lemma StepRows(s: System, c: Config, protocol: string, a: Action, id: PublicId)
    requires Inv(s, c) && ValidConfig(c) && Enabled(s, protocol, a)
    requires id in StoreNext(s, c, a).table
    ensures At(StoreNext(s, c, a).table[id].job.key) in s.seen
  {
    if StoreOp(s, a).Some? {
      var op, k := StoreOp(s, a).value, StoreNext(s, c, a).table[id].job.key;
      StoreStep(s.world, c, op);
      assert HasKey(StoreNext(s, c, a).table, k);
      if HasKey(s.world.table, k) {
        var x :| x in s.world.table && s.world.table[x].job.key == k;
      } else {
        assert Brings(op, k) && CreatorSound(s, a.h);
      }
    }
  }

  /** A worker keeps its job; it may confirm only what the owner confirmed. */
  lemma RouteWorkers(s: System, protocol: string, a: Action, reply: Reply, h: Handler)
    requires Enabled(s, protocol, a) && h in Route(s, protocol, a, reply).workers
    ensures var s' := Route(s, protocol, a, reply);
            var w := s'.workers[h];
            && s.seen <= s'.seen && s.confirmed <= s'.confirmed
            && (if h in s.workers then
                  w.job == s.workers[h].job
                  && (w.phase.Confirming? ==> s.workers[h].phase.Confirming? || At(w.job.key) in s'.confirmed)
                else
                  (a.ClaimVideo? || a.ClaimWork?) && reply.Claimed? && reply.claim == Some(w.job) && !w.phase.Confirming?)
  {}

  lemma StepWorkers(s: System, c: Config, protocol: string, a: Action, h: Handler)
    requires Inv(s, c) && ValidConfig(c) && Enabled(s, protocol, a)
    requires h in Step(s, c, protocol, a).workers
    ensures WorkerSound(Step(s, c, protocol, a), h)
  {
    RouteWorkers(s, protocol, a, StoreReply(s, c, a), h);
    if StoreOp(s, a).Some? { StoreStep(s.world, c, StoreOp(s, a).value); }
    if h in s.workers {
      assert WorkerSound(s, h);
    } else {
      StepRows(s, c, protocol, a, Step(s, c, protocol, a).workers[h].job.id);
    }
  }

  lemma RouteCreators(s: System, protocol: string, a: Action, reply: Reply, h: Handler)
    requires Enabled(s, protocol, a) && h in Route(s, protocol, a, reply).creators
    requires h in s.creators ==> CreatorSound(s, h)
    ensures CreatorSound(Route(s, protocol, a, reply), h)
  {}

  lemma RouteSets(s: System, protocol: string, a: Action, reply: Reply)
    requires Enabled(s, protocol, a)
    requires s.live !! s.confirmed && s.live <= s.seen && s.confirmed <= s.seen && s.lost <= s.refused <= s.parsed
    requires a.Persist? || a.Compensate? || a.EnqueueCleanup? ==> CreatorSound(s, a.h) && At(s.creators[a.h].request.key) in s.seen
    requires a.OwnerAnswers? ==> WorkerSound(s, a.h)
    ensures var s' := Route(s, protocol, a, reply);
            && s'.live !! s'.confirmed && s'.live <= s'.seen && s'.confirmed <= s'.seen && s'.lost <= s'.refused <= s'.parsed
            && s.seen <= s'.seen && s.parsed <= s'.parsed
            && s'.parsed <= s.parsed + (if a.OwnerAccepts? then {a.request.key} else {})
            && (a.OwnerAccepts? ==> At(a.request.key) in s'.seen)
  {}

  lemma StepKeepsInv(s: System, c: Config, protocol: string, a: Action)
    requires Inv(s, c) && ValidConfig(c) && Enabled(s, protocol, a)
    ensures Inv(Step(s, c, protocol, a), c)
  {
    var s' := Step(s, c, protocol, a);
    assert Sound(s'.world, c) by {
      if StoreOp(s, a).Some? { StoreStep(s.world, c, StoreOp(s, a).value); }
    }
    if a.Persist? || a.Compensate? || a.EnqueueCleanup? { assert CreatorSound(s, a.h); }
    if a.OwnerAnswers? { assert WorkerSound(s, a.h); }
    RouteSets(s, protocol, a, StoreReply(s, c, a));
    forall h | h in s'.workers ensures WorkerSound(s', h) { StepWorkers(s, c, protocol, a, h); }
    forall h | h in s'.creators ensures CreatorSound(s', h) {
      RouteCreators(s, protocol, a, StoreReply(s, c, a), h);
    }
    forall id | id in s'.world.table ensures At(s'.world.table[id].job.key) in s'.seen { StepRows(s, c, protocol, a, id); }
    forall k | k in s'.parsed ensures Accounted(s', k) && At(k) in s'.seen { StepAccounts(s, c, protocol, a, k); }
  }

  // ----- whole runs -----

  /** Any store content is a possible start: the router may have restarted. */
  ghost predicate Initial(s: System, c: Config) {
    && Sound(s.world, c)
    && s.creators == map[] && s.workers == map[]
    && s.confirmed == {} && s.parsed == {} && s.refused == {} && s.lost == {}
    && s.live <= s.seen && (forall id :: id in s.world.table ==> At(s.world.table[id].job.key) in s.seen)
  }

  ghost predicate Execution(ss: seq<System>, c: Config, protocol: string, actions: seq<Action>) {
    && ValidConfig(c) && |ss| == |actions| + 1 && Initial(ss[0], c)
    && (forall i :: 0 <= i < |actions| ==>
          Enabled(ss[i], protocol, actions[i]) && ss[i + 1] == Step(ss[i], c, protocol, actions[i]))
  }

  lemma {:induction false} ExecutionInv(ss: seq<System>, c: Config, protocol: string, actions: seq<Action>, n: nat)
    requires Execution(ss, c, protocol, actions) && n <= |actions|
    ensures Inv(ss[n], c)
  {
    if n > 0 {
      ExecutionInv(ss, c, protocol, actions, n - 1);
      StepKeepsInv(ss[n - 1], c, protocol, actions[n - 1]);
    }
  }

  /** A job that was parsed and is not confirmed deleted is in a create handler, covered by a row, or lost. */
  lemma OrphansAreLost(ss: seq<System>, c: Config, protocol: string, actions: seq<Action>, n: nat, k: Key)
    requires Execution(ss, c, protocol, actions) && n <= |actions|
    requires k in ss[n].parsed && (At(k) in ss[n].live || At(k) !in ss[n].confirmed)
    ensures InCreation(ss[n], k) || HasKey(ss[n].world.table, k) || (k in ss[n].refused && k in ss[n].lost)
  {
    ExecutionInv(ss, c, protocol, actions, n);
    assert Accounted(ss[n], k);
  }

  lemma StepGrows(s: System, c: Config, protocol: string, a: Action)
    requires Enabled(s, protocol, a)
    ensures s.confirmed <= Step(s, c, protocol, a).confirmed
  {
    RouteGrows(s, protocol, a, StoreReply(s, c, a));
  }

  lemma {:induction false} ConfirmedGrows(ss: seq<System>, c: Config, protocol: string, actions: seq<Action>, m: nat, n: nat)
    requires Execution(ss, c, protocol, actions) && m <= n <= |actions|
    ensures ss[m].confirmed <= ss[n].confirmed
    decreases n
  {
    if m < n {
      ConfirmedGrows(ss, c, protocol, actions, m, n - 1);
      var s := ss[n - 1];
      assert ss[(n - 1) + 1] == Step(s, c, protocol, actions[n - 1]);
      StepGrows(s, c, protocol, actions[n - 1]);
    }
  }

  /** The router gives up an upstream key only after the owner confirmed the deletion of that job. */
  lemma {:induction false} KeysLeaveAfterDeletion(ss: seq<System>, c: Config, protocol: string, actions: seq<Action>,
                                                  m: nat, n: nat, k: Key)
    requires Execution(ss, c, protocol, actions) && m <= n <= |actions|
    requires HasKey(ss[m].world.table, k) && !HasKey(ss[n].world.table, k)
    ensures At(k) in ss[n].confirmed && At(k) !in ss[n].live
    decreases n
  {
    ExecutionInv(ss, c, protocol, actions, n);
    if m < n {
      ExecutionInv(ss, c, protocol, actions, n - 1);
      ConfirmedGrows(ss, c, protocol, actions, n - 1, n);
      if HasKey(ss[n - 1].world.table, k) {
        StoreKeepsKey(ss[n - 1], c, protocol, actions[n - 1], k);
      } else {
        KeysLeaveAfterDeletion(ss, c, protocol, actions, m, n - 1, k);
      }
    }
  }

  /** One step drops a row only if the owner confirmed its deletion, or merges it into a hidden row of its key. */
  lemma StepDropsRow(s: System, c: Config, protocol: string, a: Action, id: PublicId)
    requires Inv(s, c) && ValidConfig(c) && Enabled(s, protocol, a)
    requires id in s.world.table && id !in StoreNext(s, c, a).table
    ensures At(s.world.table[id].job.key) in s.confirmed || HasHidden(StoreNext(s, c, a).table, s.world.table[id].job.key)
  {
    var op := StoreOp(s, a).value;
    SoundFresh(s.world, c, op);
    RowLeaves(s.world.table, c, op, id);
    if op.Confirm? { assert WorkerSound(s, a.h); }
  }

  /** At step `i` row `id` was merged into a hidden row of its upstream key. */
  ghost predicate MergedAt(ss: seq<System>, i: nat, id: PublicId, k: Key)
    requires i + 1 < |ss|
  {
    && id in ss[i].world.table && ss[i].world.table[id].job.key == k
    && id !in ss[i + 1].world.table && HasHidden(ss[i + 1].world.table, k)
  }

  lemma HiddenHasKey(t: Table, k: Key)
    requires HasHidden(t, k)
    ensures HasKey(t, k)
  {
    var h :| h in t && t[h].phase.Hidden? && t[h].job.key == k;
  }

  /** Every single row of the table is given up only after the owner confirmed the deletion of its job, or when it is
      merged into a hidden row that stands for the same job; and in that case, too, the job is covered until its
      deletion is confirmed. */
  lemma {:induction false} RowsLeaveAfterDeletion(ss: seq<System>, c: Config, protocol: string, actions: seq<Action>,
                                                  m: nat, n: nat, id: PublicId)
    requires Execution(ss, c, protocol, actions) && m <= n <= |actions|
    requires id in ss[m].world.table && id !in ss[n].world.table
    ensures var k := ss[m].world.table[id].job.key;
            || At(k) in ss[n].confirmed
            || (HasKey(ss[n].world.table, k) && exists i: nat :: m <= i < n && MergedAt(ss, i, id, k))
    decreases n - m
  {
    var k, s, t := ss[m].world.table[id].job.key, ss[m], ss[m + 1];
    ExecutionInv(ss, c, protocol, actions, m);
    if id in t.world.table {
      if StoreOp(s, actions[m]).Some? {
        StoreStep(s.world, c, StoreOp(s, actions[m]).value);
        assert IdSound(s.world, c, id);
      }
      RowsLeaveAfterDeletion(ss, c, protocol, actions, m + 1, n, id);
    } else {
      StepDropsRow(s, c, protocol, actions[m], id);
      if At(k) in s.confirmed {
        ConfirmedGrows(ss, c, protocol, actions, m, n);
      } else {
        assert MergedAt(ss, m, id, k);
        HiddenHasKey(t.world.table, k);
        if !HasKey(ss[n].world.table, k) { KeysLeaveAfterDeletion(ss, c, protocol, actions, m + 1, n, k); }
      }
    }
  }

  /** A router over an empty store may start. */
  lemma EmptyStart(clock: Time, c: Config, s: System)
    requires s.world == Start(clock) && s.creators == map[] && s.workers == map[] && s.live == s.seen == {}
    requires s.confirmed == {} && s.parsed == {} && s.refused == {} && s.lost == {}
    ensures Initial(s, c)
  {
    StartSound(clock, c);
  }
}
