/** The non-streaming fallback loop of `chat_completions` (mesh/router_app.py) over the circuit breakers.

    Between two accesses of one request other requests may change the circuits: `others` is any such change. */
module Fallback {
  import opened Wrappers
  import opened RuntimeHealth

  /** A reachable binding of the requested specialist. */
  datatype Route = Route(node: nat, key: Key)

  /** `Raised` is an exception that the loop does not catch: any but `httpx.HTTPError` and `OSError`, a cancelled request
      included. */
  datatype Reply = Unreachable(error: string) | Status(code: int) | Raised

  /** What a request recorded about one binding it looked at: nothing for `Skipped` and `Unrecorded`. */
  datatype Record = Skipped | Failed | Succeeded | ClientError | Unrecorded

  /** One turn of the loop: `ok` is the answer of `is_routable`. The circuits are as `is_routable` found them (`seen`)
      and left them (`held`), and as the record found them (`before`) and left them (`left`). */
  datatype Turn = Turn(key: Key, ok: bool, reply: Reply, record: Record, seen: Table, held: Table, before: Table, left: Table)

  /** `Escaped`: the exception of the call at this position leaves the handler. */
  datatype Outcome = Forwarded(position: nat, code: int) | Escaped(position: nat) | Punted(attempts: nat)

  datatype Served = Served(outcome: Outcome, turns: seq<Turn>, after: Table)

  type Replies = nat -> Reply
  type Clock = nat -> Time
  type Others = (nat, Table) -> Table

  predicate Retriable(r: Reply) {
    r.Unreachable? || (r.Status? && r.code in {502, 503, 504})
  }

  function ClassOf(r: Reply, code: int -> string): string
    requires !r.Raised?
  {
    if r.Unreachable? then r.error else code(r.code)
  }

  ghost predicate Respects(others: Others, c: Config) {
    forall i, t :: Sound(t, c) ==> Sound(others(i, t), c)
  }

  // ----- the loop as a function -----

  datatype Env = Env(config: Config, others: Others, reply: Replies, clock: Clock, latency: nat -> int,
                     statusClass: int -> string)

  /** The record of the reply, on the circuits it finds. */
  ghost function Recorded(e: Env, k: Key, i: nat, t: Table): (Record, Table) {
    var r, now := e.reply(i), e.clock(2 * i + 1);
    if r.Raised? then (Unrecorded, t)
    else if Retriable(r) || r.code >= 500 then (Failed, After(t, e.config, Failure(k, now, ClassOf(r, e.statusClass))))
    else if r.code >= 400 then (ClientError, t)
    else (Succeeded, After(t, e.config, Success(k, now, e.latency(i))))
  }

  ghost function TurnAt(e: Env, k: Key, i: nat, t: Table): Turn {
    var seen, now := e.others(2 * i, t), e.clock(2 * i);
    var held := After(seen, e.config, RuntimeHealth.Call.Route(k, now));
    if !Answer(seen, e.config, k, now) then Turn(k, false, e.reply(i), Skipped, seen, held, held, held)
    else
      var before := e.others(2 * i + 1, held);
      var (record, left) := Recorded(e, k, i, before);
      Turn(k, true, e.reply(i), record, seen, held, before, left)
  }

  /** The loop ends here: with a reply that is not retriable, or with an exception. */
  predicate Ends(turn: Turn) { turn.ok && !Retriable(turn.reply) }

  function OutcomeOf(i: nat, r: Reply): Outcome
    requires !Retriable(r)
  {
    if r.Raised? then Escaped(i) else Forwarded(i, r.code)
  }

  /** A turn for a binding at a list position, from given circuits. */
  type TurnFor = (Key, nat, Table) -> Turn

  ghost function Turns(e: Env): TurnFor {
    (k, i, t) => TurnAt(e, k, i, t)
  }

  ghost function Loop(f: TurnFor, keys: seq<Key>, i: nat, attempts: nat, turns: seq<Turn>, t: Table): Served
    requires i <= |keys|
    decreases |keys| - i
  {
    if i == |keys| then Served(Punted(attempts), turns, t)
    else
      var turn := f(keys[i], i, t);
      if Ends(turn) then Served(OutcomeOf(i, turn.reply), turns + [turn], turn.left)
      else Loop(f, keys, i + 1, attempts + (if turn.ok then 1 else 0), turns + [turn], turn.left)
  }

  ghost function Serve(e: Env, keys: seq<Key>, t: Table): Served {
    Loop(Turns(e), keys, 0, 0, [], t)
  }

  // ----- what a request did -----

  /** Upstream calls made in these turns. */
  function Attempts(turns: seq<Turn>): nat {
    if |turns| == 0 then 0 else Attempts(turns[..|turns| - 1]) + if turns[|turns| - 1].ok then 1 else 0
  }

  function Count(turns: seq<Turn>, record: Record): nat {
    if |turns| == 0 then 0 else Count(turns[..|turns| - 1], record) + if turns[|turns| - 1].record == record then 1 else 0
  }

  function FailuresOf(t: Table, k: Key): nat { if k in t then t[k].failures else 0 }

  predicate IsHalfOpen(t: Table, k: Key) { k in t && t[k].circuit.HalfOpen? }

  /** The turn reserved a half-open circuit. */
  predicate Probed(turn: Turn) {
    turn.ok && turn.key in turn.seen && !turn.seen[turn.key].circuit.Closed?
  }

  predicate IsClientError(r: Reply) { r.Status? && 400 <= r.code < 500 }

  /** Nothing is recorded under the binding of the call. */
  predicate LeavesCircuit(r: Reply) { r.Raised? || IsClientError(r) }

  /** From `t` to `u` only binding `k` changed, but for an eviction: at the bound, for a new binding, and of a closed
      binding if there was one. */
  ghost predicate OnlyTouches(t: Table, u: Table, c: Config, k: Key) {
    && k in u
    && (forall x :: x in u && x != k ==> x in t && u[x] == t[x])
    && (forall x :: x in t && x !in u ==> k !in t && |t| >= c.maxBindings)
    && (forall x, y :: x in t && x !in u && !t[x].circuit.Closed? && y in t ==> !t[y].circuit.Closed?)
  }

  /** What a turn did to the circuits: the look reserves at most its own circuit; a failed call adds exactly one failure
      to its own binding, a successful one clears it, and a client error or an exception changes nothing. */
  ghost predicate Charged(turn: Turn, c: Config) {
    && OnlyTouches(turn.seen, turn.held, c, turn.key)
    && FailuresOf(turn.held, turn.key) == FailuresOf(turn.seen, turn.key)
    && (turn.ok ==> (IsHalfOpen(turn.held, turn.key) <==> Probed(turn)))
    && match turn.record
       case Skipped =>
         && turn.left == turn.before == turn.held && turn.key in turn.seen
         && turn.left == turn.seen[turn.key := turn.seen[turn.key].(touched := turn.left[turn.key].touched)]
       case Failed =>
         && OnlyTouches(turn.before, turn.left, c, turn.key)
         && FailuresOf(turn.left, turn.key) == FailuresOf(turn.before, turn.key) + 1
       case Succeeded =>
         && OnlyTouches(turn.before, turn.left, c, turn.key)
         && FailuresOf(turn.left, turn.key) == 0 && turn.left[turn.key].circuit.Closed?
       case ClientError => turn.left == turn.before
       case Unrecorded => turn.left == turn.before
  }

  /** After the call the binding is half-open exactly when it was so before and the call ended in a client error, which
      is recorded without a key, or in an exception, which is not recorded at all. */
  predicate Settled(turn: Turn) {
    turn.ok ==> (IsHalfOpen(turn.left, turn.key) <==> LeavesCircuit(turn.reply) && IsHalfOpen(turn.before, turn.key))
  }

  ghost predicate Accounted(turn: Turn, c: Config) {
    && (turn.record.Skipped? <==> !turn.ok)
    && (turn.ok ==>
          && (turn.record.Unrecorded? <==> turn.reply.Raised?)
          && (turn.record.Failed? <==> Retriable(turn.reply) || (turn.reply.Status? && turn.reply.code >= 500))
          && (turn.record.ClientError? <==> IsClientError(turn.reply))
          && (turn.record.Succeeded? <==> turn.reply.Status? && turn.reply.code < 400))
    && Charged(turn, c) && Settled(turn)
  }

  lemma CallTouchesOne(t: Table, c: Config, call: Call)
    requires ValidConfig(c) && !call.Peek?
    ensures OnlyTouches(t, After(t, c, call), c, call.key)
  {
    var u := After(t, c, call);
    forall x, y | x in t && x !in u && !t[x].circuit.Closed? && y in t ensures !t[y].circuit.Closed? {
      EvictsClosedFirst(t, c, call, x);
    }
    forall x | x in t && x !in u ensures call.key !in t && |t| >= c.maxBindings { EvictsClosedFirst(t, c, call, x); }
  }

  lemma RouteReserves(t: Table, c: Config, k: Key, now: Time)
    requires ValidConfig(c) && Sound(t, c)
    ensures var u := After(t, c, RuntimeHealth.Call.Route(k, now));
            && OnlyTouches(t, u, c, k) && FailuresOf(u, k) == FailuresOf(t, k) && Sound(u, c)
            && (Answer(t, c, k, now) ==> (IsHalfOpen(u, k) <==> k in t && !t[k].circuit.Closed?))
            && (!Answer(t, c, k, now) ==> k in t && u == t[k := t[k].(touched := u[k].touched)])
  {
    var call := RuntimeHealth.Call.Route(k, now);
    CallTouchesOne(t, c, call);
    CallKeepsSound(t, c, call);
  }

  lemma FailureCharges(t: Table, c: Config, k: Key, now: Time, kind: string)
    requires ValidConfig(c) && Sound(t, c)
    ensures var u := After(t, c, Failure(k, now, kind));
            Sound(u, c) && OnlyTouches(t, u, c, k) && FailuresOf(u, k) == FailuresOf(t, k) + 1 && !IsHalfOpen(u, k)
  {
    CallTouchesOne(t, c, Failure(k, now, kind));
    CallKeepsSound(t, c, Failure(k, now, kind));
    TouchSound(t, c, k, now);
    assert SoundBinding(Touch(t, c, k, now)[k], c);
  }

  lemma SuccessClears(t: Table, c: Config, k: Key, now: Time, latency: int)
    requires ValidConfig(c) && Sound(t, c)
    ensures var u := After(t, c, Success(k, now, latency));
            Sound(u, c) && OnlyTouches(t, u, c, k) && FailuresOf(u, k) == 0 && u[k].circuit.Closed?
  {
    CallTouchesOne(t, c, Success(k, now, latency));
    CallKeepsSound(t, c, Success(k, now, latency));
  }

  lemma RecordedCharges(e: Env, k: Key, i: nat, t: Table)
    requires ValidConfig(e.config) && Sound(t, e.config)
    ensures var (record, left) := Recorded(e, k, i, t);
            && Sound(left, e.config)
            && (record.ClientError? || record.Unrecorded? ==> left == t)
            && (record.Failed? || record.Succeeded? ==> OnlyTouches(t, left, e.config, k) && !IsHalfOpen(left, k))
            && (record.Failed? ==> FailuresOf(left, k) == FailuresOf(t, k) + 1)
            && (record.Succeeded? ==> FailuresOf(left, k) == 0 && left[k].circuit.Closed?)
  {
    var r, now := e.reply(i), e.clock(2 * i + 1);
    if r.Raised? {
    } else if Retriable(r) || r.code >= 500 {
      FailureCharges(t, e.config, k, now, ClassOf(r, e.statusClass));
    } else if r.code < 400 {
      SuccessClears(t, e.config, k, now, e.latency(i));
    }
  }

  /** A turn whose look is settled is accounted for, from whatever circuits its record found. */
  lemma CalledAccounted(e: Env, k: Key, i: nat, seen: Table, held: Table, before: Table)
    requires ValidConfig(e.config) && Sound(before, e.config)
    requires OnlyTouches(seen, held, e.config, k) && FailuresOf(held, k) == FailuresOf(seen, k)
    requires IsHalfOpen(held, k) <==> k in seen && !seen[k].circuit.Closed?
    ensures var (record, left) := Recorded(e, k, i, before);
            var turn := Turn(k, true, e.reply(i), record, seen, held, before, left);
            Accounted(turn, e.config) && Sound(left, e.config)
  {
    RecordedCharges(e, k, i, before);
  }

  lemma TurnAccounted(e: Env, k: Key, i: nat, t: Table)
    requires ValidConfig(e.config) && Sound(t, e.config) && Respects(e.others, e.config)
    ensures Accounted(TurnAt(e, k, i, t), e.config) && Sound(TurnAt(e, k, i, t).left, e.config)
    ensures TurnAt(e, k, i, t).key == k && TurnAt(e, k, i, t).reply == e.reply(i)
  {
    var seen, now := e.others(2 * i, t), e.clock(2 * i);
    var held := After(seen, e.config, RuntimeHealth.Call.Route(k, now));
    assert Sound(seen, e.config);
    RouteReserves(seen, e.config, k, now);
    if Answer(seen, e.config, k, now) {
      assert Sound(e.others(2 * i + 1, held), e.config);
      CalledAccounted(e, k, i, seen, held, e.others(2 * i + 1, held));
    }
  }

  /** What the loop keeps does not depend on what is known of a turn. */
  type Check = Turn -> bool

  ghost function AccountedBy(c: Config): Check { (turn: Turn) => Accounted(turn, c) }

  /** The state of the loop after some turns without a winner. */
  ghost predicate Going(good: Check, keys: seq<Key>, i: nat, attempts: nat, turns: seq<Turn>) {
    && |turns| == i <= |keys| && attempts == Attempts(turns)
    && forall j :: 0 <= j < i ==> turns[j].key == keys[j] && good(turns[j]) && !Ends(turns[j])
  }

  lemma GoOn(good: Check, keys: seq<Key>, i: nat, attempts: nat, turns: seq<Turn>, turn: Turn)
    requires Going(good, keys, i, attempts, turns) && i < |keys|
    requires turn.key == keys[i] && good(turn) && !Ends(turn)
    ensures Going(good, keys, i + 1, attempts + (if turn.ok then 1 else 0), turns + [turn])
  {
    assert (turns + [turn])[..i] == turns;
  }

  /** Turns go through the list in order and stop at the first reply that is not retriable or the first exception; a
      punt counts the upstream calls. */
  ghost predicate Accounting(s: Served, good: Check, keys: seq<Key>) {
    && |s.turns| <= |keys|
    && (forall j :: 0 <= j < |s.turns| ==> s.turns[j].key == keys[j] && good(s.turns[j]))
    && (s.outcome.Punted? ==>
          && |s.turns| == |keys| && s.outcome.attempts == Attempts(s.turns)
          && forall j :: 0 <= j < |s.turns| ==> !Ends(s.turns[j]))
    && (!s.outcome.Punted? ==>
          && |s.turns| == s.outcome.position + 1 && Ends(s.turns[s.outcome.position])
          && s.turns[s.outcome.position].reply == (if s.outcome.Escaped? then Raised else Status(s.outcome.code))
          && forall j :: 0 <= j < s.outcome.position ==> !Ends(s.turns[j]))
  }

  lemma EndAccounts(good: Check, keys: seq<Key>, i: nat, attempts: nat, turns: seq<Turn>, turn: Turn)
    requires Going(good, keys, i, attempts, turns) && i < |keys|
    requires turn.key == keys[i] && good(turn) && Ends(turn)
    ensures Accounting(Served(OutcomeOf(i, turn.reply), turns + [turn], turn.left), good, keys)
  {
    var all := turns + [turn];
    assert forall j :: 0 <= j < i ==> all[j] == turns[j];
  }

  ghost predicate Keeps(f: TurnFor, c: Config, good: Check) {
    forall k, i, t :: Sound(t, c) ==> good(f(k, i, t)) && f(k, i, t).key == k && Sound(f(k, i, t).left, c)
  }

  lemma {:induction false} LoopAccounts(f: TurnFor, c: Config, good: Check, keys: seq<Key>, i: nat, attempts: nat,
                                        turns: seq<Turn>, t: Table)
    requires Keeps(f, c, good) && Sound(t, c) && Going(good, keys, i, attempts, turns)
    ensures Accounting(Loop(f, keys, i, attempts, turns, t), good, keys)
    ensures Sound(Loop(f, keys, i, attempts, turns, t).after, c)
    decreases |keys| - i
  {
    if i < |keys| {
      var turn := f(keys[i], i, t);
      if Ends(turn) {
        EndAccounts(good, keys, i, attempts, turns, turn);
      } else {
        GoOn(good, keys, i, attempts, turns, turn);
        LoopAccounts(f, c, good, keys, i + 1, attempts + (if turn.ok then 1 else 0), turns + [turn], turn.left);
      }
    }
  }

  lemma TurnsHonest(e: Env)
    requires ValidConfig(e.config) && Respects(e.others, e.config)
    ensures Keeps(Turns(e), e.config, AccountedBy(e.config))
  {
    forall k, i, u | Sound(u, e.config)
      ensures AccountedBy(e.config)(Turns(e)(k, i, u)) && Turns(e)(k, i, u).key == k
      ensures Sound(Turns(e)(k, i, u).left, e.config)
    {
      TurnAccounted(e, k, i, u);
    }
  }

  /** Fallback accounting: bindings are tried in order up to the first reply that is not retriable or the first
      exception, and each turn did to the circuits exactly what its reply calls for. */
  lemma ServeAccounts(e: Env, keys: seq<Key>, t: Table)
    requires ValidConfig(e.config) && Sound(t, e.config) && Respects(e.others, e.config)
    ensures Accounting(Serve(e, keys, t), AccountedBy(e.config), keys) && Sound(Serve(e, keys, t).after, e.config)
  {
    TurnsHonest(e);
    LoopAccounts(Turns(e), e.config, AccountedBy(e.config), keys, 0, 0, [], t);
  }

  lemma {:induction false} FewAttempts(turns: seq<Turn>)
    ensures Attempts(turns) <= |turns|
  {
    if |turns| > 0 { FewAttempts(turns[..|turns| - 1]); }
  }

  /** Every upstream call is recorded exactly once, but for the one whose exception ended the request. */
  lemma {:induction false} CallsAreRecorded(turns: seq<Turn>, c: Config)
    requires forall t :: t in turns ==> Accounted(t, c)
    ensures Attempts(turns)
            == Count(turns, Failed) + Count(turns, Succeeded) + Count(turns, ClientError) + Count(turns, Unrecorded)
  {
    if |turns| > 0 {
      CallsAreRecorded(turns[..|turns| - 1], c);
      assert Accounted(turns[|turns| - 1], c);
    }
  }

  lemma {:induction false} NoneUnrecorded(turns: seq<Turn>, c: Config)
    requires forall t :: t in turns ==> Accounted(t, c) && !Ends(t)
    ensures Count(turns, Unrecorded) == 0
  {
    if |turns| > 0 {
      NoneUnrecorded(turns[..|turns| - 1], c);
      assert Accounted(turns[|turns| - 1], c);
    }
  }

  lemma OneUnrecorded(front: seq<Turn>, last: Turn, c: Config)
    requires Accounted(last, c) && forall t :: t in front ==> Accounted(t, c) && !Ends(t)
    ensures Count(front + [last], Unrecorded) == if last.record.Unrecorded? then 1 else 0
  {
    assert (front + [last])[..|front|] == front;
    NoneUnrecorded(front, c);
  }

  lemma MissingFrom(s: Served, c: Config, keys: seq<Key>)
    requires Accounting(s, AccountedBy(c), keys)
    ensures Count(s.turns, Unrecorded) == if s.outcome.Escaped? then 1 else 0
    ensures s.outcome.Escaped? <==> |s.turns| > 0 && s.turns[|s.turns| - 1].record.Unrecorded?
  {
    if |s.turns| > 0 {
      var front, last := s.turns[..|s.turns| - 1], s.turns[|s.turns| - 1];
      assert s.turns == front + [last] && AccountedBy(c)(last);
      forall x | x in front ensures Accounted(x, c) && !Ends(x) {
        var j :| 0 <= j < |front| && front[j] == x;
        assert s.turns[j] == x && AccountedBy(c)(s.turns[j]);
      }
      OneUnrecorded(front, last, c);
    }
  }

  /** A request leaves at most one call unrecorded: the last, exactly when its exception leaves the handler. */
  lemma RecordsMissing(e: Env, keys: seq<Key>, t: Table)
    requires ValidConfig(e.config) && Sound(t, e.config) && Respects(e.others, e.config)
    ensures var s := Serve(e, keys, t);
            && Attempts(s.turns) == Count(s.turns, Failed) + Count(s.turns, Succeeded) + Count(s.turns, ClientError)
                                    + (if s.outcome.Escaped? then 1 else 0)
            && (s.outcome.Escaped? <==> |s.turns| > 0 && s.turns[|s.turns| - 1].record.Unrecorded?)
  {
    var s := Serve(e, keys, t);
    ServeAccounts(e, keys, t);
    MissingFrom(s, e.config, keys);
    forall x | x in s.turns ensures Accounted(x, e.config) { assert AccountedBy(e.config)(x); }
    CallsAreRecorded(s.turns, e.config);
  }

  /** Whatever other requests do, a circuit that is still half-open when a call ends is half-open after its record
      exactly when the call ended in a client error or in an exception; no call leaves another circuit half-open. */
  lemma ProbesSettled(e: Env, keys: seq<Key>, t: Table, j: nat)
    requires ValidConfig(e.config) && Sound(t, e.config) && Respects(e.others, e.config)
    requires j < |Serve(e, keys, t).turns| && Serve(e, keys, t).turns[j].ok
    ensures var turn := Serve(e, keys, t).turns[j];
            IsHalfOpen(turn.left, turn.key) <==> IsHalfOpen(turn.before, turn.key) && LeavesCircuit(turn.reply)
    ensures var s := Serve(e, keys, t);
            LeavesCircuit(s.turns[j].reply) ==> j == |s.turns| - 1 && s.outcome == OutcomeOf(j, s.turns[j].reply)
  {
    ServeAccounts(e, keys, t);
    var turn := Serve(e, keys, t).turns[j];
    assert AccountedBy(e.config)(turn);
    assert LeavesCircuit(turn.reply) ==> Ends(turn);
  }

  // ----- a request that no other one disturbs -----

  ghost predicate Alone(e: Env) { forall i, t :: e.others(i, t) == t }

  /** Accounted for, and with nothing between the look and what came before, or between the look and the record. */
  ghost predicate Undisturbed(f: TurnFor, c: Config) {
    forall k, i, t :: Sound(t, c) ==> Clean(f(k, i, t), c, k, t)
  }

  ghost predicate Clean(turn: Turn, c: Config, k: Key, t: Table) {
    Accounted(turn, c) && turn.key == k && turn.seen == t && turn.before == turn.held && Sound(turn.left, c)
  }

  lemma AloneUndisturbed(e: Env)
    requires ValidConfig(e.config) && Alone(e)
    ensures Undisturbed(Turns(e), e.config)
  {
    forall k, i, t | Sound(t, e.config) ensures Clean(Turns(e)(k, i, t), e.config, k, t) {
      TurnAccounted(e, k, i, t);
    }
  }

  /** No circuit that one of these turns reserved is half-open. */
  ghost predicate NoneHeld(t: Table, turns: seq<Turn>) {
    forall x :: x in turns && Probed(x) ==> !IsHalfOpen(t, x.key)
  }

  lemma TurnReleases(t: Table, c: Config, turns: seq<Turn>, turn: Turn)
    requires NoneHeld(t, turns) && Clean(turn, c, turn.key, t)
    ensures !(LeavesCircuit(turn.reply) && Probed(turn)) ==> NoneHeld(turn.left, turns + [turn])
    ensures LeavesCircuit(turn.reply) && Probed(turn) ==> IsHalfOpen(turn.left, turn.key)
    ensures forall x :: x in turns && Probed(x) && x.key != turn.key ==> !IsHalfOpen(turn.left, x.key)
  {}

  /** The circuits a request reserved, when it ends. */
  ghost predicate Released(s: Served) {
    forall x :: x in s.turns && Probed(x) ==> (IsHalfOpen(s.after, x.key) <==> KeepsProbe(s, x.key))
  }

  /** The request ended with a client error or an exception from a probe of binding `k`. */
  predicate KeepsProbe(s: Served, k: Key) {
    && (s.outcome.Escaped? || (s.outcome.Forwarded? && 400 <= s.outcome.code < 500))
    && |s.turns| > 0 && s.turns[|s.turns| - 1].key == k && Probed(s.turns[|s.turns| - 1])
  }

  lemma EndReleases(c: Config, i: nat, t: Table, turns: seq<Turn>, turn: Turn)
    requires NoneHeld(t, turns) && Clean(turn, c, turn.key, t) && Ends(turn)
    ensures Released(Served(OutcomeOf(i, turn.reply), turns + [turn], turn.left))
  {
    TurnReleases(t, c, turns, turn);
    var s := Served(OutcomeOf(i, turn.reply), turns + [turn], turn.left);
    assert s.turns[|s.turns| - 1] == turn;
    forall x | x in s.turns && Probed(x) ensures IsHalfOpen(s.after, x.key) <==> KeepsProbe(s, x.key) {
      assert x in turns || x == turn;
    }
  }

  lemma {:induction false} LoopReleases(f: TurnFor, c: Config, keys: seq<Key>, i: nat, attempts: nat, turns: seq<Turn>, t: Table)
    requires Undisturbed(f, c) && Sound(t, c) && i <= |keys| && NoneHeld(t, turns)
    ensures Released(Loop(f, keys, i, attempts, turns, t))
    decreases |keys| - i
  {
    if i < |keys| {
      var turn := f(keys[i], i, t);
      assert Clean(turn, c, keys[i], t);
      if Ends(turn) {
        EndReleases(c, i, t, turns, turn);
      } else {
        TurnReleases(t, c, turns, turn);
        LoopReleases(f, c, keys, i + 1, attempts + (if turn.ok then 1 else 0), turns + [turn], turn.left);
      }
    }
  }

  /** When a request that is not disturbed ends, a circuit it reserved is half-open exactly if its answer is a client
      error, or an exception, that came from a probe of that binding. */
  lemma ProbesSettledAtEnd(e: Env, keys: seq<Key>, t: Table, j: nat)
    requires ValidConfig(e.config) && Sound(t, e.config) && Alone(e)
    requires j < |Serve(e, keys, t).turns| && Probed(Serve(e, keys, t).turns[j])
    ensures var s := Serve(e, keys, t);
            IsHalfOpen(s.after, s.turns[j].key) <==> KeepsProbe(s, s.turns[j].key)
  {
    AloneUndisturbed(e);
    LoopReleases(Turns(e), e.config, keys, 0, 0, [], t);
    assert Serve(e, keys, t).turns[j] in Serve(e, keys, t).turns;
  }

  /** Both cases are real: a probe answered with 404 leaves its circuit half-open, whatever the clock says later. */
  lemma ClientErrorKeepsProbe(e: Env, k: Key, t: Table, later: Time)
    requires ValidConfig(e.config) && Sound(t, e.config) && Alone(e) && e.reply(0) == Status(404)
    requires k in t && t[k].circuit.Open? && Cooled(t[k], e.config, e.clock(0))
    ensures Serve(e, [k], t).outcome == Forwarded(0, 404)
    ensures !Answer(Serve(e, [k], t).after, e.config, k, later)
  {
    assert Loop(Turns(e), [k], 0, 0, [], t).turns[0] == TurnAt(e, k, 0, t);
  }

  /** So does a probe whose call raises what the loop does not catch. */
  lemma ExceptionKeepsProbe(e: Env, k: Key, t: Table, later: Time)
    requires ValidConfig(e.config) && Sound(t, e.config) && Alone(e) && e.reply(0) == Raised
    requires k in t && t[k].circuit.Open? && Cooled(t[k], e.config, e.clock(0))
    ensures Serve(e, [k], t).outcome == Escaped(0)
    ensures !Answer(Serve(e, [k], t).after, e.config, k, later)
  {
    assert Loop(Turns(e), [k], 0, 0, [], t).turns[0] == TurnAt(e, k, 0, t);
  }

  // ----- failures add up -----

  /** Failed calls to binding `k` in these turns. */
  function FailedOn(turns: seq<Turn>, k: Key): nat {
    if |turns| == 0 then 0
    else
      var last := turns[|turns| - 1];
      FailedOn(turns[..|turns| - 1], k) + if last.key == k && last.record.Failed? then 1 else 0
  }

  predicate Fits(t: Table, room: set<Key>) { t.Keys <= room }

  /** With room for every key, touching one evicts nothing. */
  lemma NothingEvicted(t: Table, u: Table, c: Config, k: Key, room: set<Key>)
    requires OnlyTouches(t, u, c, k) && Fits(t, room) && k in room && |room| <= c.maxBindings
    ensures Fits(u, room) && forall x :: x in t ==> x in u
  {
    if k !in t {
      SubsetSize(t.Keys, room);
      assert |t.Keys| == |t|;
    }
  }

  lemma TurnAddsUp(turn: Turn, c: Config, k: Key, room: set<Key>)
    requires Accounted(turn, c) && turn.before == turn.held
    requires Fits(turn.seen, room) && turn.key in room && |room| <= c.maxBindings
    ensures Fits(turn.left, room)
    ensures FailuresOf(turn.left, k) ==
              if turn.record.Succeeded? && turn.key == k then 0
              else FailuresOf(turn.seen, k) + if turn.record.Failed? && turn.key == k then 1 else 0
  {
    NothingEvicted(turn.seen, turn.held, c, turn.key, room);
    if turn.record.Failed? || turn.record.Succeeded? { NothingEvicted(turn.before, turn.left, c, turn.key, room); }
  }

  lemma FailedOnSnoc(turns: seq<Turn>, turn: Turn, k: Key)
    ensures FailedOn(turns + [turn], k) == FailedOn(turns, k) + if turn.key == k && turn.record.Failed? then 1 else 0
  {
    assert (turns + [turn])[..|turns|] == turns;
  }

  ghost predicate AddsUp(s: Served, base: nat, k: Key) {
    FailuresOf(s.after, k) ==
      if |s.turns| > 0 && s.turns[|s.turns| - 1].record.Succeeded? && s.turns[|s.turns| - 1].key == k then 0
      else base + FailedOn(s.turns, k)
  }

  lemma {:induction false} LoopAddsUp(f: TurnFor, c: Config, keys: seq<Key>, i: nat, attempts: nat, turns: seq<Turn>, t: Table,
                                      room: set<Key>, base: nat, k: Key)
    requires Undisturbed(f, c) && Sound(t, c) && i <= |keys| && Fits(t, room) && |room| <= c.maxBindings
    requires forall x :: x in keys ==> x in room
    requires FailuresOf(t, k) == base + FailedOn(turns, k) && (|turns| > 0 ==> !turns[|turns| - 1].record.Succeeded?)
    ensures AddsUp(Loop(f, keys, i, attempts, turns, t), base, k)
    decreases |keys| - i
  {
    if i < |keys| {
      var turn := f(keys[i], i, t);
      assert Clean(turn, c, keys[i], t);
      TurnAddsUp(turn, c, k, room);
      FailedOnSnoc(turns, turn, k);
      if !Ends(turn) {
        LoopAddsUp(f, c, keys, i + 1, attempts + (if turn.ok then 1 else 0), turns + [turn], turn.left, room, base, k);
      }
    }
  }

  function KeySet(keys: seq<Key>): set<Key> { set x | x in keys }

  /** The request was answered by a success of binding `k`. */
  predicate ClearedBy(s: Served, k: Key) {
    s.outcome.Forwarded? && s.outcome.code < 400 && |s.turns| > 0 && s.turns[|s.turns| - 1].key == k
  }

  lemma SuccessIsAnswer(s: Served, c: Config, keys: seq<Key>, base: nat, k: Key)
    requires Accounting(s, AccountedBy(c), keys) && AddsUp(s, base, k)
    ensures FailuresOf(s.after, k) == if ClearedBy(s, k) then 0 else base + FailedOn(s.turns, k)
  {
    if |s.turns| > 0 { assert AccountedBy(c)(s.turns[|s.turns| - 1]); }
  }

  lemma ServeAddsUp(e: Env, keys: seq<Key>, t: Table, k: Key)
    requires ValidConfig(e.config) && Sound(t, e.config) && Alone(e)
    requires |t.Keys + KeySet(keys)| <= e.config.maxBindings
    ensures AddsUp(Serve(e, keys, t), FailuresOf(t, k), k)
  {
    AloneUndisturbed(e);
    LoopAddsUp(Turns(e), e.config, keys, 0, 0, [], t, t.Keys + KeySet(keys), FailuresOf(t, k), k);
  }

  /** A request that is not disturbed and evicts nothing adds to each binding exactly its own failed calls, unless its
      answer is a success of that binding, which clears it. */
  lemma FailuresAddUp(e: Env, keys: seq<Key>, t: Table, k: Key)
    requires ValidConfig(e.config) && Sound(t, e.config) && Alone(e)
    requires |t.Keys + KeySet(keys)| <= e.config.maxBindings
    ensures var s := Serve(e, keys, t);
            FailuresOf(s.after, k) == if ClearedBy(s, k) then 0 else FailuresOf(t, k) + FailedOn(s.turns, k)
  {
    ServeAddsUp(e, keys, t, k);
    ServeAccounts(e, keys, t);
    SuccessIsAnswer(Serve(e, keys, t), e.config, keys, FailuresOf(t, k), k);
  }

  // ----- choosing the bindings -----

  /** The bindings whose peek, each at its own reading of the clock, says routable. */
  function Peeked(routes: seq<Route>, t: Table, c: Config, clock: Clock): seq<Route> {
    if |routes| == 0 then []
    else
      var n := |routes| - 1;
      Peeked(routes[..n], t, c, clock) + if Answer(t, c, routes[n].key, clock(n)) then [routes[n]] else []
  }

  function OnNode(routes: seq<Route>, node: nat, same: bool): seq<Route> {
    if |routes| == 0 then []
    else (if (routes[0].node == node) == same then [routes[0]] else []) + OnNode(routes[1..], node, same)
  }

  /** The stable sort by `node_id != preferred`. */
  function Preferred(routes: seq<Route>, node: Option<nat>): seq<Route> {
    if node.None? then routes else OnNode(routes, node.value, true) + OnNode(routes, node.value, false)
  }

  function Tried(found: seq<Route>, t: Table, c: Config, clock: Clock, node: Option<nat>, max: nat): seq<Route> {
    Take(Preferred(Peeked(found, t, c, clock), node), max)
  }

  function KeysOf(routes: seq<Route>): seq<Key> {
    seq(|routes|, i requires 0 <= i < |routes| => routes[i].key)
  }

  /** Some position of the list holds this binding, and its peek says routable. */
  predicate PeeksRoutable(found: seq<Route>, t: Table, c: Config, clock: Clock, r: Route) {
    exists i :: 0 <= i < |found| && found[i] == r && Answer(t, c, r.key, clock(i))
  }

  lemma {:induction false} PeekedIn(routes: seq<Route>, t: Table, c: Config, clock: Clock, r: Route)
    ensures r in Peeked(routes, t, c, clock) <==> PeeksRoutable(routes, t, c, clock, r)
  {
    if |routes| > 0 {
      var n := |routes| - 1;
      var front := routes[..n];
      PeekedIn(front, t, c, clock, r);
      if PeeksRoutable(front, t, c, clock, r) {
        var i :| 0 <= i < n && front[i] == r && Answer(t, c, r.key, clock(i));
        assert routes[i] == r;
      }
      if PeeksRoutable(routes, t, c, clock, r) {
        var i :| 0 <= i < |routes| && routes[i] == r && Answer(t, c, r.key, clock(i));
        if i < n { assert front[i] == r; }
      }
    }
  }

  lemma {:induction false} OnNodeIn(routes: seq<Route>, node: nat, same: bool)
    ensures forall r :: r in OnNode(routes, node, same) <==> r in routes && (r.node == node) == same
    ensures |OnNode(routes, node, true)| + |OnNode(routes, node, false)| == |routes|
  {
    if |routes| > 0 {
      assert routes == [routes[0]] + routes[1..];
      OnNodeIn(routes[1..], node, same);
    }
  }

  lemma PreferredIn(routes: seq<Route>, node: Option<nat>)
    ensures forall r :: r in Preferred(routes, node) <==> r in routes
    ensures |Preferred(routes, node)| == |routes|
    ensures node.Some? && (exists r :: r in routes && r.node == node.value) ==>
              |routes| > 0 && Preferred(routes, node)[0].node == node.value
  {
    if node.Some? {
      OnNodeIn(routes, node.value, true);
      OnNodeIn(routes, node.value, false);
      var first := OnNode(routes, node.value, true);
      if |first| > 0 { assert first[0] in first; }
    }
  }

  /** One request tries at most the configured number of bindings, all discovered and peeked routable, and none only if
      none is routable; the preferred node comes first when a binding of it is. */
  lemma TriedBounded(found: seq<Route>, t: Table, c: Config, clock: Clock, node: Option<nat>, max: nat, r: Route)
    ensures var tried := Tried(found, t, c, clock, node, max);
            && |tried| <= max
            && (r in tried ==> PeeksRoutable(found, t, c, clock, r))
            && (max > 0 && PeeksRoutable(found, t, c, clock, r) ==> |tried| > 0)
            && (max > 0 && PeeksRoutable(found, t, c, clock, r) && node == Some(r.node) ==> tried[0].node == r.node)
  {
    var peeked := Peeked(found, t, c, clock);
    PeekedIn(found, t, c, clock, r);
    PreferredIn(peeked, node);
    var sorted := Preferred(peeked, node);
    assert forall x :: x in Take(sorted, max) ==> x in sorted;
  }

  // ----- the handler -----

  /** What the handler knows of the request before it looks at circuits. */
  datatype Target = NoSelection | UnknownSpecialist | Found(routes: seq<Route>, preferred: Option<nat>)

  datatype Response = UnknownModel | Answered(outcome: Outcome)

  lemma TurnsWithin(e: Env, keys: seq<Key>, t: Table)
    requires ValidConfig(e.config) && Sound(t, e.config) && Respects(e.others, e.config)
    ensures var s := Serve(e, keys, t);
            && Attempts(s.turns) <= |s.turns| <= |keys|
            && (s.outcome.Punted? ==> s.outcome.attempts == Attempts(s.turns))
  {
    ServeAccounts(e, keys, t);
    FewAttempts(Serve(e, keys, t).turns);
  }

  lemma LoopOnce(f: TurnFor, keys: seq<Key>, i: nat, attempts: nat, turns: seq<Turn>, t: Table)
    requires i < |keys|
    ensures var turn := f(keys[i], i, t);
            Loop(f, keys, i, attempts, turns, t) ==
            if Ends(turn) then Served(OutcomeOf(i, turn.reply), turns + [turn], turn.left)
            else Loop(f, keys, i + 1, attempts + (if turn.ok then 1 else 0), turns + [turn], turn.left)
  {}

  /** The three counters of a request. */
  datatype Tally = Tally(failed: nat, succeeded: nat, clientErrors: nat)

  function TallyOf(turns: seq<Turn>): Tally {
    Tally(Count(turns, Failed), Count(turns, Succeeded), Count(turns, ClientError))
  }

  function Counted(t: Tally, r: Record): Tally {
    match r
    case Skipped => t
    case Unrecorded => t
    case Failed => t.(failed := t.failed + 1)
    case Succeeded => t.(succeeded := t.succeeded + 1)
    case ClientError => t.(clientErrors := t.clientErrors + 1)
  }

  function Plus(a: Tally, b: Tally): Tally {
    Tally(a.failed + b.failed, a.succeeded + b.succeeded, a.clientErrors + b.clientErrors)
  }

  lemma TallySnoc(base: Tally, turns: seq<Turn>, turn: Turn)
    ensures Plus(base, TallyOf(turns + [turn])) == Counted(Plus(base, TallyOf(turns)), turn.record)
  {
    assert (turns + [turn])[..|turns|] == turns;
  }

  class Handler {
    const health: RouterRuntimeHealth
    const maxAttempts: nat

    constructor (health: RouterRuntimeHealth, maxAttempts: nat)
      ensures this.health == health && this.maxAttempts == maxAttempts
    {
      this.health, this.maxAttempts := health, maxAttempts;
    }

    function Counters(): Tally
      reads health
    {
      Tally(health.failed, health.succeeded, health.clientErrors)
    }

    method Interleave(others: Others, i: nat)
      requires health.Valid() && Respects(others, health.config)
      modifies health`bindings
      ensures health.bindings == others(i, old(health.bindings)) && health.Valid()
    {
      health.bindings := others(i, health.bindings);
    }

    /** The record of a reply: one access of the circuits at most. */
    method RecordReply(e: Env, k: Key, i: nat, reply: Reply)
      requires !reply.Raised? && health.Valid() && e.config == health.config && reply == e.reply(i)
      modifies health
      ensures health.bindings == Recorded(e, k, i, old(health.bindings)).1 && health.Valid()
      ensures Counters() == Counted(old(Counters()), Recorded(e, k, i, old(health.bindings)).0)
      ensures health.punts == old(health.punts)
    {
      var now := e.clock(2 * i + 1);
      if reply.Unreachable? {
        health.RecordFailure(k, now, reply.error);
      } else if reply.code in {502, 503, 504} {
        health.RecordFailure(k, now, e.statusClass(reply.code));
      } else if reply.code >= 500 {
        health.RecordFailure(k, now, e.statusClass(reply.code));
      } else if reply.code >= 400 {
        health.RecordClientError();
      } else {
        health.RecordSuccess(k, now, e.latency(i));
      }
    }

    /** The look at the circuits, after whatever happened since the last one. */
    method Look(e: Env, k: Key, i: nat) returns (ok: bool)
      requires health.Valid() && e.config == health.config && Respects(e.others, e.config)
      modifies health`bindings
      ensures var seen := e.others(2 * i, old(health.bindings));
              && health.bindings == After(seen, e.config, RuntimeHealth.Call.Route(k, e.clock(2 * i)))
              && ok == Answer(seen, e.config, k, e.clock(2 * i))
      ensures health.Valid()
    {
      Interleave(e.others, 2 * i);
      ok := health.IsRoutable(k, e.clock(2 * i));
    }

    /** One pass of the loop body. */
    method Try(e: Env, k: Key, i: nat) returns (ghost turn: Turn, ok: bool, reply: Reply)
      requires health.Valid() && e.config == health.config && Respects(e.others, e.config)
      modifies health
      ensures turn == Turns(e)(k, i, old(health.bindings)) && health.bindings == turn.left && health.Valid()
      ensures ok == turn.ok && reply == turn.reply
      ensures Counters() == Counted(old(Counters()), turn.record) && health.punts == old(health.punts)
    {
      turn := TurnAt(e, k, i, health.bindings);
      ok := Look(e, k, i);
      reply := e.reply(i);
      if !ok { return; }
      Interleave(e.others, 2 * i + 1);
      if !reply.Raised? { RecordReply(e, k, i, reply); }
    }

    method Complete(e: Env, keys: seq<Key>) returns (outcome: Outcome, ghost turns: seq<Turn>)
      requires health.Valid() && e.config == health.config && Respects(e.others, e.config)
      modifies health
      ensures Served(outcome, turns, health.bindings) == Serve(e, keys, old(health.bindings)) && health.Valid()
      ensures Counters() == Plus(old(Counters()), TallyOf(turns))
      ensures health.punts == old(health.punts) + (if outcome.Punted? then 1 else 0)
    {
      ghost var t0, f := health.bindings, Turns(e);
      turns := [];
      var attempts := 0;
      for i := 0 to |keys|
        invariant health.Valid() && health.punts == old(health.punts)
        invariant Loop(f, keys, i, attempts, turns, health.bindings) == Serve(e, keys, t0)
        invariant Counters() == Plus(old(Counters()), TallyOf(turns))
      {
        LoopOnce(f, keys, i, attempts, turns, health.bindings);
        ghost var turn;
        var ok, reply;
        turn, ok, reply := Try(e, keys[i], i);
        TallySnoc(old(Counters()), turns, turn);
        turns := turns + [turn];
        if ok {
          if !Retriable(reply) { return OutcomeOf(i, reply), turns; }
          attempts := attempts + 1;
        }
      }
      health.RecordPunt();
      outcome := Punted(attempts);
    }

    method PeekAll(routes: seq<Route>, clock: Clock) returns (bindings: seq<Route>)
      ensures bindings == Peeked(routes, health.bindings, health.config, clock)
    {
      bindings := [];
      for i := 0 to |routes|
        invariant bindings == Peeked(routes[..i], health.bindings, health.config, clock)
      {
        assert routes[..i + 1][..i] == routes[..i];
        var ok := health.PeekRoutable(routes[i].key, clock(i));
        if ok { bindings := bindings + [routes[i]]; }
      }
      assert routes[..|routes|] == routes;
    }

    /** From the discovered bindings to the answer; `clock` is read by the peeks. */
    method Route(e: Env, routes: seq<Route>, preferred: Option<nat>, clock: Clock)
      returns (outcome: Outcome, ghost turns: seq<Turn>)
      requires health.Valid() && e.config == health.config && Respects(e.others, e.config)
      modifies health
      ensures var tried := Tried(routes, old(health.bindings), e.config, clock, preferred, maxAttempts);
              Served(outcome, turns, health.bindings) == Serve(e, KeysOf(tried), old(health.bindings)) && |tried| <= maxAttempts
      ensures health.Valid() && Counters() == Plus(old(Counters()), TallyOf(turns))
      ensures health.punts == old(health.punts) + (if outcome.Punted? then 1 else 0)
    {
      if |routes| == 0 {
        health.RecordPunt();
        return Punted(0), [];
      }
      var bindings := PeekAll(routes, clock);
      bindings := Preferred(bindings, preferred);
      if |bindings| == 0 {
        health.RecordPunt();
        return Punted(0), [];
      }
      bindings := Take(bindings, maxAttempts);
      outcome, turns := Complete(e, KeysOf(bindings));
    }

    /** The handler: a request that names no known specialist counts as a client error, one for which nothing could be
        selected as a punt. */
    method ChatCompletions(e: Env, target: Target, clock: Clock) returns (response: Response, ghost turns: seq<Turn>)
      requires health.Valid() && e.config == health.config && Respects(e.others, e.config)
      modifies health
      ensures target.Found? ==>
                var tried := Tried(target.routes, old(health.bindings), e.config, clock, target.preferred, maxAttempts);
                && response.Answered?
                && Served(response.outcome, turns, health.bindings) == Serve(e, KeysOf(tried), old(health.bindings))
      ensures !target.Found? ==> turns == [] && health.bindings == old(health.bindings)
      ensures response == UnknownModel <==> target.UnknownSpecialist?
      ensures target.NoSelection? ==> response == Answered(Punted(0))
      ensures health.Valid() && Attempts(turns) <= |turns| <= maxAttempts
      ensures response.Answered? && response.outcome.Punted? ==> response.outcome.attempts == Attempts(turns)
      ensures Counters() == if target.UnknownSpecialist? then Counted(old(Counters()), ClientError)
                            else Plus(old(Counters()), TallyOf(turns))
      ensures health.punts == old(health.punts) + (if response.Answered? && response.outcome.Punted? then 1 else 0)
    {
      match target {
        case NoSelection =>
          health.RecordPunt();
          return Answered(Punted(0)), [];
        case UnknownSpecialist =>
          health.RecordClientError();
          return UnknownModel, [];
        case Found(routes, preferred) =>
          ghost var t0 := health.bindings;
          var outcome;
          outcome, turns := Route(e, routes, preferred, clock);
          TurnsWithin(e, KeysOf(Tried(routes, t0, e.config, clock, preferred, maxAttempts)), t0);
          return Answered(outcome), turns;
      }
    }
  }
}
