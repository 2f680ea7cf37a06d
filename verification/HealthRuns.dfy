/** Runs of the circuit breakers (mesh/runtime_health.py): how often a failing node is probed, and the bounded table
    against a description of each binding by its own history alone. */
module HealthRuns {
  import opened Wrappers
  import opened RuntimeHealth

  ghost predicate Run(ts: seq<Table>, c: Config, calls: seq<Call>) {
    && ValidConfig(c) && |ts| == |calls| + 1 && Sound(ts[0], c)
    && forall i :: 0 <= i < |calls| ==> ts[i + 1] == After(ts[i], c, calls[i])
  }

  predicate Timed(calls: seq<Call>) {
    forall i, j :: 0 <= i <= j < |calls| ==> calls[i].now <= calls[j].now
  }

  lemma {:induction false} RunSound(ts: seq<Table>, c: Config, calls: seq<Call>, n: nat)
    requires Run(ts, c, calls) && n <= |calls|
    ensures Sound(ts[n], c)
  {
    if n > 0 {
      RunSound(ts, c, calls, n - 1);
      CallKeepsSound(ts[n - 1], c, calls[n - 1]);
    }
  }

  // ----- probes -----

  /** Call `i` is let through to a binding whose circuit is open: a probe. */
  predicate Probe(ts: seq<Table>, c: Config, calls: seq<Call>, i: nat, k: Key)
    requires |ts| == |calls| + 1 && i < |calls|
  {
    calls[i].Route? && calls[i].key == k && k in ts[i] && !ts[i][k].circuit.Closed? && Answer(ts[i], c, k, calls[i].now)
  }

  /** From `a` to `b` the binding is never evicted and never succeeds. */
  ghost predicate Failing(ts: seq<Table>, calls: seq<Call>, k: Key, a: nat, b: nat)
    requires |ts| == |calls| + 1 && a <= b <= |calls|
  {
    && (forall m :: a <= m <= b ==> k in ts[m])
    && (forall m :: a <= m < b ==> !(calls[m].Success? && calls[m].key == k))
  }

  ghost predicate Waiting(b: Binding, since: Time) {
    b.circuit.HalfOpen? || (b.circuit.Open? && b.openedAt.Some? && b.openedAt.value >= since)
  }

  lemma CallKeepsWaiting(t: Table, c: Config, call: Call, k: Key, since: Time)
    requires ValidConfig(c) && Sound(t, c) && since <= call.now
    requires k in t && k in After(t, c, call) && Waiting(t[k], since) && !(call.Success? && call.key == k)
    ensures Waiting(After(t, c, call)[k], since)
  {
    assert SoundBinding(t[k], c);
  }

  lemma {:induction false} WaitsAfterProbe(ts: seq<Table>, c: Config, calls: seq<Call>, k: Key, i: nat, j: nat)
    requires Run(ts, c, calls) && Timed(calls) && i < j <= |calls|
    requires Probe(ts, c, calls, i, k) && Failing(ts, calls, k, i, j)
    ensures k in ts[j] && Waiting(ts[j][k], calls[i].now)
    decreases j
  {
    if j > i + 1 {
      WaitsAfterProbe(ts, c, calls, k, i, j - 1);
      RunSound(ts, c, calls, j - 1);
      assert k in ts[j] && ts[(j - 1) + 1] == After(ts[j - 1], c, calls[j - 1]);
      CallKeepsWaiting(ts[j - 1], c, calls[j - 1], k, calls[i].now);
    }
  }

  /** Two probes of a binding that has not succeeded in between are at least the cooldown apart, even when stray
      failures of earlier requests arrive while one is out. */
  lemma ProbesSpaced(ts: seq<Table>, c: Config, calls: seq<Call>, k: Key, i: nat, j: nat)
    requires Run(ts, c, calls) && Timed(calls) && i < j < |calls|
    requires Probe(ts, c, calls, i, k) && Probe(ts, c, calls, j, k) && Failing(ts, calls, k, i, j)
    ensures calls[j].now - calls[i].now >= c.cooldown
  {
    WaitsAfterProbe(ts, c, calls, k, i, j);
  }

  /** So n probes take at least n - 1 cooldowns: at most 1 + T / cooldown of them in a stretch of length T. */
  lemma {:induction false} ProbeRate(ts: seq<Table>, c: Config, calls: seq<Call>, k: Key, probes: seq<nat>)
    requires Run(ts, c, calls) && Timed(calls) && |probes| > 0
    requires forall i :: 0 <= i < |probes| ==> probes[i] < |calls| && Probe(ts, c, calls, probes[i], k)
    requires forall i, j :: 0 <= i < j < |probes| ==> probes[i] < probes[j]
    requires probes[0] <= probes[|probes| - 1]
    requires Failing(ts, calls, k, probes[0], probes[|probes| - 1])
    ensures (|probes| - 1) as real * c.cooldown <= calls[probes[|probes| - 1]].now - calls[probes[0]].now
  {
    if |probes| > 1 {
      var front := probes[..|probes| - 1];
      var a, b := probes[|probes| - 2], probes[|probes| - 1];
      ProbeRate(ts, c, calls, k, front);
      ProbesSpaced(ts, c, calls, k, a, b);
      assert (|probes| - 1) as real * c.cooldown == (|front| - 1) as real * c.cooldown + c.cooldown;
    }
  }

  // ----- the unbounded breaker, from the history of one binding -----

  /** Consecutive failures since the last success. */
  function Failures(h: seq<Call>): nat {
    if |h| == 0 then 0
    else
      var last, before := h[|h| - 1], h[..|h| - 1];
      if last.Success? then 0 else Failures(before) + if last.Failure? then 1 else 0
  }

  function LastFailure(h: seq<Call>): Option<Time> {
    if |h| == 0 then None
    else if h[|h| - 1].Failure? then Some(h[|h| - 1].now)
    else LastFailure(h[..|h| - 1])
  }

  predicate Rested(h: seq<Call>, c: Config, now: Time) {
    LastFailure(h).Some? && now - LastFailure(h).value >= c.cooldown
  }

  /** A probe has been let through since the last failure or success. */
  predicate ProbeOut(h: seq<Call>, c: Config) {
    if |h| == 0 then false
    else
      var last, before := h[|h| - 1], h[..|h| - 1];
      if last.Success? || last.Failure? then false
      else ProbeOut(before, c) || (last.Route? && Failures(before) >= c.threshold && Rested(before, c, last.now))
  }

  predicate Allowed(h: seq<Call>, c: Config, now: Time) {
    Failures(h) < c.threshold || (Rested(h, c, now) && !ProbeOut(h, c))
  }

  function History(calls: seq<Call>, k: Key): seq<Call> {
    if |calls| == 0 then []
    else History(calls[..|calls| - 1], k) + if calls[|calls| - 1].key == k then [calls[|calls| - 1]] else []
  }

  function KeysOf(calls: seq<Call>): set<Key> {
    set i | 0 <= i < |calls| :: calls[i].key
  }

  /** When the binding was last used or reported on. */
  function LastUse(h: seq<Call>): Option<Time> {
    if |h| == 0 then None else if !h[|h| - 1].Peek? then Some(h[|h| - 1].now) else LastUse(h[..|h| - 1])
  }

  function LastSuccess(h: seq<Call>): Option<Call> {
    if |h| == 0 then None else if h[|h| - 1].Success? then Some(h[|h| - 1]) else LastSuccess(h[..|h| - 1])
  }

  /** The kind of the last failure, unless a success followed it. */
  function FailureKind(h: seq<Call>): string {
    if |h| == 0 then ""
    else if h[|h| - 1].Success? then ""
    else if h[|h| - 1].Failure? then h[|h| - 1].kind
    else FailureKind(h[..|h| - 1])
  }

  predicate ShortFor(s: string, kind: string) { s <= kind && |s| == if |kind| < 64 then |kind| else 64 }

  /** What the history of a binding makes of its entry. */
  ghost predicate SaysHistory(b: Binding, c: Config, h: seq<Call>) {
    && LastUse(h) == Some(b.touched) && b.failures == Failures(h)
    && b.circuit == (if Failures(h) < c.threshold then Closed else if ProbeOut(h, c) then HalfOpen else Open)
    && b.openedAt == (if Failures(h) < c.threshold then None else LastFailure(h))
    && (LastSuccess(h).None? ==> b.successAt.None? && b.latency.None?)
    && (LastSuccess(h).Some? ==>
          && LastSuccess(h).value.Success? && b.successAt == Some(LastSuccess(h).value.now)
          && b.latency == Some(if LastSuccess(h).value.latency > 0 then LastSuccess(h).value.latency else 0))
    && ShortFor(b.failureClass, FailureKind(h))
  }

  /** A table entry says what the history says, and there is one exactly for a binding that was used. */
  ghost predicate Reflects(t: Table, c: Config, k: Key, h: seq<Call>) {
    if k in t then SaysHistory(t[k], c, h) else LastUse(h).None? && Failures(h) == 0 && LastSuccess(h).None? && FailureKind(h) == ""
  }

  lemma CallReflects(t: Table, c: Config, call: Call, h: seq<Call>)
    requires ValidConfig(c) && Sound(t, c) && (call.key in t || |t| < c.maxBindings)
    requires Reflects(t, c, call.key, h) && (LastUse(h).None? ==> !ProbeOut(h, c))
    ensures Reflects(After(t, c, call), c, call.key, h + [call])
    ensures LastUse(h + [call]).None? ==> !ProbeOut(h + [call], c)
  {
    assert (h + [call])[..|h|] == h;
    if call.key in t { assert SoundBinding(t[call.key], c); }
  }

  lemma OthersStay(t: Table, c: Config, call: Call, k: Key)
    requires ValidConfig(c) && Sound(t, c) && (call.key in t || |t| < c.maxBindings) && k != call.key
    ensures k in After(t, c, call) <==> k in t
    ensures k in t ==> After(t, c, call)[k] == t[k]
  {}

  lemma KeyOfCall(calls: seq<Call>, n: nat)
    requires n < |calls|
    ensures calls[n].key in KeysOf(calls)
  {}

  lemma StepUsesKey(ts: seq<Table>, c: Config, calls: seq<Call>, n: nat, k: Key)
    requires Run(ts, c, calls) && n < |calls| && k in ts[n + 1]
    ensures k in ts[n] || k == calls[n].key
  {}

  lemma {:induction false} UsedKey(ts: seq<Table>, c: Config, calls: seq<Call>, n: nat, k: Key)
    requires Run(ts, c, calls) && ts[0] == map[] && n <= |calls| && k in ts[n]
    ensures k in KeysOf(calls)
  {
    if n > 0 {
      StepUsesKey(ts, c, calls, n - 1, k);
      KeyOfCall(calls, n - 1);
      if k in ts[n - 1] { UsedKey(ts, c, calls, n - 1, k); }
    }
  }

  /** With few keys the table is never at its bound when a new one comes. */
  lemma FewKeys(ts: seq<Table>, c: Config, calls: seq<Call>, n: nat)
    requires Run(ts, c, calls) && ts[0] == map[] && n < |calls| && |KeysOf(calls)| <= c.maxBindings
    ensures calls[n].key in ts[n] || |ts[n]| < c.maxBindings
  {
    forall k | k in ts[n] ensures k in KeysOf(calls) { UsedKey(ts, c, calls, n, k); }
    KeyOfCall(calls, n);
    SubsetSize(ts[n].Keys, KeysOf(calls));
    assert |ts[n].Keys| == |ts[n]|;
  }

  lemma {:induction false} TableReflects(ts: seq<Table>, c: Config, calls: seq<Call>, n: nat, k: Key)
    requires Run(ts, c, calls) && ts[0] == map[] && n <= |calls| && |KeysOf(calls)| <= c.maxBindings
    ensures Reflects(ts[n], c, k, History(calls[..n], k))
    ensures LastUse(History(calls[..n], k)).None? ==> !ProbeOut(History(calls[..n], k), c)
  {
    if n > 0 {
      var call := calls[n - 1];
      TableReflects(ts, c, calls, n - 1, k);
      RunSound(ts, c, calls, n - 1);
      FewKeys(ts, c, calls, n - 1);
      assert calls[..n][..n - 1] == calls[..n - 1];
      if call.key == k {
        CallReflects(ts[n - 1], c, call, History(calls[..n - 1], k));
      } else {
        OthersStay(ts[n - 1], c, call, k);
        assert History(calls[..n], k) == History(calls[..n - 1], k);
      }
    }
  }

  /** While no more bindings are used than the table holds, every answer is the one that the binding's own failures,
      successes and probes give. */
  lemma AnswersFollowHistory(ts: seq<Table>, c: Config, calls: seq<Call>, n: nat, k: Key, now: Time)
    requires Run(ts, c, calls) && ts[0] == map[] && n <= |calls| && |KeysOf(calls)| <= c.maxBindings
    ensures Answer(ts[n], c, k, now) <==> Allowed(History(calls[..n], k), c, now)
  {
    TableReflects(ts, c, calls, n, k);
    RunSound(ts, c, calls, n);
    if k in ts[n] { assert SoundBinding(ts[n][k], c); }
  }

  /** Under the same bound every entry is the one that the binding's own history describes: use, failures, circuit,
      last success and failure class; and exactly the bindings that were used have one. */
  lemma EntriesFollowHistory(ts: seq<Table>, c: Config, calls: seq<Call>, n: nat, k: Key)
    requires Run(ts, c, calls) && ts[0] == map[] && n <= |calls| && |KeysOf(calls)| <= c.maxBindings
    ensures var h := History(calls[..n], k);
            && (k in ts[n] <==> LastUse(h).Some?)
            && (k in ts[n] ==> SaysHistory(ts[n][k], c, h))
  {
    TableReflects(ts, c, calls, n, k);
  }

  // ----- least recently used, over any run -----

  /** Call `i` is the last one that used the binding. */
  ghost predicate LastUsedBy(calls: seq<Call>, n: nat, k: Key, i: nat)
    requires n <= |calls|
  {
    i < n && calls[i].key == k && !calls[i].Peek? && forall m :: i < m < n ==> calls[m].key != k || calls[m].Peek?
  }

  lemma CallTouches(t: Table, c: Config, call: Call, k: Key)
    requires ValidConfig(c) && k in After(t, c, call)
    ensures if call.key == k && !call.Peek? then After(t, c, call)[k].touched == call.now
            else k in t && After(t, c, call)[k].touched == t[k].touched
  {}

  /** A binding was last touched by the call that used it last, evictions or not: "least recently touched" is least
      recently used. */
  lemma {:induction false} TouchedIsLastUse(ts: seq<Table>, c: Config, calls: seq<Call>, n: nat, k: Key)
    requires Run(ts, c, calls) && ts[0] == map[] && n <= |calls| && k in ts[n]
    ensures exists i: nat :: LastUsedBy(calls, n, k, i) && ts[n][k].touched == calls[i].now
  {
    if n > 0 {
      var call := calls[n - 1];
      assert ts[(n - 1) + 1] == After(ts[n - 1], c, call);
      CallTouches(ts[n - 1], c, call, k);
      if call.key == k && !call.Peek? {
        assert LastUsedBy(calls, n, k, n - 1);
      } else {
        TouchedIsLastUse(ts, c, calls, n - 1, k);
        var i: nat :| LastUsedBy(calls, n - 1, k, i) && ts[n - 1][k].touched == calls[i].now;
        assert LastUsedBy(calls, n, k, i);
      }
    }
  }

  // ----- peeks -----

  /** A reservation at the time of a peek is granted exactly when the peek said so, whatever other bindings are peeked
      or fail in between, as long as this one is left alone. */
  lemma {:induction false} PeekHolds(ts: seq<Table>, c: Config, calls: seq<Call>, m: nat, n: nat, k: Key, now: Time)
    requires Run(ts, c, calls) && m <= n <= |calls|
    requires forall i :: m <= i < n ==> calls[i].key != k || calls[i].Peek?
    requires k in ts[m] ==> forall i :: m <= i <= n ==> k in ts[i]
    ensures Answer(ts[n], c, k, now) <==> Answer(ts[m], c, k, now)
  {
    if n > m {
      PeekHolds(ts, c, calls, m, n - 1, k, now);
      assert ts[(n - 1) + 1] == After(ts[n - 1], c, calls[n - 1]);
      StaysAlone(ts[n - 1], c, calls[n - 1], k);
    }
  }

  lemma StaysAlone(t: Table, c: Config, call: Call, k: Key)
    requires ValidConfig(c) && (call.key != k || call.Peek?)
    ensures k in After(t, c, call) ==> k in t && After(t, c, call)[k] == t[k]
  {}
}
