/** Circuit breakers of the router (mesh/runtime_health.py): a bounded table of bindings.

    Keys are numbers in the order of the binding keys; `now` is the clock value a call reads. */
module RuntimeHealth {
  import opened Sorting
  import opened Wrappers

  type Key = nat
  type Time = real

  datatype Circuit = Closed | Open | HalfOpen
  datatype Binding = Binding(circuit: Circuit, failures: nat, openedAt: Option<Time>, touched: Time,
                             successAt: Option<Time>, latency: Option<nat>, failureClass: string)
  type Table = map<Key, Binding>

  datatype Config = Config(threshold: int, cooldown: Time, maxBindings: int)

  predicate ValidConfig(c: Config) { c.threshold >= 1 && c.cooldown > 0.0 && c.maxBindings >= 1 }

  // ----- eviction -----

  predicate Older(t: Table, a: Key, b: Key)
    requires a in t && b in t
  {
    t[a].touched < t[b].touched || (t[a].touched == t[b].touched && a < b)
  }

  predicate IsOldest(t: Table, keys: set<Key>, k: Key)
    requires keys <= t.Keys
  {
    k in keys && forall x :: x in keys ==> x == k || Older(t, k, x)
  }

  lemma OldestExists(t: Table, keys: set<Key>)
    requires |keys| > 0 && keys <= t.Keys
    ensures exists k :: IsOldest(t, keys, k)
  {
    var k := LeastExists((a: Key, b: Key) => a in t && b in t && Older(t, a, b), keys);
    assert IsOldest(t, keys, k);
  }

  function ClosedKeys(t: Table): set<Key> {
    set k | k in t && t[k].circuit.Closed?
  }

  /** A closed binding goes first; only without one does a non-closed binding go. */
  function Evictable(t: Table): set<Key> {
    if |ClosedKeys(t)| > 0 then ClosedKeys(t) else t.Keys
  }

  ghost function Victim(t: Table): (k: Key)
    requires |t| > 0
    ensures IsOldest(t, Evictable(t), k)
  {
    assert |t.Keys| == |t|;
    OldestExists(t, Evictable(t));
    var k :| IsOldest(t, Evictable(t), k);
    k
  }

  // ----- the operations as functions -----

  ghost function Evicted(t: Table, c: Config): Table {
    if |t| > 0 && |t| >= c.maxBindings then t - {Victim(t)} else t
  }

  function NewBinding(now: Time): Binding { Binding(Closed, 0, None, now, None, None, "") }

  /** `_state_for`. */
  ghost function Touch(t: Table, c: Config, k: Key, now: Time): (r: Table)
    ensures k in r
  {
    if k in t then t[k := t[k].(touched := now)] else Evicted(t, c)[k := NewBinding(now)]
  }

  predicate Cooled(b: Binding, c: Config, now: Time) {
    b.openedAt.Some? && now - b.openedAt.value >= c.cooldown
  }

  predicate Routable(b: Binding, c: Config, now: Time) {
    b.circuit.Closed? || (b.circuit.Open? && Cooled(b, c, now))
  }

  function Reserve(b: Binding, c: Config, now: Time): Binding {
    if b.circuit.Open? && Cooled(b, c, now) then b.(circuit := HalfOpen) else b
  }

  function Succeed(b: Binding, now: Time, latency: int): Binding {
    Binding(Closed, 0, None, b.touched, Some(now), Some(if latency < 0 then 0 else latency), "")
  }

  function Short(s: string): string { if |s| <= 64 then s else s[..64] }

  function Fail(b: Binding, c: Config, now: Time, kind: string): Binding {
    var b' := b.(failures := b.failures + 1, failureClass := Short(kind));
    if b.circuit.HalfOpen? || b'.failures >= c.threshold then b'.(circuit := Open, openedAt := Some(now)) else b'
  }

  datatype Call =
    | Route(key: Key, now: Time)
    | Peek(key: Key, now: Time)
    | Success(key: Key, now: Time, latency: int)
    | Failure(key: Key, now: Time, kind: string)

  ghost function After(t: Table, c: Config, call: Call): Table {
    match call
    case Peek(_, _) => t
    case Route(k, now) => var t' := Touch(t, c, k, now); t'[k := Reserve(t'[k], c, now)]
    case Success(k, now, latency) => var t' := Touch(t, c, k, now); t'[k := Succeed(t'[k], now, latency)]
    case Failure(k, now, kind) => var t' := Touch(t, c, k, now); t'[k := Fail(t'[k], c, now, kind)]
  }

  /** What `is_routable` and `peek_routable` answer: an unknown binding is routable. */
  predicate Answer(t: Table, c: Config, k: Key, now: Time) {
    k !in t || Routable(t[k], c, now)
  }

  // ----- what every table satisfies -----

  /** A binding is closed exactly below the failure threshold, and an open one knows since when. */
  predicate SoundBinding(b: Binding, c: Config) {
    && (b.circuit.Closed? <==> b.failures < c.threshold)
    && (b.circuit.Closed? <==> b.openedAt.None?)
  }

  predicate Sound(t: Table, c: Config) {
    && |t| <= c.maxBindings
    && forall k :: k in t ==> SoundBinding(t[k], c)
  }

  lemma RemovedSize(t: Table, k: Key)
    requires k in t
    ensures |t - {k}| == |t| - 1
  {
    assert (t - {k}).Keys == t.Keys - {k};
    assert |t.Keys| == |t| && |(t - {k}).Keys| == |t - {k}|;
  }

  lemma AddedSize(t: Table, k: Key, b: Binding)
    ensures |t[k := b]| == |t| + if k in t then 0 else 1
  {
    assert t[k := b].Keys == t.Keys + {k};
    assert |t.Keys| == |t| && |t[k := b].Keys| == |t[k := b]|;
  }

  lemma TouchSound(t: Table, c: Config, k: Key, now: Time)
    requires ValidConfig(c) && Sound(t, c)
    ensures Sound(Touch(t, c, k, now), c)
  {
    if k in t {
      AddedSize(t, k, t[k].(touched := now));
    } else {
      if |t| >= c.maxBindings { RemovedSize(t, Victim(t)); }
      AddedSize(Evicted(t, c), k, NewBinding(now));
    }
  }

  /** The table stays within its bound, and a binding is non-closed exactly when its consecutive failures reach the
      threshold. */
  lemma CallKeepsSound(t: Table, c: Config, call: Call)
    requires ValidConfig(c) && Sound(t, c)
    ensures Sound(After(t, c, call), c)
  {
    if !call.Peek? {
      var t' := Touch(t, c, call.key, call.now);
      TouchSound(t, c, call.key, call.now);
      var b := After(t, c, call)[call.key];
      assert SoundBinding(t'[call.key], c);
      AddedSize(t', call.key, b);
    }
  }

  /** A binding with an open circuit is evicted only when no closed one exists, and only at the bound. */
  lemma EvictsClosedFirst(t: Table, c: Config, call: Call, k: Key)
    requires ValidConfig(c) && k in t && k !in After(t, c, call)
    ensures |t| >= c.maxBindings && call.key !in t
    ensures !t[k].circuit.Closed? ==> forall x :: x in t ==> !t[x].circuit.Closed?
    ensures forall x :: x in t && x != k && (t[x].circuit.Closed? <==> t[k].circuit.Closed?) ==>
              t[k].touched < t[x].touched || (t[k].touched == t[x].touched && k < x)
  {
    assert k == Victim(t);
    forall x | x in t ensures t[x].circuit.Closed? ==> x in ClosedKeys(t) {}
  }

  // ----- the class -----

  class RouterRuntimeHealth {
    const config: Config
    var bindings: Table
    var succeeded: nat
    var failed: nat
    var clientErrors: nat
    var punts: nat

    ghost predicate Valid()
      reads this
    {
      ValidConfig(config) && Sound(bindings, config)
    }

    constructor (c: Config)
      requires ValidConfig(c)
      ensures Valid() && config == c && bindings == map[]
    {
      config, bindings := c, map[];
      succeeded, failed, clientErrors, punts := 0, 0, 0, 0;
    }

    /** The constructor with its three argument checks. */
    static method Create(c: Config) returns (r: Option<RouterRuntimeHealth>)
      ensures r.Some? <==> c.threshold >= 1 && c.cooldown > 0.0 && c.maxBindings >= 1
      ensures r.Some? ==> fresh(r.value) && r.value.Valid() && r.value.config == c && r.value.bindings == map[]
    {
      if c.threshold < 1 || c.cooldown <= 0.0 || c.maxBindings < 1 { return None; }
      var health := new RouterRuntimeHealth(c);
      return Some(health);
    }

    method Oldest(keys: set<Key>) returns (k: Key)
      requires |keys| > 0 && keys <= bindings.Keys
      ensures IsOldest(bindings, keys, k)
    {
      OldestExists(bindings, keys);
      k :| k in keys;
      var todo := keys - {k};
      while |todo| > 0
        invariant todo <= keys && k in keys && k !in todo
        invariant forall x :: x in keys && x !in todo ==> x == k || Older(bindings, k, x)
        decreases |todo|
      {
        var x :| x in todo;
        todo := todo - {x};
        if Older(bindings, x, k) { k := x; }
      }
    }

    /** `_state_for`: find or add the binding, evicting at the bound. */
    method StateFor(k: Key, now: Time)
      requires Valid()
      modifies this`bindings
      ensures bindings == Touch(old(bindings), config, k, now) && Valid()
    {
      ghost var t := bindings;
      TouchSound(t, config, k, now);
      if k in bindings {
        bindings := bindings[k := bindings[k].(touched := now)];
        return;
      }
      if |bindings| >= config.maxBindings {
        assert |bindings.Keys| == |bindings|;
        var candidates := set x | x in bindings && bindings[x].circuit.Closed?;
        if |candidates| == 0 { candidates := bindings.Keys; }
        var evicted := Oldest(candidates);
        assert candidates == Evictable(t) && IsOldest(t, candidates, Victim(t));
        bindings := bindings - {evicted};
      }
      bindings := bindings[k := NewBinding(now)];
    }

    method IsRoutable(k: Key, now: Time) returns (ok: bool)
      requires Valid()
      modifies this`bindings
      ensures bindings == After(old(bindings), config, Route(k, now))
      ensures ok == Answer(old(bindings), config, k, now)
      ensures Valid()
    {
      CallKeepsSound(bindings, config, Route(k, now));
      StateFor(k, now);
      var b := bindings[k];
      assert bindings == bindings[k := b];
      if b.circuit.Closed? { return true; }
      if b.circuit.HalfOpen? { return false; }
      if b.openedAt.None? || now - b.openedAt.value < config.cooldown { return false; }
      bindings := bindings[k := b.(circuit := HalfOpen)];
      return true;
    }

    method PeekRoutable(k: Key, now: Time) returns (ok: bool)
      ensures ok == Answer(bindings, config, k, now)
    {
      if k !in bindings || bindings[k].circuit.Closed? { return true; }
      if bindings[k].circuit.HalfOpen? { return false; }
      return bindings[k].openedAt.Some? && now - bindings[k].openedAt.value >= config.cooldown;
    }

    method RecordSuccess(k: Key, now: Time, latency: int)
      requires Valid()
      modifies this
      ensures bindings == After(old(bindings), config, Success(k, now, latency))
      ensures Valid() && succeeded == old(succeeded) + 1
      ensures failed == old(failed) && clientErrors == old(clientErrors) && punts == old(punts)
    {
      CallKeepsSound(bindings, config, Success(k, now, latency));
      StateFor(k, now);
      var b := bindings[k];
      b := b.(circuit := Closed, failures := 0, openedAt := None);
      b := b.(successAt := Some(now), latency := Some(if latency < 0 then 0 else latency), failureClass := "");
      bindings := bindings[k := b];
      succeeded := succeeded + 1;
    }

    method RecordFailure(k: Key, now: Time, kind: string)
      requires Valid()
      modifies this
      ensures bindings == After(old(bindings), config, Failure(k, now, kind))
      ensures Valid() && failed == old(failed) + 1
      ensures succeeded == old(succeeded) && clientErrors == old(clientErrors) && punts == old(punts)
    {
      CallKeepsSound(bindings, config, Failure(k, now, kind));
      StateFor(k, now);
      var b := bindings[k];
      var wasProbe := b.circuit.HalfOpen?;
      b := b.(failures := b.failures + 1, failureClass := Short(kind));
      if wasProbe || b.failures >= config.threshold {
        b := b.(circuit := Open, openedAt := Some(now));
      }
      bindings := bindings[k := b];
      failed := failed + 1;
    }

    /** No key: whatever circuit the reply came through stays as it is. */
    method RecordClientError()
      modifies this`clientErrors
      ensures clientErrors == old(clientErrors) + 1
    {
      clientErrors := clientErrors + 1;
    }

    method RecordPunt()
      modifies this`punts
      ensures punts == old(punts) + 1
    {
      punts := punts + 1;
    }

    /** The `open_circuits` figure of the status snapshot. */
    method OpenCircuits() returns (n: nat)
      requires Valid()
      ensures n == |set k | k in bindings && bindings[k].failures >= config.threshold|
    {
      var open := set k | k in bindings && !bindings[k].circuit.Closed?;
      assert open == set k | k in bindings && bindings[k].failures >= config.threshold;
      n := |open|;
    }
  }
}
