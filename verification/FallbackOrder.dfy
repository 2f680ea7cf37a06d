/** Which bindings the non-streaming fallback loop of `chat_completions` (mesh/router_app.py) tries, in terms of the list
    of discovery, and that it calls them. */
module FallbackOrder {
  import opened Sorting
  import opened Wrappers
  import opened RuntimeHealth
  import opened Fallback

  // ----- positions in the list of discovery -----

  /** The position peeks routable. */
  predicate RoutableAt(found: seq<Route>, t: Table, c: Config, clock: Clock, i: nat) {
    i < |found| && Answer(t, c, found[i].key, clock(i))
  }

  predicate Wanted(found: seq<Route>, node: Option<nat>, i: nat) {
    i < |found| && node == Some(found[i].node)
  }

  /** The order of trying: bindings of the preferred node first, otherwise the order of discovery. */
  predicate TriedBefore(found: seq<Route>, node: Option<nat>, i: nat, j: nat) {
    if Wanted(found, node, i) == Wanted(found, node, j) then i < j else Wanted(found, node, i)
  }

  predicate InOrder(at: seq<nat>, found: seq<Route>, node: Option<nat>) {
    forall m, n :: 0 <= m < n < |at| ==> TriedBefore(found, node, at[m], at[n])
  }

  /** All of `at` come before position `i`. */
  predicate AllBefore(at: seq<nat>, found: seq<Route>, node: Option<nat>, i: nat) {
    forall m :: 0 <= m < |at| ==> TriedBefore(found, node, at[m], i)
  }

  /** `at` lists positions that peek routable, in the order of trying, and as many of the first of them as the bound
      allows. */
  ghost predicate FirstPositions(at: seq<nat>, found: seq<Route>, t: Table, c: Config, clock: Clock, node: Option<nat>, max: nat) {
    && |at| <= max && InOrder(at, found, node)
    && (forall i :: i in at ==> RoutableAt(found, t, c, clock, i))
    && (forall i: nat :: RoutableAt(found, t, c, clock, i) && i !in at ==> |at| == max && AllBefore(at, found, node, i))
  }

  function RoutesAt(found: seq<Route>, at: seq<nat>): seq<Route> {
    if |at| == 0 then [] else (if at[0] < |found| then [found[at[0]]] else []) + RoutesAt(found, at[1..])
  }

  lemma {:induction false} RoutesAtConcat(found: seq<Route>, a: seq<nat>, b: seq<nat>)
    ensures RoutesAt(found, a + b) == RoutesAt(found, a) + RoutesAt(found, b)
  {
    if |a| == 0 {
      assert a + b == b;
    } else {
      assert (a + b)[1..] == a[1..] + b;
      RoutesAtConcat(found, a[1..], b);
    }
  }

  lemma {:induction false} RoutesAtIndex(found: seq<Route>, at: seq<nat>, m: nat)
    requires m < |at| && forall i :: i in at ==> i < |found|
    ensures |RoutesAt(found, at)| == |at| && at[m] < |found| && RoutesAt(found, at)[m] == found[at[m]]
  {
    assert at[0] in at && forall i :: i in at[1..] ==> i in at;
    if |at| > 1 { RoutesAtIndex(found, at[1..], if m > 0 then m - 1 else 0); }
  }

  /** The positions that peek routable, in order. */
  function RoutablePositions(found: seq<Route>, n: nat, t: Table, c: Config, clock: Clock): seq<nat> {
    if n == 0 then []
    else RoutablePositions(found, n - 1, t, c, clock) + if RoutableAt(found, t, c, clock, n - 1) then [n - 1] else []
  }

  lemma {:induction false} PositionsAreRoutable(found: seq<Route>, n: nat, t: Table, c: Config, clock: Clock, i: nat)
    ensures i in RoutablePositions(found, n, t, c, clock) <==> i < n && RoutableAt(found, t, c, clock, i)
  {
    if n > 0 { PositionsAreRoutable(found, n - 1, t, c, clock, i); }
  }

  predicate Increasing(at: seq<nat>) { forall m, n :: 0 <= m < n < |at| ==> at[m] < at[n] }

  lemma {:induction false} PositionsIncrease(found: seq<Route>, n: nat, t: Table, c: Config, clock: Clock)
    ensures Increasing(RoutablePositions(found, n, t, c, clock))
  {
    if n > 0 {
      var before := RoutablePositions(found, n - 1, t, c, clock);
      PositionsIncrease(found, n - 1, t, c, clock);
      forall m | 0 <= m < |before| ensures before[m] < n - 1 {
        assert before[m] in before;
        PositionsAreRoutable(found, n - 1, t, c, clock, before[m]);
      }
    }
  }

  lemma {:induction false} PeekedAt(found: seq<Route>, n: nat, t: Table, c: Config, clock: Clock)
    requires n <= |found|
    ensures Peeked(found[..n], t, c, clock) == RoutesAt(found, RoutablePositions(found, n, t, c, clock))
  {
    if n > 0 {
      var before := RoutablePositions(found, n - 1, t, c, clock);
      PeekedAt(found, n - 1, t, c, clock);
      assert found[..n][..n - 1] == found[..n - 1] && found[..n][n - 1] == found[n - 1];
      if RoutableAt(found, t, c, clock, n - 1) {
        RoutesAtConcat(found, before, [n - 1]);
        assert [n - 1][1..] == [] && RoutesAt(found, [n - 1]) == [found[n - 1]] + RoutesAt(found, []);
      } else {
        assert before + [] == before;
      }
    }
  }

  /** The positions on that node, or those on others. */
  function PositionsOn(found: seq<Route>, at: seq<nat>, node: nat, same: bool): seq<nat> {
    if |at| == 0 then []
    else (if at[0] < |found| && (found[at[0]].node == node) == same then [at[0]] else []) + PositionsOn(found, at[1..], node, same)
  }

  lemma {:induction false} PositionsOnIn(found: seq<Route>, at: seq<nat>, node: nat, same: bool, i: nat)
    ensures i in PositionsOn(found, at, node, same) <==> i in at && i < |found| && (found[i].node == node) == same
  {
    if |at| > 0 {
      assert at == [at[0]] + at[1..];
      PositionsOnIn(found, at[1..], node, same, i);
    }
  }

  lemma {:induction false} PositionsOnIncrease(found: seq<Route>, at: seq<nat>, node: nat, same: bool)
    requires Increasing(at)
    ensures Increasing(PositionsOn(found, at, node, same))
  {
    if |at| > 0 {
      var rest := PositionsOn(found, at[1..], node, same);
      assert at == [at[0]] + at[1..];
      PositionsOnIncrease(found, at[1..], node, same);
      forall m | 0 <= m < |rest| ensures at[0] < rest[m] {
        assert rest[m] in rest;
        PositionsOnIn(found, at[1..], node, same, rest[m]);
        var n :| 0 <= n < |at[1..]| && at[1..][n] == rest[m];
        assert at[n + 1] == rest[m];
      }
    }
  }

  lemma {:induction false} OnNodeAt(found: seq<Route>, at: seq<nat>, node: nat, same: bool)
    ensures OnNode(RoutesAt(found, at), node, same) == RoutesAt(found, PositionsOn(found, at, node, same))
  {
    if |at| > 0 {
      var i, rest := at[0], RoutesAt(found, at[1..]);
      OnNodeAt(found, at[1..], node, same);
      if i < |found| {
        assert RoutesAt(found, at) == [found[i]] + rest && ([found[i]] + rest)[1..] == rest;
        ConsRoute(found, i, PositionsOn(found, at[1..], node, same));
      } else {
        assert RoutesAt(found, at) == rest;
        assert PositionsOn(found, at, node, same) == PositionsOn(found, at[1..], node, same);
      }
    }
  }

  lemma ConsRoute(found: seq<Route>, i: nat, at: seq<nat>)
    requires i < |found|
    ensures RoutesAt(found, [i] + at) == [found[i]] + RoutesAt(found, at) && [] + at == at
  {
    assert ([i] + at)[1..] == at;
  }

  /** The positions in the order of trying. */
  function PreferredPositions(found: seq<Route>, at: seq<nat>, node: Option<nat>): seq<nat> {
    if node.None? then at else PositionsOn(found, at, node.value, true) + PositionsOn(found, at, node.value, false)
  }

  lemma PreferredAt(found: seq<Route>, at: seq<nat>, node: Option<nat>)
    ensures Preferred(RoutesAt(found, at), node) == RoutesAt(found, PreferredPositions(found, at, node))
  {
    if node.Some? {
      OnNodeAt(found, at, node.value, true);
      OnNodeAt(found, at, node.value, false);
      RoutesAtConcat(found, PositionsOn(found, at, node.value, true), PositionsOn(found, at, node.value, false));
    }
  }

  lemma PreferredPositionsIn(found: seq<Route>, at: seq<nat>, node: Option<nat>, i: nat)
    requires forall j :: j in at ==> j < |found|
    ensures i in PreferredPositions(found, at, node) <==> i in at
  {
    if node.Some? {
      PositionsOnIn(found, at, node.value, true, i);
      PositionsOnIn(found, at, node.value, false, i);
    }
  }

  lemma PreferredInOrder(found: seq<Route>, at: seq<nat>, node: Option<nat>)
    requires Increasing(at) && forall j :: j in at ==> j < |found|
    ensures InOrder(PreferredPositions(found, at, node), found, node)
  {
    if node.Some? {
      var a, b := PositionsOn(found, at, node.value, true), PositionsOn(found, at, node.value, false);
      PositionsOnIncrease(found, at, node.value, true);
      PositionsOnIncrease(found, at, node.value, false);
      forall m | 0 <= m < |a| ensures Wanted(found, node, a[m]) {
        assert a[m] in a;
        PositionsOnIn(found, at, node.value, true, a[m]);
      }
      forall m | 0 <= m < |b| ensures !Wanted(found, node, b[m]) {
        assert b[m] in b;
        PositionsOnIn(found, at, node.value, false, b[m]);
      }
    }
  }

  lemma TakeRoutes(found: seq<Route>, at: seq<nat>, max: nat)
    requires forall i :: i in at ==> i < |found|
    ensures Take(RoutesAt(found, at), max) == RoutesAt(found, Take(at, max))
  {
    if |at| > 0 { RoutesAtIndex(found, at, 0); }
    if max < |at| {
      assert at == at[..max] + at[max..];
      RoutesAtConcat(found, at[..max], at[max..]);
      if max > 0 {
        assert forall i :: i in at[..max] ==> i in at;
        RoutesAtIndex(found, at[..max], 0);
      }
    }
  }

  lemma FirstOnes(found: seq<Route>, all: seq<nat>, node: Option<nat>, max: nat, i: nat)
    requires InOrder(all, found, node) && i in all && i !in Take(all, max)
    ensures |Take(all, max)| == max && AllBefore(Take(all, max), found, node, i)
  {
    var n :| 0 <= n < |all| && all[n] == i;
    assert forall m :: 0 <= m < |Take(all, max)| ==> Take(all, max)[m] == all[m] && all[m] in Take(all, max);
  }

  /** The positions of the tried bindings. */
  function TriedPositions(found: seq<Route>, t: Table, c: Config, clock: Clock, node: Option<nat>, max: nat): seq<nat> {
    Take(PreferredPositions(found, RoutablePositions(found, |found|, t, c, clock), node), max)
  }

  lemma AllPositions(found: seq<Route>, t: Table, c: Config, clock: Clock, node: Option<nat>, i: nat)
    ensures var all := PreferredPositions(found, RoutablePositions(found, |found|, t, c, clock), node);
            && (i in all <==> RoutableAt(found, t, c, clock, i)) && InOrder(all, found, node)
  {
    var routable := RoutablePositions(found, |found|, t, c, clock);
    forall j | j in routable ensures j < |found| { PositionsAreRoutable(found, |found|, t, c, clock, j); }
    PositionsAreRoutable(found, |found|, t, c, clock, i);
    PositionsIncrease(found, |found|, t, c, clock);
    PreferredPositionsIn(found, routable, node, i);
    PreferredInOrder(found, routable, node);
  }

  lemma TriedAreFirst(found: seq<Route>, t: Table, c: Config, clock: Clock, node: Option<nat>, max: nat)
    ensures FirstPositions(TriedPositions(found, t, c, clock, node, max), found, t, c, clock, node, max)
  {
    var all := PreferredPositions(found, RoutablePositions(found, |found|, t, c, clock), node);
    var at := Take(all, max);
    AllPositions(found, t, c, clock, node, 0);
    forall i | i in at ensures RoutableAt(found, t, c, clock, i) {
      assert i in all;
      AllPositions(found, t, c, clock, node, i);
    }
    forall i: nat | RoutableAt(found, t, c, clock, i) && i !in at ensures |at| == max && AllBefore(at, found, node, i) {
      AllPositions(found, t, c, clock, node, i);
      FirstOnes(found, all, node, max, i);
    }
  }

  /** A request tries, of the positions that peek routable, exactly the first ones in the order of trying, as many as the
      bound allows. */
  lemma TriedArePositions(found: seq<Route>, t: Table, c: Config, clock: Clock, node: Option<nat>, max: nat)
    ensures exists at :: FirstPositions(at, found, t, c, clock, node, max) && Tried(found, t, c, clock, node, max) == RoutesAt(found, at)
  {
    var routable := RoutablePositions(found, |found|, t, c, clock);
    var all := PreferredPositions(found, routable, node);
    PeekedAt(found, |found|, t, c, clock);
    assert found[..|found|] == found;
    PreferredAt(found, routable, node);
    forall i | i in all ensures i < |found| { AllPositions(found, t, c, clock, node, i); }
    TakeRoutes(found, all, max);
    TriedAreFirst(found, t, c, clock, node, max);
  }

  /** The positions that peek routable. */
  function RoutableSet(found: seq<Route>, t: Table, c: Config, clock: Clock): set<nat> {
    set i: nat | i < |found| && RoutableAt(found, t, c, clock, i)
  }

  lemma PositionsCount(at: seq<nat>, found: seq<Route>, t: Table, c: Config, clock: Clock, node: Option<nat>, max: nat)
    requires FirstPositions(at, found, t, c, clock, node, max)
    ensures var n := |RoutableSet(found, t, c, clock)|; |at| == if n < max then n else max
  {
    var all, mine := RoutableSet(found, t, c, clock), set i | i in at;
    forall m, n | 0 <= m < n < |at| ensures at[m] != at[n] { assert TriedBefore(found, node, at[m], at[n]); }
    DistinctCount(at);
    assert mine <= all;
    SubsetSize(mine, all);
    if i :| i in all && i !in mine {
      assert RoutableAt(found, t, c, clock, i) && i !in at;
    } else {
      assert mine == all;
    }
  }

  /** So it tries as many bindings as peek routable, up to the bound. */
  lemma TriedCount(found: seq<Route>, t: Table, c: Config, clock: Clock, node: Option<nat>, max: nat)
    ensures var n := |RoutableSet(found, t, c, clock)|;
            |Tried(found, t, c, clock, node, max)| == if n < max then n else max
  {
    TriedArePositions(found, t, c, clock, node, max);
    var at :| FirstPositions(at, found, t, c, clock, node, max) && Tried(found, t, c, clock, node, max) == RoutesAt(found, at);
    PositionsCount(at, found, t, c, clock, node, max);
    if |at| > 0 { RoutesAtIndex(found, at, 0); }
  }

  // ----- what was peeked routable is called -----

  predicate DistinctKeys(routes: seq<Route>) {
    forall i, j :: 0 <= i < j < |routes| ==> routes[i].key != routes[j].key
  }

  lemma DistinctSnoc(routes: seq<Route>, r: Route)
    ensures DistinctKeys(routes + [r]) <==> DistinctKeys(routes) && forall x :: x in routes ==> x.key != r.key
  {
    var all := routes + [r];
    if DistinctKeys(all) {
      assert forall i :: 0 <= i < |routes| ==> all[i] == routes[i];
      forall x | x in routes ensures x.key != r.key {
        var i :| 0 <= i < |routes| && routes[i] == x;
        assert all[i].key != all[|routes|].key;
      }
    }
  }

  lemma {:induction false} PeekedDistinct(routes: seq<Route>, t: Table, c: Config, clock: Clock)
    requires DistinctKeys(routes)
    ensures DistinctKeys(Peeked(routes, t, c, clock))
  {
    if |routes| > 0 {
      var n := |routes| - 1;
      var front, r := routes[..n], routes[n];
      assert routes == front + [r];
      DistinctSnoc(front, r);
      PeekedDistinct(front, t, c, clock);
      DistinctSnoc(Peeked(front, t, c, clock), r);
      forall x | x in Peeked(front, t, c, clock) ensures x in front { PeekedIn(front, t, c, clock, x); }
    }
  }

  lemma {:induction false} OnNodeDistinct(routes: seq<Route>, node: nat, same: bool)
    requires DistinctKeys(routes)
    ensures DistinctKeys(OnNode(routes, node, same))
  {
    if |routes| > 0 {
      assert routes == [routes[0]] + routes[1..];
      OnNodeDistinct(routes[1..], node, same);
      OnNodeIn(routes[1..], node, same);
      var rest := OnNode(routes[1..], node, same);
      forall x | x in rest ensures x.key != routes[0].key {
        var i :| 0 <= i < |routes[1..]| && routes[1..][i] == x;
        assert routes[i + 1] == x;
      }
    }
  }

  lemma PreferredDistinct(routes: seq<Route>, node: Option<nat>)
    requires DistinctKeys(routes)
    ensures DistinctKeys(Preferred(routes, node))
  {
    if node.Some? {
      var a, b := OnNode(routes, node.value, true), OnNode(routes, node.value, false);
      OnNodeDistinct(routes, node.value, true);
      OnNodeDistinct(routes, node.value, false);
      OnNodeIn(routes, node.value, true);
      OnNodeIn(routes, node.value, false);
      forall i, j | 0 <= i < |a| && 0 <= j < |b| ensures a[i].key != b[j].key {
        assert a[i] in a && b[j] in b;
        var m :| 0 <= m < |routes| && routes[m] == a[i];
        var n :| 0 <= n < |routes| && routes[n] == b[j];
      }
    }
  }

  lemma TriedDistinct(found: seq<Route>, t: Table, c: Config, clock: Clock, node: Option<nat>, max: nat)
    requires DistinctKeys(found)
    ensures DistinctKeys(Tried(found, t, c, clock, node, max))
  {
    PeekedDistinct(found, t, c, clock);
    PreferredDistinct(Peeked(found, t, c, clock), node);
  }

  /** From position `i` on every binding of the list is routable from time `at` on. */
  ghost predicate RoutableFrom(t: Table, c: Config, keys: seq<Key>, i: nat, at: Time) {
    forall j :: i <= j < |keys| ==> Answer(t, c, keys[j], at)
  }

  /** A turn is skipped exactly when its binding is not routable at its reading of the clock. */
  ghost predicate LooksFirst(f: TurnFor, c: Config, clock: Clock) {
    forall k: Key, i: nat, t :: f(k, i, t).ok <==> Answer(f(k, i, t).seen, c, k, clock(2 * i))
  }

  lemma OthersStayRoutable(turn: Turn, c: Config, keys: seq<Key>, i: nat, t: Table, at: Time)
    requires i < |keys| && Clean(turn, c, keys[i], t) && RoutableFrom(t, c, keys, i, at)
    requires forall j :: i < j < |keys| ==> keys[j] != keys[i]
    ensures RoutableFrom(turn.left, c, keys, i + 1, at)
  {
    forall j | i + 1 <= j < |keys| ensures Answer(turn.left, c, keys[j], at) {
      assert keys[j] != keys[i] && Answer(t, c, keys[j], at);
    }
  }

  /** No turn on these keys is skipped, and each leaves the rest of them routable. */
  ghost predicate Steady(f: TurnFor, c: Config, keys: seq<Key>, at: Time) {
    forall i: nat, t :: i < |keys| && Sound(t, c) && RoutableFrom(t, c, keys, i, at) ==> SteadyTurn(f(keys[i], i, t), c, keys, i, at)
  }

  ghost predicate SteadyTurn(turn: Turn, c: Config, keys: seq<Key>, i: nat, at: Time) {
    turn.ok && Sound(turn.left, c) && RoutableFrom(turn.left, c, keys, i + 1, at)
  }

  lemma UndisturbedIsSteady(f: TurnFor, c: Config, clock: Clock, keys: seq<Key>, at: Time)
    requires Undisturbed(f, c) && LooksFirst(f, c, clock) && forall j :: 0 <= j < |keys| ==> at <= clock(2 * j)
    requires forall m, n :: 0 <= m < n < |keys| ==> keys[m] != keys[n]
    ensures Steady(f, c, keys, at)
  {
    forall i: nat, t | i < |keys| && Sound(t, c) && RoutableFrom(t, c, keys, i, at)
      ensures SteadyTurn(f(keys[i], i, t), c, keys, i, at)
    {
      var turn := f(keys[i], i, t);
      assert Clean(turn, c, keys[i], t) && Answer(t, c, keys[i], at);
      OthersStayRoutable(turn, c, keys, i, t, at);
    }
  }

  lemma {:induction false} LoopSkipsNone(f: TurnFor, c: Config, keys: seq<Key>, i: nat, attempts: nat, turns: seq<Turn>, t: Table,
                                         at: Time)
    requires Steady(f, c, keys, at) && Sound(t, c) && i <= |keys| && RoutableFrom(t, c, keys, i, at)
    requires forall x :: x in turns ==> x.ok
    ensures forall x :: x in Loop(f, keys, i, attempts, turns, t).turns ==> x.ok
    decreases |keys| - i
  {
    if i < |keys| {
      var turn := f(keys[i], i, t);
      assert SteadyTurn(turn, c, keys, i, at);
      if !Ends(turn) {
        LoopSkipsNone(f, c, keys, i + 1, attempts + (if turn.ok then 1 else 0), turns + [turn], turn.left, at);
      }
    }
  }

  lemma {:induction false} AllAttempted(turns: seq<Turn>)
    requires forall x :: x in turns ==> x.ok
    ensures Attempts(turns) == |turns|
  {
    if |turns| > 0 { AllAttempted(turns[..|turns| - 1]); }
  }

  /** A request that nothing disturbs calls every binding it peeked routable and kept, until one answers for good: what a
      peek said still holds when the turn comes, although earlier turns open circuits and evict bindings. */
  lemma PeekedAreCalled(e: Env, found: seq<Route>, t: Table, clock: Clock, node: Option<nat>, max: nat, at: Time)
    requires ValidConfig(e.config) && Sound(t, e.config) && Alone(e) && DistinctKeys(found)
    requires (forall i :: 0 <= i < |found| ==> clock(i) <= at) && forall i :: at <= e.clock(i)
    ensures var tried := Tried(found, t, e.config, clock, node, max);
            var s := Serve(e, KeysOf(tried), t);
            var n := |RoutableSet(found, t, e.config, clock)|;
            && Attempts(s.turns) == |s.turns|
            && (s.outcome.Punted? ==> s.outcome.attempts == |tried| == if n < max then n else max)
  {
    var tried := Tried(found, t, e.config, clock, node, max);
    var keys := KeysOf(tried);
    TriedDistinct(found, t, e.config, clock, node, max);
    forall j | 0 <= j < |keys| ensures Answer(t, e.config, keys[j], at) {
      assert tried[j] in tried;
      TriedBounded(found, t, e.config, clock, node, max, tried[j]);
    }
    TriedCount(found, t, e.config, clock, node, max);
    AloneUndisturbed(e);
    assert LooksFirst(Turns(e), e.config, e.clock);
    UndisturbedIsSteady(Turns(e), e.config, e.clock, keys, at);
    LoopSkipsNone(Turns(e), e.config, keys, 0, 0, [], t, at);
    AllAttempted(Serve(e, keys, t).turns);
    ServeAccounts(e, keys, t);
  }

  // ----- falling back -----

  /** The next binding is tried after this reply. */
  predicate GoesOn(r: Reply) {
    r.Unreachable? || r == Status(502) || r == Status(503) || r == Status(504)
  }

  lemma {:induction false} LoopReplies(f: TurnFor, e: Env, keys: seq<Key>, i: nat, attempts: nat, turns: seq<Turn>, t: Table)
    requires f == Turns(e) && i <= |keys| && |turns| == i && forall j :: 0 <= j < i ==> turns[j].reply == e.reply(j)
    ensures var s := Loop(f, keys, i, attempts, turns, t);
            forall j :: 0 <= j < |s.turns| ==> s.turns[j].reply == e.reply(j)
    decreases |keys| - i
  {
    if i < |keys| {
      var turn := f(keys[i], i, t);
      assert turn.reply == e.reply(i);
      if !Ends(turn) { LoopReplies(f, e, keys, i + 1, attempts + (if turn.ok then 1 else 0), turns + [turn], turn.left); }
    }
  }

  /** A request that nothing disturbs is answered by the first of its bindings, the routable ones up to the bound, whose call
      does not fail in transport or with 502, 503 or 504, and is a punt exactly if all of them do. */
  lemma FallsBack(e: Env, found: seq<Route>, t: Table, clock: Clock, node: Option<nat>, max: nat, at: Time)
    requires ValidConfig(e.config) && Sound(t, e.config) && Alone(e) && DistinctKeys(found)
    requires (forall i :: 0 <= i < |found| ==> clock(i) <= at) && forall i :: at <= e.clock(i)
    ensures var s := Serve(e, KeysOf(Tried(found, t, e.config, clock, node, max)), t);
            var n := |RoutableSet(found, t, e.config, clock)|;
            var tries := if n < max then n else max;
            && (s.outcome.Punted? <==> forall j: nat :: j < tries ==> GoesOn(e.reply(j)))
            && (!s.outcome.Punted? ==>
                  var j := s.outcome.position;
                  && j < tries && (forall m: nat :: m < j ==> GoesOn(e.reply(m))) && !GoesOn(e.reply(j))
                  && s.outcome == if e.reply(j).Raised? then Escaped(j) else Forwarded(j, e.reply(j).code))
  {
    var keys := KeysOf(Tried(found, t, e.config, clock, node, max));
    var s := Serve(e, keys, t);
    PeekedAreCalled(e, found, t, clock, node, max, at);
    TriedCount(found, t, e.config, clock, node, max);
    ServeAccounts(e, keys, t);
    LoopReplies(Turns(e), e, keys, 0, 0, [], t);
    CalledMeansOk(s.turns);
    EndingTurn(s, AccountedBy(e.config), keys, e);
  }

  lemma {:induction false} CalledMeansOk(turns: seq<Turn>)
    requires Attempts(turns) == |turns|
    ensures forall x :: x in turns ==> x.ok
  {
    if |turns| > 0 {
      var front := turns[..|turns| - 1];
      FewAttempts(front);
      CalledMeansOk(front);
      assert turns == front + [turns[|turns| - 1]];
    }
  }

  lemma EndingTurn(s: Served, good: Check, keys: seq<Key>, e: Env)
    requires Accounting(s, good, keys) && forall x :: x in s.turns ==> x.ok
    requires forall j :: 0 <= j < |s.turns| ==> s.turns[j].reply == e.reply(j)
    ensures s.outcome.Punted? <==> forall j: nat :: j < |keys| ==> GoesOn(e.reply(j))
    ensures !s.outcome.Punted? ==>
              var j := s.outcome.position;
              && j < |keys| && (forall m: nat :: m < j ==> GoesOn(e.reply(m))) && !GoesOn(e.reply(j))
              && s.outcome == if e.reply(j).Raised? then Escaped(j) else Forwarded(j, e.reply(j).code)
  {
    forall j | 0 <= j < |s.turns| ensures Ends(s.turns[j]) <==> !GoesOn(e.reply(j)) { assert s.turns[j] in s.turns; }
    if !s.outcome.Punted? { assert Ends(s.turns[s.outcome.position]); }
  }
}
