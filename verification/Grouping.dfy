/** Lists that are built by appending, and what of them survives a change of order. */
module Grouping {

  /** `d.setdefault(k, []).append(v)` over a list of pairs. */
  function Group<K(==), V>(pairs: seq<(K, V)>): (m: map<K, seq<V>>)
    ensures forall k :: k in m ==> |m[k]| > 0
  {
    if |pairs| == 0 then map[]
    else Append(Group(pairs[..|pairs| - 1]), pairs[|pairs| - 1].0, pairs[|pairs| - 1].1)
  }

  function Append<K(==), V>(m: map<K, seq<V>>, k: K, v: V): map<K, seq<V>> {
    m[k := (if k in m then m[k] else []) + [v]]
  }

  function Flat<A, B>(f: A -> seq<B>, s: seq<A>): seq<B> {
    if |s| == 0 then [] else Flat(f, s[..|s| - 1]) + f(s[|s| - 1])
  }

  lemma GroupSnoc<K, V>(pairs: seq<(K, V)>, k: K, v: V)
    ensures Group(pairs + [(k, v)]) == Append(Group(pairs), k, v)
  {
    assert (pairs + [(k, v)])[..|pairs|] == pairs;
  }

  lemma {:induction false} FlatConcat<A, B>(f: A -> seq<B>, s: seq<A>, t: seq<A>)
    ensures Flat(f, s + t) == Flat(f, s) + Flat(f, t)
    decreases |t|
  {
    if |t| == 0 {
      assert s + t == s;
    } else {
      var t' := t[..|t| - 1];
      assert (s + t)[..|s + t| - 1] == s + t';
      FlatConcat(f, s, t');
    }
  }

  lemma Split<A>(s: seq<A>, x: A) returns (l: seq<A>, r: seq<A>)
    requires x in multiset(s)
    ensures s == l + [x] + r
  {
    var i :| 0 <= i < |s| && s[i] == x;
    l, r := s[..i], s[i + 1..];
  }

  lemma Cancel<A>(s: seq<A>, l: seq<A>, x: A, r: seq<A>)
    requires multiset(s + [x]) == multiset(l + [x] + r)
    ensures multiset(s) == multiset(l + r)
  {
    var m, n := multiset(s), multiset(l) + multiset(r);
    assert m + multiset{x} == n + multiset{x};
    assert m == (m + multiset{x}) - multiset{x} && n == (n + multiset{x}) - multiset{x};
  }

  lemma CancelHead<A>(x: A, s: seq<A>, t: seq<A>)
    requires multiset([x] + s) == multiset([x] + t)
    ensures multiset(s) == multiset(t)
  {
    var m, n := multiset(s), multiset(t);
    assert multiset{x} + m == multiset{x} + n;
    assert m == (multiset{x} + m) - multiset{x} && n == (multiset{x} + n) - multiset{x};
  }

  lemma FlatSnoc<A, B>(f: A -> seq<B>, s: seq<A>, x: A)
    ensures Flat(f, s + [x]) == Flat(f, s) + f(x)
  {
    assert (s + [x])[..|s|] == s;
  }

  lemma FlatMiddle<A, B>(f: A -> seq<B>, l: seq<A>, x: A, r: seq<A>)
    ensures multiset(Flat(f, l + [x] + r)) == multiset(Flat(f, l + r)) + multiset(f(x))
  {
    FlatConcat(f, l, r);
    FlatConcat(f, l + [x], r);
    FlatSnoc(f, l, x);
  }

  /** The elements of a concatenation do not depend on the order of its parts. */
  lemma {:induction false} FlatOrder<A, B>(f: A -> seq<B>, s: seq<A>, t: seq<A>)
    requires multiset(s) == multiset(t)
    ensures multiset(Flat(f, s)) == multiset(Flat(f, t))
    decreases |s|
  {
    if |s| == 0 {
      assert |multiset(t)| == |t|;
    } else {
      var s', x := s[..|s| - 1], s[|s| - 1];
      assert s == s' + [x];
      var l, r := Split(t, x);
      Cancel(s', l, x, r);
      FlatOrder(f, s', l + r);
      FlatMiddle(f, l, x, r);
    }
  }

  ghost predicate SameGroups<K, V>(a: map<K, seq<V>>, b: map<K, seq<V>>) {
    a.Keys == b.Keys && forall k :: k in a ==> multiset(a[k]) == multiset(b[k])
  }

  function Values<K(==), V>(m: map<K, seq<V>>, k: K): seq<V> {
    if k in m then m[k] else []
  }

  lemma {:induction false} GroupCounts<K, V>(pairs: seq<(K, V)>, k: K, v: V)
    ensures multiset(Values(Group(pairs), k))[v] == multiset(pairs)[(k, v)]
  {
    if |pairs| > 0 {
      var rest := pairs[..|pairs| - 1];
      assert pairs == rest + [pairs[|pairs| - 1]];
      GroupCounts(rest, k, v);
    }
  }

  lemma GroupOrderAt<K, V>(p: seq<(K, V)>, q: seq<(K, V)>, k: K)
    requires multiset(p) == multiset(q)
    ensures multiset(Values(Group(p), k)) == multiset(Values(Group(q), k))
    ensures k in Group(p) ==> k in Group(q)
  {
    forall v ensures multiset(Values(Group(p), k))[v] == multiset(Values(Group(q), k))[v] {
      GroupCounts(p, k, v);
      GroupCounts(q, k, v);
    }
    assert multiset(Values(Group(p), k)) == multiset(Values(Group(q), k));
    if k in Group(p) {
      assert |multiset(Values(Group(p), k))| == |Group(p)[k]|;
    }
  }

  /** Grouping the same pairs in another order gives the same groups up to order. */
  lemma GroupOrder<K, V>(p: seq<(K, V)>, q: seq<(K, V)>)
    requires multiset(p) == multiset(q)
    ensures SameGroups(Group(p), Group(q))
  {
    var a, b := Group(p), Group(q);
    forall k | k in a ensures k in b && multiset(a[k]) == multiset(b[k]) { GroupOrderAt(p, q, k); }
    forall k | k in b ensures k in a { GroupOrderAt(q, p, k); }
  }
}
