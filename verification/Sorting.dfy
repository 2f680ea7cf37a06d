/** Stable insertion sort over any order, the fact that a sorted list is determined by its elements, and least elements. */
module Sorting {
  import opened Wrappers

  type Order<!T> = (T, T) -> bool

  /** Total and transitive. */
  ghost predicate Preorder<T(!new)>(le: Order<T>) {
    && (forall a, b :: le(a, b) || le(b, a))
    && (forall a, b, c :: le(a, b) && le(b, c) ==> le(a, c))
  }

  function Insert<T>(le: Order<T>, x: T, s: seq<T>): seq<T> {
    if |s| == 0 || le(x, s[0]) then [x] + s else [s[0]] + Insert(le, x, s[1..])
  }

  function Sort<T>(le: Order<T>, s: seq<T>): seq<T> {
    if |s| == 0 then [] else Insert(le, s[0], Sort(le, s[1..]))
  }

  /** Ascending, by the head of every suffix. */
  ghost predicate Sorted<T(!new)>(le: Order<T>, s: seq<T>) {
    |s| == 0 || (Below(le, s[0], multiset(s[1..])) && Sorted(le, s[1..]))
  }

  ghost predicate Below<T(!new)>(le: Order<T>, x: T, m: multiset<T>) {
    forall y :: y in m ==> le(x, y)
  }

  lemma {:induction false} SortedMeans<T(!new)>(le: Order<T>, s: seq<T>)
    requires Sorted(le, s)
    ensures forall i, j :: 0 <= i < j < |s| ==> le(s[i], s[j])
  {
    if |s| > 0 {
      var t := s[1..];
      SortedMeans(le, t);
      forall i, j | 0 <= i < j < |s| ensures le(s[i], s[j]) {
        if i == 0 { assert t[j - 1] in multiset(t); } else { assert s[i] == t[i - 1] && s[j] == t[j - 1]; }
      }
    }
  }

  lemma {:induction false} InsertFacts<T(!new)>(le: Order<T>, x: T, s: seq<T>)
    requires Preorder(le) && Sorted(le, s)
    ensures Sorted(le, Insert(le, x, s)) && multiset(Insert(le, x, s)) == multiset(s) + multiset{x}
  {
    if |s| == 0 {
    } else {
      var head, tail := s[0], s[1..];
      assert s == [head] + tail;
      if le(x, head) {
        assert ([x] + s)[1..] == s;
        forall y | y in multiset(s) ensures le(x, y) { assert y == head || y in multiset(tail); }
      } else {
        InsertFacts(le, x, tail);
        assert ([head] + Insert(le, x, tail))[1..] == Insert(le, x, tail);
        assert le(head, x);
      }
    }
  }

  lemma {:induction false} SortFacts<T(!new)>(le: Order<T>, s: seq<T>)
    requires Preorder(le)
    ensures Sorted(le, Sort(le, s)) && multiset(Sort(le, s)) == multiset(s) && |Sort(le, s)| == |s|
  {
    if |s| > 0 {
      assert s == [s[0]] + s[1..];
      SortFacts(le, s[1..]);
      InsertFacts(le, s[0], Sort(le, s[1..]));
      assert |multiset(Sort(le, s))| == |Sort(le, s)| && |multiset(s)| == |s|;
    }
  }

  ghost predicate Tight<T(!new)>(le: Order<T>, m: multiset<T>) {
    forall a, b :: a in m && b in m && le(a, b) && le(b, a) ==> a == b
  }

  lemma TailElements<T>(s: seq<T>)
    requires |s| > 0
    ensures multiset(s[1..]) == multiset(s) - multiset{s[0]}
  {
    assert s == [s[0]] + s[1..];
  }

  lemma LeastFirst<T(!new)>(le: Order<T>, s: seq<T>, x: T)
    requires |s| > 0 && Sorted(le, s) && x in multiset(s)
    ensures x == s[0] || le(s[0], x)
  {
    assert s == [s[0]] + s[1..];
  }

  lemma HeadsEqual<T(!new)>(le: Order<T>, a: seq<T>, b: seq<T>)
    requires |a| > 0 && |b| > 0 && Sorted(le, a) && Sorted(le, b)
    requires multiset(a) == multiset(b) && Tight(le, multiset(a))
    ensures a[0] == b[0]
  {
    assert a[0] in multiset(a) && b[0] in multiset(b);
    LeastFirst(le, a, b[0]);
    LeastFirst(le, b, a[0]);
  }

  /** Where equivalent elements are equal, a sorted list is determined by its elements. */
  lemma {:induction false} SortedUnique<T(!new)>(le: Order<T>, a: seq<T>, b: seq<T>)
    requires Sorted(le, a) && Sorted(le, b) && multiset(a) == multiset(b) && Tight(le, multiset(a))
    ensures a == b
  {
    assert |multiset(a)| == |a| && |multiset(b)| == |b|;
    if |a| > 0 {
      HeadsEqual(le, a, b);
      TailElements(a);
      TailElements(b);
      SortedUnique(le, a[1..], b[1..]);
      assert a == [a[0]] + a[1..] && b == [b[0]] + b[1..];
    }
  }

  /** Sorting gives the same list for exactly the permutations of a list. */
  lemma SortIffSameElements<T(!new)>(le: Order<T>, a: seq<T>, b: seq<T>)
    requires Preorder(le) && Tight(le, multiset(a))
    ensures Sort(le, a) == Sort(le, b) <==> multiset(a) == multiset(b)
  {
    SortFacts(le, a);
    SortFacts(le, b);
    if multiset(a) == multiset(b) { SortedUnique(le, Sort(le, a), Sort(le, b)); }
  }

  // ----- least elements of sets -----

  /** On `s` the order decides every two elements, one way, and is transitive. */
  ghost predicate Decides<T(!new)>(le: Order<T>, s: set<T>) {
    && (forall a, b :: a in s && b in s ==> a == b || le(a, b) || le(b, a))
    && (forall a, b, c :: a in s && b in s && c in s && le(a, b) && le(b, c) ==> le(a, c))
  }

  lemma {:induction false} LeastExists<T(!new)>(le: Order<T>, s: set<T>) returns (m: T)
    requires |s| > 0 && Decides(le, s)
    ensures m in s && forall x :: x in s ==> x == m || le(m, x)
    decreases |s|
  {
    var x := Inhabited(s);
    var rest := s - {x};
    if |rest| == 0 {
      assert s == {x};
      m := x;
    } else {
      var least := LeastExists(le, rest);
      m := if le(x, least) then x else least;
      forall y | y in s ensures y == m || le(m, y) { assert y == x || y in rest; }
    }
  }

  /** The elements that tie with `x`, in their order. */
  function Ties<T>(le: Order<T>, x: T, s: seq<T>): seq<T> {
    if |s| == 0 then [] else (if le(x, s[0]) && le(s[0], x) then [s[0]] else []) + Ties(le, x, s[1..])
  }

  lemma TiesCons<T>(le: Order<T>, x: T, y: T, s: seq<T>)
    ensures Ties(le, x, [y] + s) == (if le(x, y) && le(y, x) then [y] else []) + Ties(le, x, s)
  {
    assert ([y] + s)[1..] == s;
  }

  lemma {:induction false} InsertStable<T(!new)>(le: Order<T>, x: T, y: T, s: seq<T>)
    requires Preorder(le)
    ensures Ties(le, x, Insert(le, y, s)) == (if le(x, y) && le(y, x) then [y] else []) + Ties(le, x, s)
  {
    if |s| == 0 || le(y, s[0]) {
      TiesCons(le, x, y, s);
    } else {
      var z := s[0];
      InsertStable(le, x, y, s[1..]);
      TiesCons(le, x, z, Insert(le, y, s[1..]));
      assert le(y, z) || !le(y, x) || !le(x, z);
    }
  }

  /** The sort is stable: elements that tie stay in their order. */
  lemma {:induction false} SortStable<T(!new)>(le: Order<T>, x: T, s: seq<T>)
    requires Preorder(le)
    ensures Ties(le, x, Sort(le, s)) == Ties(le, x, s)
  {
    if |s| > 0 {
      SortStable(le, x, s[1..]);
      InsertStable(le, x, s[0], Sort(le, s[1..]));
    }
  }

  lemma {:induction false} DistinctCount<T>(s: seq<T>)
    requires forall i, j :: 0 <= i < j < |s| ==> s[i] != s[j]
    ensures |set x | x in s| == |s|
  {
    if |s| > 0 {
      DistinctCount(s[1..]);
      assert (set x | x in s) == {s[0]} + (set x | x in s[1..]);
    }
  }
}
