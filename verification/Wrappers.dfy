/** Optional values, list prefixes and two facts about finite sets, shared by every module. */
module Wrappers {

  datatype Option<+T> = None | Some(value: T)

  /** `s[:n]`. */
  function Take<T>(s: seq<T>, n: nat): seq<T> {
    if |s| <= n then s else s[..n]
  }

  lemma Inhabited<T>(s: set<T>) returns (x: T)
    requires |s| > 0
    ensures x in s
  {
    x :| x in s;
  }

  lemma {:induction false} SubsetSize<T>(a: set<T>, b: set<T>)
    requires a <= b
    ensures |a| <= |b| && (a != b ==> |a| < |b|)
  {
    if |a| > 0 {
      var x := Inhabited(a);
      SubsetSize(a - {x}, b - {x});
    }
  }
}
