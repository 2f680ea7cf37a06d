/** The pull-mode snapshot (mesh/router_app.py, mesh/discovery.py): each discovery pass is merged into the last
    snapshot, which keeps what the pass missed for a while.

    A dict of lists is their concatenation in the order of the dict: `Put` appends to the list of a specialist, and
    `OfSid` is that list. Times are in microseconds. */
module SnapshotRefresh {
  import opened Wrappers

  type Sid = string
  type Url = string
  type NodeId = string
  type Time = int
  type NodeOf = Url -> NodeId

  /** One specialist at one URL. */
  datatype Entry = Entry(sid: Sid, url: Url)

  datatype Binding = Binding(entry: Entry, node: NodeId, lastSeen: Time)
  datatype Summary = Summary(node: NodeId, url: Url, lastSeen: Time, loaded: Sid)
  datatype Snapshot = Snapshot(ts: Time, nodes: map<NodeId, Summary>, bindings: seq<Binding>)

  /** What the peers reported at one time. */
  datatype Pass = Pass(now: Time, reported: seq<Entry>)

  // ----- a dict of lists -----

  function SidOf(b: Binding): Sid { b.entry.sid }

  function SidOfEntry(e: Entry): Sid { e.sid }

  predicate HasSid<T(==)>(sidOf: T -> Sid, d: seq<T>, s: Sid) {
    exists y :: y in d && sidOf(y) == s
  }

  /** `d.setdefault(sid, []).append(x)`: after the last element of its specialist, at the end for a new one. */
  function Put<T(==)>(sidOf: T -> Sid, d: seq<T>, x: T): seq<T> {
    if |d| == 0 || !HasSid(sidOf, d, sidOf(x)) || sidOf(d[|d| - 1]) == sidOf(x) then d + [x]
    else Put(sidOf, d[..|d| - 1], x) + [d[|d| - 1]]
  }

  /** The list of one specialist. */
  function OfSid<T>(sidOf: T -> Sid, d: seq<T>, s: Sid): seq<T> {
    if |d| == 0 then []
    else OfSid(sidOf, d[..|d| - 1], s) + if sidOf(d[|d| - 1]) == s then [d[|d| - 1]] else []
  }

  lemma OfSidSnoc<T>(sidOf: T -> Sid, d: seq<T>, x: T, s: Sid)
    ensures OfSid(sidOf, d + [x], s) == OfSid(sidOf, d, s) + if sidOf(x) == s then [x] else []
  {
    assert (d + [x])[..|d|] == d;
  }

  lemma {:induction false} OfSidIn<T>(sidOf: T -> Sid, d: seq<T>, s: Sid)
    ensures forall y :: y in OfSid(sidOf, d, s) <==> y in d && sidOf(y) == s
  {
    if |d| > 0 {
      assert d == d[..|d| - 1] + [d[|d| - 1]];
      OfSidIn(sidOf, d[..|d| - 1], s);
    }
  }

  lemma {:induction false} PutIn<T>(sidOf: T -> Sid, d: seq<T>, x: T)
    ensures forall y :: y in Put(sidOf, d, x) <==> y in d || y == x
  {
    if |d| > 0 && Put(sidOf, d, x) != d + [x] {
      assert d == d[..|d| - 1] + [d[|d| - 1]];
      PutIn(sidOf, d[..|d| - 1], x);
    }
  }

  predicate Once<T(==)>(d: seq<T>) {
    forall i, j :: 0 <= i < j < |d| ==> d[i] != d[j]
  }

  lemma {:induction false} PutOnce<T>(sidOf: T -> Sid, d: seq<T>, x: T)
    requires Once(d) && x !in d
    ensures Once(Put(sidOf, d, x))
  {
    if |d| > 0 && Put(sidOf, d, x) != d + [x] {
      var front, last := d[..|d| - 1], d[|d| - 1];
      PutOnce(sidOf, front, x);
      PutIn(sidOf, front, x);
      assert forall i :: 0 <= i < |front| ==> front[i] == d[i];
      assert last !in Put(sidOf, front, x);
    }
  }

  /** Appending to one list leaves the others alone. */
  lemma {:induction false} PutOfSid<T>(sidOf: T -> Sid, d: seq<T>, x: T, s: Sid)
    ensures OfSid(sidOf, Put(sidOf, d, x), s) == OfSid(sidOf, d, s) + if sidOf(x) == s then [x] else []
  {
    if |d| == 0 || Put(sidOf, d, x) == d + [x] {
      OfSidSnoc(sidOf, d, x, s);
    } else {
      var front, last := d[..|d| - 1], d[|d| - 1];
      PutOfSid(sidOf, front, x, s);
      OfSidSnoc(sidOf, Put(sidOf, front, x), last, s);
    }
  }

  function PutAll<T(==)>(sidOf: T -> Sid, d: seq<T>, xs: seq<T>): seq<T> {
    if |xs| == 0 then d else Put(sidOf, PutAll(sidOf, d, xs[..|xs| - 1]), xs[|xs| - 1])
  }

  lemma PutAllSnoc<T>(sidOf: T -> Sid, d: seq<T>, xs: seq<T>, x: T)
    ensures PutAll(sidOf, d, xs + [x]) == Put(sidOf, PutAll(sidOf, d, xs), x)
  {
    assert (xs + [x])[..|xs|] == xs;
  }

  lemma {:induction false} PutAllFacts<T>(sidOf: T -> Sid, d: seq<T>, xs: seq<T>, s: Sid)
    ensures forall y :: y in PutAll(sidOf, d, xs) <==> y in d || y in xs
    ensures OfSid(sidOf, PutAll(sidOf, d, xs), s) == OfSid(sidOf, d, s) + OfSid(sidOf, xs, s)
  {
    if |xs| > 0 {
      var front, x := xs[..|xs| - 1], xs[|xs| - 1];
      assert xs == front + [x];
      PutAllFacts(sidOf, d, front, s);
      PutIn(sidOf, PutAll(sidOf, d, front), x);
      PutOfSid(sidOf, PutAll(sidOf, d, front), x, s);
    }
  }

  /** The list of each specialist stands in one piece. */
  predicate Grouped<T(==)>(sidOf: T -> Sid, d: seq<T>) {
    |d| > 0 ==>
      var front, last := d[..|d| - 1], d[|d| - 1];
      && Grouped(sidOf, front)
      && (HasSid(sidOf, front, sidOf(last)) ==> sidOf(front[|front| - 1]) == sidOf(last))
  }

  lemma GroupedSnoc<T>(sidOf: T -> Sid, d: seq<T>, x: T)
    requires Grouped(sidOf, d) && (HasSid(sidOf, d, sidOf(x)) ==> sidOf(d[|d| - 1]) == sidOf(x))
    ensures Grouped(sidOf, d + [x])
  {
    assert (d + [x])[..|d|] == d;
  }

  lemma {:induction false} PutGrouped<T>(sidOf: T -> Sid, d: seq<T>, x: T)
    requires Grouped(sidOf, d)
    ensures Grouped(sidOf, Put(sidOf, d, x))
  {
    if |d| == 0 || !HasSid(sidOf, d, sidOf(x)) || sidOf(d[|d| - 1]) == sidOf(x) {
      GroupedSnoc(sidOf, d, x);
    } else {
      var front, last := d[..|d| - 1], d[|d| - 1];
      assert d == front + [last];
      PutGrouped(sidOf, front, x);
      PutIn(sidOf, front, x);
      if HasSid(sidOf, Put(sidOf, front, x), sidOf(last)) { assert HasSid(sidOf, front, sidOf(last)); }
      GroupedSnoc(sidOf, Put(sidOf, front, x), last);
    }
  }

  lemma {:induction false} PutAllGrouped<T>(sidOf: T -> Sid, d: seq<T>, xs: seq<T>)
    requires Grouped(sidOf, d)
    ensures Grouped(sidOf, PutAll(sidOf, d, xs))
  {
    if |xs| > 0 {
      PutAllGrouped(sidOf, d, xs[..|xs| - 1]);
      PutGrouped(sidOf, PutAll(sidOf, d, xs[..|xs| - 1]), xs[|xs| - 1]);
    }
  }

  // ----- one pass -----

  /** `_merge` over all reports: each entry once. */
  function Merged(reported: seq<Entry>): seq<Entry> {
    if |reported| == 0 then []
    else
      var before, e := Merged(reported[..|reported| - 1]), reported[|reported| - 1];
      if e in before then before else Put(SidOfEntry, before, e)
  }

  lemma {:induction false} MergedOnce(reported: seq<Entry>)
    ensures forall e :: e in Merged(reported) <==> e in reported
    ensures Once(Merged(reported))
  {
    if |reported| > 0 {
      var front, e := reported[..|reported| - 1], reported[|reported| - 1];
      assert reported == front + [e];
      MergedOnce(front);
      if e !in Merged(front) {
        PutIn(SidOfEntry, Merged(front), e);
        PutOnce(SidOfEntry, Merged(front), e);
      }
    }
  }

  function AddEntry(s: Snapshot, e: Entry, nodeOf: NodeOf): Snapshot {
    var n := nodeOf(e.url);
    Snapshot(s.ts,
             if n in s.nodes then s.nodes else s.nodes[n := Summary(n, e.url, s.ts, e.sid)],
             Put(SidOf, s.bindings, Binding(e, n, s.ts)))
  }

  /** `discovery_to_snapshot`. */
  function Fresh(entries: seq<Entry>, now: Time, nodeOf: NodeOf): Snapshot {
    if |entries| == 0 then Snapshot(now, map[], [])
    else AddEntry(Fresh(entries[..|entries| - 1], now, nodeOf), entries[|entries| - 1], nodeOf)
  }

  function FreshOf(p: Pass, nodeOf: NodeOf): Snapshot { Fresh(Merged(p.reported), p.now, nodeOf) }

  // ----- the merge -----

  function Entries(bs: seq<Binding>): set<Entry> {
    if |bs| == 0 then {} else Entries(bs[..|bs| - 1]) + {bs[|bs| - 1].entry}
  }

  function NodesOf(bs: seq<Binding>): set<NodeId> {
    if |bs| == 0 then {} else NodesOf(bs[..|bs| - 1]) + {bs[|bs| - 1].node}
  }

  lemma {:induction false} NamedBy(bs: seq<Binding>)
    ensures forall e :: e in Entries(bs) <==> exists b :: b in bs && b.entry == e
    ensures forall n :: n in NodesOf(bs) <==> exists b :: b in bs && b.node == n
  {
    if |bs| > 0 {
      var front, last := bs[..|bs| - 1], bs[|bs| - 1];
      assert bs == front + [last];
      NamedBy(front);
      assert forall b :: b in bs <==> b in front || b == last;
    }
  }

  lemma {:induction false} Named(bs: seq<Binding>)
    ensures forall b :: b in bs ==> b.entry in Entries(bs) && b.node in NodesOf(bs)
  {
    if |bs| > 0 {
      assert bs == bs[..|bs| - 1] + [bs[|bs| - 1]];
      Named(bs[..|bs| - 1]);
    }
  }

  lemma NamedSnoc(bs: seq<Binding>, b: Binding)
    ensures Entries(bs + [b]) == Entries(bs) + {b.entry} && NodesOf(bs + [b]) == NodesOf(bs) + {b.node}
  {
    assert (bs + [b])[..|bs|] == bs;
  }

  lemma {:induction false} NamedPut(bs: seq<Binding>, b: Binding)
    ensures Entries(Put(SidOf, bs, b)) == Entries(bs) + {b.entry} && NodesOf(Put(SidOf, bs, b)) == NodesOf(bs) + {b.node}
  {
    if |bs| == 0 || Put(SidOf, bs, b) == bs + [b] {
      NamedSnoc(bs, b);
    } else {
      var front, last := bs[..|bs| - 1], bs[|bs| - 1];
      NamedPut(front, b);
      NamedSnoc(Put(SidOf, front, b), last);
    }
  }

  /** Whether a snapshot has a binding for an entry. */
  predicate Holds(s: Snapshot, e: Entry) { e in Entries(s.bindings) }

  predicate Keeps(b: Binding, news: Snapshot, cutoff: Time) {
    !Holds(news, b.entry) && b.lastSeen >= cutoff
  }

  /** The bindings that the fresh snapshot misses and that were seen since the cutoff. */
  function Kept(bs: seq<Binding>, news: Snapshot, cutoff: Time): seq<Binding> {
    if |bs| == 0 then []
    else
      var b := bs[|bs| - 1];
      Kept(bs[..|bs| - 1], news, cutoff) + if Keeps(b, news, cutoff) then [b] else []
  }

  function AddNode(nodes: map<NodeId, Summary>, n: NodeId, known: map<NodeId, Summary>): map<NodeId, Summary> {
    if n !in nodes && n in known then nodes[n := known[n]] else nodes
  }

  function AddNodes(nodes: map<NodeId, Summary>, bs: seq<Binding>, known: map<NodeId, Summary>): map<NodeId, Summary> {
    if |bs| == 0 then nodes
    else AddNode(AddNodes(nodes, bs[..|bs| - 1], known), bs[|bs| - 1].node, known)
  }

  /** `_merge_retaining_recent`. */
  function Merge(prior: Option<Snapshot>, news: Snapshot, retain: int): Snapshot {
    if prior.None? || retain <= 0 then news
    else
      var kept := Kept(prior.value.bindings, news, news.ts - retain);
      Snapshot(news.ts, AddNodes(news.nodes, kept, prior.value.nodes), PutAll(SidOf, news.bindings, kept))
  }

  // ----- the closed form -----

  /** The snapshot after all passes. */
  function After(passes: seq<Pass>, retain: int, nodeOf: NodeOf): Snapshot
    requires |passes| > 0
  {
    var front, last := passes[..|passes| - 1], passes[|passes| - 1];
    Merge(if |front| == 0 then None else Some(After(front, retain, nodeOf)), FreshOf(last, nodeOf), retain)
  }

  /** The time of the newest pass that reported an entry. */
  function LastReport(passes: seq<Pass>, e: Entry): Option<Time> {
    if |passes| == 0 then None
    else if e in passes[|passes| - 1].reported then Some(passes[|passes| - 1].now)
    else LastReport(passes[..|passes| - 1], e)
  }

  predicate Timed(passes: seq<Pass>) {
    forall i, j :: 0 <= i <= j < |passes| ==> passes[i].now <= passes[j].now
  }

  function Newest(passes: seq<Pass>): Time
    requires |passes| > 0
  {
    passes[|passes| - 1].now
  }

  /** Whether the snapshot should hold an entry. */
  predicate Due(passes: seq<Pass>, e: Entry, retain: int)
    requires |passes| > 0
  {
    LastReport(passes, e).Some? && (if retain > 0 then LastReport(passes, e).value >= Newest(passes) - retain
                                    else e in passes[|passes| - 1].reported)
  }

  ghost predicate Follows(s: Snapshot, passes: seq<Pass>, retain: int)
    requires |passes| > 0
  {
    && (forall b :: b in s.bindings ==> Due(passes, b.entry, retain) && Some(b.lastSeen) == LastReport(passes, b.entry))
    && (forall e :: Due(passes, e, retain) ==> Holds(s, e))
  }

  /** In one list every binding is under its URL's node, no entry occurs twice, and the most recently seen come first. */
  predicate Proper(bs: seq<Binding>, nodeOf: NodeOf) {
    if |bs| == 0 then true
    else
      var front, b := bs[..|bs| - 1], bs[|bs| - 1];
      b.node == nodeOf(b.entry.url) && Proper(front, nodeOf) && Precede(front, b)
  }

  predicate Precede(bs: seq<Binding>, b: Binding) {
    forall x :: x in bs ==> x.entry != b.entry && x.lastSeen >= b.lastSeen
  }

  lemma {:induction false} ProperMeans(bs: seq<Binding>, nodeOf: NodeOf, i: nat, j: nat)
    requires Proper(bs, nodeOf) && i <= j < |bs|
    ensures bs[j].node == nodeOf(bs[j].entry.url)
    ensures i < j ==> bs[i].entry != bs[j].entry && bs[i].lastSeen >= bs[j].lastSeen
  {
    var front := bs[..|bs| - 1];
    if j < |front| { ProperMeans(front, nodeOf, i, j); } else if i < j { assert front[i] in front; }
  }

  ghost predicate AllProper(bs: seq<Binding>, nodeOf: NodeOf) {
    forall s :: Proper(OfSid(SidOf, bs, s), nodeOf)
  }

  /** A fresh snapshot holds what the pass reported, once. */
  ghost predicate Reports(news: Snapshot, now: Time, entries: seq<Entry>) {
    && news.ts == now
    && (forall b :: b in news.bindings ==> b.lastSeen == now && b.entry in entries)
    && (forall e :: e in entries ==> Holds(news, e))
  }

  lemma ProperSnoc(bs: seq<Binding>, b: Binding, nodeOf: NodeOf)
    requires Proper(bs, nodeOf) && b.node == nodeOf(b.entry.url)
    requires Precede(bs, b)
    ensures Proper(bs + [b], nodeOf)
  {
    assert (bs + [b])[..|bs|] == bs;
  }

  lemma {:induction false} FreshReports(entries: seq<Entry>, now: Time, nodeOf: NodeOf)
    ensures Reports(Fresh(entries, now, nodeOf), now, entries) && NodesMatch(Fresh(entries, now, nodeOf))
  {
    if |entries| > 0 {
      var front, e := entries[..|entries| - 1], entries[|entries| - 1];
      assert entries == front + [e];
      FreshReports(front, now, nodeOf);
      NamedPut(Fresh(front, now, nodeOf).bindings, Binding(e, nodeOf(e.url), now));
      PutIn(SidOf, Fresh(front, now, nodeOf).bindings, Binding(e, nodeOf(e.url), now));
    }
  }

  lemma PutProper(bs: seq<Binding>, b: Binding, nodeOf: NodeOf, s: Sid)
    requires Proper(OfSid(SidOf, bs, s), nodeOf) && b.node == nodeOf(b.entry.url) && Precede(bs, b)
    ensures Proper(OfSid(SidOf, Put(SidOf, bs, b), s), nodeOf)
  {
    var list := OfSid(SidOf, bs, s);
    PutOfSid(SidOf, bs, b, s);
    OfSidIn(SidOf, bs, s);
    if b.entry.sid == s {
      assert OfSid(SidOf, Put(SidOf, bs, b), s) == list + [b];
      ProperSnoc(list, b, nodeOf);
    } else {
      assert OfSid(SidOf, Put(SidOf, bs, b), s) == list;
    }
  }

  lemma {:induction false} FreshProper(entries: seq<Entry>, now: Time, nodeOf: NodeOf, s: Sid)
    requires Once(entries)
    ensures Proper(OfSid(SidOf, Fresh(entries, now, nodeOf).bindings, s), nodeOf)
  {
    if |entries| > 0 {
      var front, e := entries[..|entries| - 1], entries[|entries| - 1];
      var bs, b := Fresh(front, now, nodeOf).bindings, Binding(e, nodeOf(e.url), now);
      assert entries == front + [e];
      FreshReports(front, now, nodeOf);
      FreshProper(front, now, nodeOf, s);
      PutProper(bs, b, nodeOf, s);
    }
  }

  // ----- nodes -----

  /** The node summaries are exactly those of the nodes that some binding names. */
  predicate NodesMatch(s: Snapshot) { s.nodes.Keys == NodesOf(s.bindings) }

  lemma {:induction false} KeptMatch(news: Snapshot, kept: seq<Binding>, known: map<NodeId, Summary>)
    requires NodesMatch(news) && forall b :: b in kept ==> b.node in known
    ensures NodesMatch(Snapshot(news.ts, AddNodes(news.nodes, kept, known), PutAll(SidOf, news.bindings, kept)))
  {
    if |kept| > 0 {
      var front, b := kept[..|kept| - 1], kept[|kept| - 1];
      assert b in kept;
      KeptMatch(news, front, known);
      NamedPut(PutAll(SidOf, news.bindings, front), b);
    }
  }

  // ----- merging -----

  lemma KeptSnoc(bs: seq<Binding>, i: nat, news: Snapshot, cutoff: Time)
    requires i < |bs|
    ensures Kept(bs[..i + 1], news, cutoff) == Kept(bs[..i], news, cutoff) + if Keeps(bs[i], news, cutoff) then [bs[i]] else []
  {
    assert bs[..i + 1][..i] == bs[..i];
  }

  lemma AddNodesSnoc(nodes: map<NodeId, Summary>, bs: seq<Binding>, b: Binding, known: map<NodeId, Summary>)
    ensures AddNodes(nodes, bs + [b], known) == AddNode(AddNodes(nodes, bs, known), b.node, known)
  {
    assert (bs + [b])[..|bs|] == bs;
  }

  lemma {:induction false} KeptIn(bs: seq<Binding>, news: Snapshot, cutoff: Time)
    ensures forall b :: b in Kept(bs, news, cutoff) <==> b in bs && Keeps(b, news, cutoff)
  {
    if |bs| > 0 {
      assert bs == bs[..|bs| - 1] + [bs[|bs| - 1]];
      KeptIn(bs[..|bs| - 1], news, cutoff);
    }
  }

  lemma {:induction false} KeptProper(bs: seq<Binding>, news: Snapshot, cutoff: Time, nodeOf: NodeOf)
    requires Proper(bs, nodeOf)
    ensures Proper(Kept(bs, news, cutoff), nodeOf)
  {
    if |bs| > 0 {
      var front, b := bs[..|bs| - 1], bs[|bs| - 1];
      KeptProper(front, news, cutoff, nodeOf);
      KeptIn(front, news, cutoff);
      var kept := Kept(front, news, cutoff);
      assert (kept + [b])[..|kept|] == kept && kept + [] == kept;
    }
  }

  lemma KeptOfOneMore(bs: seq<Binding>, b: Binding, news: Snapshot, cutoff: Time)
    ensures Kept(bs + [b], news, cutoff) == Kept(bs, news, cutoff) + if Keeps(b, news, cutoff) then [b] else []
  {
    assert (bs + [b])[..|bs|] == bs;
  }

  /** Keeping works list by list. */
  lemma {:induction false} KeptOfSid(bs: seq<Binding>, news: Snapshot, cutoff: Time, s: Sid)
    ensures OfSid(SidOf, Kept(bs, news, cutoff), s) == Kept(OfSid(SidOf, bs, s), news, cutoff)
  {
    if |bs| > 0 {
      var front, b := bs[..|bs| - 1], bs[|bs| - 1];
      var list, kept := OfSid(SidOf, front, s), Kept(front, news, cutoff);
      KeptOfSid(front, news, cutoff, s);
      KeptOfOneMore(list, b, news, cutoff);
      OfSidSnoc(SidOf, kept, b, s);
      assert kept + [] == kept && list + [] == list;
      assert OfSid(SidOf, kept, s) + [] == OfSid(SidOf, kept, s);
    }
  }

  lemma PrecedeConcat(a: seq<Binding>, b: seq<Binding>, x: Binding)
    requires Precede(a, x) && Precede(b, x)
    ensures Precede(a + b, x)
  {}

  lemma ConcatLast(a: seq<Binding>, b: seq<Binding>)
    requires |b| > 0
    ensures a + b == (a + b[..|b| - 1]) + [b[|b| - 1]]
  {}

  lemma {:induction false} AppendProper(a: seq<Binding>, b: seq<Binding>, n: nat, nodeOf: NodeOf)
    requires Proper(a, nodeOf) && Proper(b, nodeOf) && n == |b|
    requires forall y :: y in b ==> Precede(a, y)
    ensures Proper(a + b, nodeOf)
  {
    if n == 0 {
      assert a + b == a;
    } else {
      var front, last := b[..n - 1], b[n - 1];
      AppendProper(a, front, n - 1, nodeOf);
      PrecedeConcat(a, front, last);
      ProperSnoc(a + front, last, nodeOf);
      ConcatLast(a, b);
    }
  }

  lemma {:induction false} ReportedBefore(passes: seq<Pass>, e: Entry)
    requires Timed(passes) && LastReport(passes, e).Some?
    ensures |passes| > 0 && LastReport(passes, e).value <= Newest(passes)
  {
    if e !in passes[|passes| - 1].reported {
      var front := passes[..|passes| - 1];
      ReportedBefore(front, e);
      assert Newest(front) <= Newest(passes);
    }
  }

  lemma DueLater(front: seq<Pass>, p: Pass, e: Entry, retain: int)
    requires |front| > 0 && retain > 0 && Newest(front) <= p.now
    ensures LastReport(front + [p], e) == if e in p.reported then Some(p.now) else LastReport(front, e)
    ensures Due(front + [p], e, retain) <==>
              e in p.reported || (Due(front, e, retain) && LastReport(front, e).value >= p.now - retain)
  {
    assert (front + [p])[..|front|] == front;
  }

  lemma MergedIn(s: Snapshot, news: Snapshot, retain: int, b: Binding)
    requires retain > 0
    ensures b in Merge(Some(s), news, retain).bindings
            <==> b in news.bindings || (b in s.bindings && Keeps(b, news, news.ts - retain))
  {
    PutAllFacts(SidOf, news.bindings, Kept(s.bindings, news, news.ts - retain), "");
    KeptIn(s.bindings, news, news.ts - retain);
  }

  lemma {:induction false} MergeDue(s: Snapshot, news: Snapshot, front: seq<Pass>, p: Pass, retain: int, b: Binding)
    requires |front| > 0 && retain > 0 && Newest(front) <= p.now
    requires Follows(s, front, retain) && Reports(news, p.now, p.reported) && b in Merge(Some(s), news, retain).bindings
    ensures Due(front + [p], b.entry, retain) && Some(b.lastSeen) == LastReport(front + [p], b.entry)
  {
    DueLater(front, p, b.entry, retain);
    MergedIn(s, news, retain, b);
  }

  lemma MergeHolds(s: Snapshot, news: Snapshot, front: seq<Pass>, p: Pass, retain: int, e: Entry)
    requires |front| > 0 && retain > 0 && Newest(front) <= p.now
    requires Follows(s, front, retain) && Reports(news, p.now, p.reported) && Due(front + [p], e, retain)
    ensures Holds(Merge(Some(s), news, retain), e)
  {
    DueLater(front, p, e, retain);
    NamedBy(Merge(Some(s), news, retain).bindings);
    if Holds(news, e) {
      NamedBy(news.bindings);
      var b :| b in news.bindings && b.entry == e;
      MergedIn(s, news, retain, b);
    } else {
      NamedBy(s.bindings);
      var b :| b in s.bindings && b.entry == e;
      MergedIn(s, news, retain, b);
    }
  }

  lemma MergeFollows(s: Snapshot, news: Snapshot, front: seq<Pass>, p: Pass, retain: int)
    requires |front| > 0 && retain > 0 && Newest(front) <= p.now
    requires Follows(s, front, retain) && Reports(news, p.now, p.reported)
    ensures Follows(Merge(Some(s), news, retain), front + [p], retain)
  {
    var t := Merge(Some(s), news, retain);
    forall b | b in t.bindings
      ensures Due(front + [p], b.entry, retain) && Some(b.lastSeen) == LastReport(front + [p], b.entry)
    {
      MergeDue(s, news, front, p, retain, b);
    }
    forall e | Due(front + [p], e, retain) ensures Holds(t, e) { MergeHolds(s, news, front, p, retain, e); }
  }

  lemma FreshFollows(p: Pass, retain: int, nodeOf: NodeOf)
    ensures Follows(FreshOf(p, nodeOf), [p], retain) && Reports(FreshOf(p, nodeOf), p.now, p.reported)
    ensures AllProper(FreshOf(p, nodeOf).bindings, nodeOf) && NodesMatch(FreshOf(p, nodeOf))
  {
    MergedOnce(p.reported);
    FreshReports(Merged(p.reported), p.now, nodeOf);
    forall s ensures Proper(OfSid(SidOf, FreshOf(p, nodeOf).bindings, s), nodeOf) {
      FreshProper(Merged(p.reported), p.now, nodeOf, s);
    }
    forall e ensures Due([p], e, retain) <==> e in p.reported
      ensures e in p.reported ==> LastReport([p], e) == Some(p.now)
    {
      assert [p][..|[p]| - 1] == [] && LastReport([], e).None?;
    }
  }

  /** After any run of passes the snapshot holds exactly the entries whose newest report is within the retention of the
      newest pass, with the time of that report; without retention, what the newest pass reported. */
  lemma {:induction false} RefreshClosedForm(passes: seq<Pass>, retain: int, nodeOf: NodeOf)
    requires |passes| > 0 && Timed(passes)
    ensures Follows(After(passes, retain, nodeOf), passes, retain)
  {
    var front, p := passes[..|passes| - 1], passes[|passes| - 1];
    assert passes == front + [p];
    FreshFollows(p, retain, nodeOf);
    if |front| == 0 {
      assert passes == [p];
    } else if retain > 0 {
      RefreshClosedForm(front, retain, nodeOf);
      MergeFollows(After(front, retain, nodeOf), FreshOf(p, nodeOf), front, p, retain);
    } else {
      forall e ensures Due(passes, e, retain) <==> Due([p], e, retain) {}
    }
  }

  lemma MergeProperList(s: Snapshot, news: Snapshot, cutoff: Time, nodeOf: NodeOf, sid: Sid)
    requires AllProper(s.bindings, nodeOf) && AllProper(news.bindings, nodeOf)
    requires forall x, y :: x in s.bindings && y in news.bindings ==> x.lastSeen <= y.lastSeen
    ensures Proper(OfSid(SidOf, PutAll(SidOf, news.bindings, Kept(s.bindings, news, cutoff)), sid), nodeOf)
  {
    var kept, list := Kept(s.bindings, news, cutoff), OfSid(SidOf, s.bindings, sid);
    var back, front := Kept(list, news, cutoff), OfSid(SidOf, news.bindings, sid);
    PutAllFacts(SidOf, news.bindings, kept, sid);
    KeptOfSid(s.bindings, news, cutoff, sid);
    KeptProper(list, news, cutoff, nodeOf);
    KeptIn(list, news, cutoff);
    OfSidIn(SidOf, s.bindings, sid);
    OfSidIn(SidOf, news.bindings, sid);
    Named(news.bindings);
    AppendProper(front, back, |back|, nodeOf);
  }

  lemma KeptNodes(s: Snapshot, news: Snapshot, cutoff: Time)
    requires NodesMatch(s)
    ensures forall b :: b in Kept(s.bindings, news, cutoff) ==> b.node in s.nodes
  {
    KeptIn(s.bindings, news, cutoff);
    Named(s.bindings);
  }

  lemma MergeNodes(s: Snapshot, news: Snapshot, retain: int)
    requires NodesMatch(s) && NodesMatch(news)
    ensures NodesMatch(Merge(Some(s), news, retain))
  {
    if retain > 0 {
      var kept := Kept(s.bindings, news, news.ts - retain);
      KeptNodes(s, news, news.ts - retain);
      KeptMatch(news, kept, s.nodes);
    }
  }

  lemma MergeProper(s: Snapshot, news: Snapshot, retain: int, nodeOf: NodeOf)
    requires AllProper(s.bindings, nodeOf) && AllProper(news.bindings, nodeOf)
    requires forall x, y :: x in s.bindings && y in news.bindings ==> x.lastSeen <= y.lastSeen
    ensures AllProper(Merge(Some(s), news, retain).bindings, nodeOf)
  {
    if retain > 0 {
      forall sid ensures Proper(OfSid(SidOf, Merge(Some(s), news, retain).bindings, sid), nodeOf) {
        MergeProperList(s, news, news.ts - retain, nodeOf, sid);
      }
    }
  }

  lemma {:induction false} RefreshProper(passes: seq<Pass>, retain: int, nodeOf: NodeOf)
    requires |passes| > 0 && Timed(passes)
    ensures AllProper(After(passes, retain, nodeOf).bindings, nodeOf) && NodesMatch(After(passes, retain, nodeOf))
  {
    var front, p := passes[..|passes| - 1], passes[|passes| - 1];
    FreshFollows(p, retain, nodeOf);
    if |front| > 0 {
      RefreshProper(front, retain, nodeOf);
      RefreshClosedForm(front, retain, nodeOf);
      var s, news := After(front, retain, nodeOf), FreshOf(p, nodeOf);
      forall x, y | x in s.bindings && y in news.bindings ensures x.lastSeen <= y.lastSeen {
        ReportedBefore(front, x.entry);
      }
      MergeProper(s, news, retain, nodeOf);
      MergeNodes(s, news, retain);
    }
  }

  lemma {:induction false} FreshGrouped(entries: seq<Entry>, now: Time, nodeOf: NodeOf)
    ensures Fresh(entries, now, nodeOf).ts == now && Grouped(SidOf, Fresh(entries, now, nodeOf).bindings)
  {
    if |entries| > 0 {
      var front, e := entries[..|entries| - 1], entries[|entries| - 1];
      var bs, b := Fresh(front, now, nodeOf).bindings, Binding(e, nodeOf(e.url), now);
      FreshGrouped(front, now, nodeOf);
      PutGrouped(SidOf, bs, b);
      assert Fresh(entries, now, nodeOf).bindings == Put(SidOf, bs, b);
    }
  }

  lemma {:induction false} RefreshGrouped(passes: seq<Pass>, retain: int, nodeOf: NodeOf)
    requires |passes| > 0
    ensures Grouped(SidOf, After(passes, retain, nodeOf).bindings)
  {
    var front, p := passes[..|passes| - 1], passes[|passes| - 1];
    var news := FreshOf(p, nodeOf);
    FreshGrouped(Merged(p.reported), p.now, nodeOf);
    if |front| > 0 && retain > 0 {
      PutAllGrouped(SidOf, news.bindings, Kept(After(front, retain, nodeOf).bindings, news, news.ts - retain));
    }
  }

  /** The list of each specialist stands in one piece and holds each of its entries once, under the right node, the
      newest first, and there is a summary for exactly the nodes of the bindings. */
  lemma RefreshHoldsOnce(passes: seq<Pass>, retain: int, nodeOf: NodeOf, sid: Sid)
    requires |passes| > 0 && Timed(passes)
    ensures var s := After(passes, retain, nodeOf);
            var list := OfSid(SidOf, s.bindings, sid);
            && Grouped(SidOf, s.bindings) && (forall b :: b in list <==> b in s.bindings && b.entry.sid == sid)
            && (forall j :: 0 <= j < |list| ==> list[j].node == nodeOf(list[j].entry.url))
            && (forall i, j :: 0 <= i < j < |list| ==> list[i].entry != list[j].entry && list[i].lastSeen >= list[j].lastSeen)
            && (forall n :: n in s.nodes <==> exists b :: b in s.bindings && b.node == n)
  {
    var s := After(passes, retain, nodeOf);
    var list := OfSid(SidOf, s.bindings, sid);
    RefreshProper(passes, retain, nodeOf);
    RefreshGrouped(passes, retain, nodeOf);
    NamedBy(s.bindings);
    OfSidIn(SidOf, s.bindings, sid);
    forall j | 0 <= j < |list| ensures list[j].node == nodeOf(list[j].entry.url) { ProperMeans(list, nodeOf, j, j); }
    forall i, j | 0 <= i < j < |list| ensures list[i].entry != list[j].entry && list[i].lastSeen >= list[j].lastSeen {
      ProperMeans(list, nodeOf, i, j);
    }
  }

  // ----- what a summary says -----

  predicate FirstOn(entries: seq<Entry>, n: NodeId, nodeOf: NodeOf, i: int) {
    && 0 <= i < |entries| && nodeOf(entries[i].url) == n
    && forall j :: 0 <= j < i ==> nodeOf(entries[j].url) != n
  }

  predicate SaysEntry(m: Summary, n: NodeId, e: Entry, now: Time) {
    m.node == n && m.url == e.url && m.loaded == e.sid && m.lastSeen == now
  }

  ghost predicate Said(entries: seq<Entry>, nodeOf: NodeOf, n: NodeId, m: Summary, now: Time) {
    exists i :: FirstOn(entries, n, nodeOf, i) && SaysEntry(m, n, entries[i], now)
  }

  ghost predicate Reported(entries: seq<Entry>, n: NodeId, nodeOf: NodeOf) {
    exists i :: FirstOn(entries, n, nodeOf, i)
  }

  lemma {:induction false} FreshSummary(entries: seq<Entry>, now: Time, nodeOf: NodeOf, n: NodeId)
    ensures Fresh(entries, now, nodeOf).ts == now
    ensures var nodes := Fresh(entries, now, nodeOf).nodes;
            && (n in nodes <==> Reported(entries, n, nodeOf))
            && (n in nodes ==> Said(entries, nodeOf, n, nodes[n], now))
  {
    if |entries| > 0 {
      var front, e := entries[..|entries| - 1], entries[|entries| - 1];
      assert entries == front + [e];
      FreshSummary(front, now, nodeOf, n);
      FirstSnoc(front, e, nodeOf, n);
      if n in Fresh(front, now, nodeOf).nodes { SaidSnoc(front, e, nodeOf, n, Fresh(front, now, nodeOf).nodes[n], now); }
    }
  }

  lemma SaidSnoc(front: seq<Entry>, e: Entry, nodeOf: NodeOf, n: NodeId, m: Summary, now: Time)
    requires Said(front, nodeOf, n, m, now)
    ensures Said(front + [e], nodeOf, n, m, now)
  {
    var i :| FirstOn(front, n, nodeOf, i) && SaysEntry(m, n, front[i], now);
    assert FirstOn(front + [e], n, nodeOf, i) && (front + [e])[i] == front[i];
  }

  lemma FirstSnoc(front: seq<Entry>, e: Entry, nodeOf: NodeOf, n: NodeId)
    ensures Reported(front + [e], n, nodeOf) <==> Reported(front, n, nodeOf) || nodeOf(e.url) == n
    ensures !Reported(front, n, nodeOf) && nodeOf(e.url) == n ==>
              FirstOn(front + [e], n, nodeOf, |front|) && (front + [e])[|front|] == e
  {
    var all := front + [e];
    assert all[|front|] == e && forall j :: 0 <= j < |front| ==> all[j] == front[j];
    if Reported(front, n, nodeOf) {
      var i :| FirstOn(front, n, nodeOf, i);
      assert FirstOn(all, n, nodeOf, i);
    } else {
      NoneOn(front, n, nodeOf);
      assert nodeOf(e.url) == n ==> FirstOn(all, n, nodeOf, |front|);
      assert forall i :: FirstOn(all, n, nodeOf, i) ==> i == |front|;
    }
  }

  lemma {:induction false} NoneOn(entries: seq<Entry>, n: NodeId, nodeOf: NodeOf)
    requires !Reported(entries, n, nodeOf)
    ensures forall j :: 0 <= j < |entries| ==> nodeOf(entries[j].url) != n
  {
    if |entries| > 0 {
      var k := |entries| - 1;
      var front := entries[..k];
      if Reported(front, n, nodeOf) {
        var i :| FirstOn(front, n, nodeOf, i);
        assert forall j :: 0 <= j <= i ==> entries[j] == front[j];
        assert FirstOn(entries, n, nodeOf, i);
      }
      NoneOn(front, n, nodeOf);
      assert forall j :: 0 <= j < k ==> entries[j] == front[j];
      assert !FirstOn(entries, n, nodeOf, k);
    }
  }

  lemma {:induction false} AddedNodes(nodes: map<NodeId, Summary>, bs: seq<Binding>, known: map<NodeId, Summary>, n: NodeId)
    ensures var all := AddNodes(nodes, bs, known);
            && (n in nodes ==> n in all && all[n] == nodes[n])
            && (n in all && n !in nodes ==> n in known && all[n] == known[n])
  {
    if |bs| > 0 { AddedNodes(nodes, bs[..|bs| - 1], known, n); }
  }

  /** Pass `k` is the newest one that reported the node. */
  ghost predicate LastOn(passes: seq<Pass>, n: NodeId, nodeOf: NodeOf, k: int) {
    && 0 <= k < |passes| && Reported(Merged(passes[k].reported), n, nodeOf)
    && forall j :: k < j < |passes| ==> !Reported(Merged(passes[j].reported), n, nodeOf)
  }

  ghost predicate SaidAt(passes: seq<Pass>, nodeOf: NodeOf, n: NodeId, m: Summary, k: int)
    requires 0 <= k < |passes|
  {
    Said(Merged(passes[k].reported), nodeOf, n, m, passes[k].now)
  }

  lemma MergedSummary(s: Option<Snapshot>, news: Snapshot, retain: int, n: NodeId)
    requires n in Merge(s, news, retain).nodes
    ensures var m := Merge(s, news, retain).nodes[n];
            if n in news.nodes then news.nodes[n] == m else s.Some? && n in s.value.nodes && s.value.nodes[n] == m
  {
    if s.Some? && retain > 0 {
      AddedNodes(news.nodes, Kept(s.value.bindings, news, news.ts - retain), s.value.nodes, n);
    }
  }

  lemma LastOnOneMore(front: seq<Pass>, p: Pass, nodeOf: NodeOf, n: NodeId, m: Summary, k: nat)
    requires LastOn(front, n, nodeOf, k) && SaidAt(front, nodeOf, n, m, k) && !Reported(Merged(p.reported), n, nodeOf)
    ensures LastOn(front + [p], n, nodeOf, k) && SaidAt(front + [p], nodeOf, n, m, k)
  {
    assert (front + [p])[k] == front[k];
  }

  /** The summary of a node says what the newest pass that reported the node said of it first, and when. */
  lemma {:induction false} SummaryIsNewest(passes: seq<Pass>, retain: int, nodeOf: NodeOf, n: NodeId)
    requires |passes| > 0 && n in After(passes, retain, nodeOf).nodes
    ensures exists k :: LastOn(passes, n, nodeOf, k) && SaidAt(passes, nodeOf, n, After(passes, retain, nodeOf).nodes[n], k)
  {
    var m := |passes| - 1;
    var front, p := passes[..m], passes[m];
    var prior := if |front| == 0 then None else Some(After(front, retain, nodeOf));
    var said := After(passes, retain, nodeOf).nodes[n];
    FreshSummary(Merged(p.reported), p.now, nodeOf, n);
    MergedSummary(prior, FreshOf(p, nodeOf), retain, n);
    if Reported(Merged(p.reported), n, nodeOf) {
      assert LastOn(passes, n, nodeOf, m) && SaidAt(passes, nodeOf, n, said, m);
    } else {
      SummaryIsNewest(front, retain, nodeOf, n);
      var k :| LastOn(front, n, nodeOf, k) && SaidAt(front, nodeOf, n, said, k);
      assert passes == front + [p];
      LastOnOneMore(front, p, nodeOf, n, said, k);
    }
  }

  // ----- the methods -----

  method DiscoveryToSnapshot(entries: seq<Entry>, now: Time, nodeOf: NodeOf) returns (s: Snapshot)
    ensures s == Fresh(entries, now, nodeOf)
  {
    s := Snapshot(now, map[], []);
    for i := 0 to |entries|
      invariant s == Fresh(entries[..i], now, nodeOf) && s.ts == now
    {
      var e := entries[i];
      var n := nodeOf(e.url);
      assert entries[..i + 1][..i] == entries[..i];
      s := s.(bindings := Put(SidOf, s.bindings, Binding(e, n, now)));
      if n !in s.nodes { s := s.(nodes := s.nodes[n := Summary(n, e.url, now, e.sid)]); }
    }
    assert entries[..|entries|] == entries;
  }

  method MergeRetainingRecent(prior: Option<Snapshot>, news: Snapshot, retain: int) returns (s: Snapshot)
    ensures s == Merge(prior, news, retain)
  {
    if prior.None? || retain <= 0 { return news; }
    var cutoff, older := news.ts - retain, prior.value;
    var known := Entries(news.bindings);
    var merged, nodes, retained := news.bindings, news.nodes, 0;
    ghost var kept := [];
    for i := 0 to |older.bindings|
      invariant kept == Kept(older.bindings[..i], news, cutoff) && retained == |kept|
      invariant merged == PutAll(SidOf, news.bindings, kept) && nodes == AddNodes(news.nodes, kept, older.nodes)
    {
      var b := older.bindings[i];
      KeptSnoc(older.bindings, i, news, cutoff);
      if b.entry in known || b.lastSeen < cutoff { continue; }
      AddNodesSnoc(news.nodes, kept, b, older.nodes);
      PutAllSnoc(SidOf, news.bindings, kept, b);
      kept := kept + [b];
      merged := Put(SidOf, merged, b);
      retained := retained + 1;
      nodes := AddNode(nodes, b.node, older.nodes);
    }
    assert older.bindings[..|older.bindings|] == older.bindings;
    if retained == 0 { return news; }
    return Snapshot(news.ts, nodes, merged);
  }

  class RefreshingSnapshot {
    const retain: int
    const nodeOf: NodeOf
    var snapshot: Option<Snapshot>
    ghost var passes: seq<Pass>

    ghost predicate Valid()
      reads this
    {
      if |passes| == 0 then snapshot.None? else snapshot == Some(After(passes, retain, nodeOf))
    }

    constructor (retain: int, nodeOf: NodeOf)
      ensures Valid() && passes == [] && this.retain == retain && this.nodeOf == nodeOf
    {
      this.retain, this.nodeOf, snapshot, passes := retain, nodeOf, None, [];
    }

    /** `refresh_once` with the pass it made. */
    method RefreshOnce(p: Pass)
      requires Valid()
      modifies this
      ensures Valid() && passes == old(passes) + [p]
      ensures Timed(passes) ==> Follows(snapshot.value, passes, retain)
    {
      var entries := Merged(p.reported);
      var news := DiscoveryToSnapshot(entries, p.now, nodeOf);
      var merged := MergeRetainingRecent(snapshot, news, retain);
      ghost var all := passes + [p];
      assert all[..|all| - 1] == passes;
      snapshot := Some(merged);
      passes := all;
      if Timed(all) { RefreshClosedForm(all, retain, nodeOf); }
    }
  }
}
