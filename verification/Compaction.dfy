/** Compaction of superseded heartbeats (mesh/registry.py, `_compact_heartbeats`).

    The comment there says neither the snapshot nor the allocator input changes. That holds up to
    the order of nodes, for every log and every continuation; the order itself is kept exactly
    when the snapshot already lists its nodes by their latest heartbeat. */
module Compaction {
  import opened Wrappers
  import opened Grouping
  import opened RegistryLog

  predicate HasBeat(log: Log, n: NodeId) {
    exists i :: 0 <= i < |log| && BeatOf(log[i], n)
  }

  predicate Superseded(e: Event, later: Log) {
    e.Heartbeat? && HasBeat(later, e.beat.node)
  }

  /** Keep an event unless it is a heartbeat and a later one of the same node follows. */
  function Compact(log: Log): Log {
    if |log| == 0 then []
    else if Superseded(log[0], log[1..]) then Compact(log[1..])
    else [log[0]] + Compact(log[1..])
  }

  /** Two logs that no reader can tell apart node by node. */
  ghost predicate SameReads(a: Log, b: Log) {
    forall n :: Current(a, n) == Current(b, n) && LastBeat(a, n) == LastBeat(b, n)
  }

  lemma SameReadsSnoc(a: Log, b: Log, e: Event)
    requires SameReads(a, b)
    ensures SameReads(a + [e], b + [e])
  {
    assert (a + [e])[..|a|] == a && (b + [e])[..|b|] == b;
    forall n ensures Current(a + [e], n) == Current(b + [e], n) && LastBeat(a + [e], n) == LastBeat(b + [e], n) {
      assert Current(a, n) == Current(b, n);
    }
  }

  lemma {:induction false} SameReadsAppend(a: Log, b: Log, more: Log)
    requires SameReads(a, b)
    ensures SameReads(a + more, b + more)
    decreases |more|
  {
    if |more| == 0 {
      assert a + more == a && b + more == b;
    } else {
      SameReadsSnoc(a, b, more[0]);
      SameReadsAppend(a + [more[0]], b + [more[0]], more[1..]);
      assert a + more == a + [more[0]] + more[1..] && b + more == b + [more[0]] + more[1..];
    }
  }

  // ----- reading a log from the front -----

  predicate Mentions(log: Log, n: NodeId) {
    exists i :: 0 <= i < |log| && Mention(log[i], n)
  }

  lemma {:induction false} ReadFront(e: Event, rest: Log, n: NodeId)
    ensures LastBeat([e] + rest, n) ==
              if HasBeat(rest, n) then LastBeat(rest, n) else if BeatOf(e, n) then Some(e) else None
    ensures Current([e] + rest, n) ==
              if Mentions(rest, n) then Current(rest, n) else if BeatOf(e, n) then Some(e) else None
    decreases |rest|
  {
    if |rest| > 0 {
      var l, init := rest[|rest| - 1], rest[..|rest| - 1];
      assert ([e] + rest)[..|rest|] == [e] + init;
      ReadFront(e, init, n);
      assert HasBeat(rest, n) <==> HasBeat(init, n) || BeatOf(l, n) by {
        if HasBeat(init, n) { var i :| 0 <= i < |init| && BeatOf(init[i], n); assert BeatOf(rest[i], n); }
      }
      assert Mentions(rest, n) <==> Mentions(init, n) || Mention(l, n) by {
        if Mentions(init, n) { var i :| 0 <= i < |init| && Mention(init[i], n); assert Mention(rest[i], n); }
      }
    }
  }

  lemma MentionFront(e: Event, rest: Log, n: NodeId)
    ensures HasBeat([e] + rest, n) <==> BeatOf(e, n) || HasBeat(rest, n)
    ensures Mentions([e] + rest, n) <==> Mention(e, n) || Mentions(rest, n)
    ensures HasBeat(rest, n) ==> Mentions(rest, n)
  {
    var log := [e] + rest;
    assert log[0] == e;
    if i :| 0 <= i < |rest| && BeatOf(rest[i], n) { assert BeatOf(log[i + 1], n) && Mention(rest[i], n); }
    if i :| 0 <= i < |rest| && Mention(rest[i], n) { assert Mention(log[i + 1], n); }
  }

  lemma {:induction false} Unheard(log: Log, n: NodeId)
    ensures !HasBeat(log, n) ==> LastBeat(log, n) == None
    ensures !Mentions(log, n) ==> Current(log, n) == None
  {
    if |log| > 0 {
      var init, e := log[..|log| - 1], log[|log| - 1];
      Unheard(init, n);
      assert forall i :: 0 <= i < |init| ==> init[i] == log[i];
      assert BeatOf(e, n) ==> HasBeat(log, n);
      assert Mention(e, n) ==> Mentions(log, n);
    }
  }

  lemma {:induction false} CompactReads(log: Log, n: NodeId)
    ensures Current(Compact(log), n) == Current(log, n)
    ensures LastBeat(Compact(log), n) == LastBeat(log, n)
    ensures HasBeat(Compact(log), n) == HasBeat(log, n)
    ensures Mentions(Compact(log), n) == Mentions(log, n)
  {
    if |log| > 0 {
      var e, rest, c := log[0], log[1..], Compact(log[1..]);
      assert log == [e] + rest;
      CompactReads(rest, n);
      ReadFront(e, rest, n);
      Unheard(rest, n);
      MentionFront(e, rest, n);
      if !Superseded(e, rest) {
        ReadFront(e, c, n);
        MentionFront(e, c, n);
      }
    }
  }

  /** Unobservable up to order: whatever is appended after a compaction, the compacted log and
      the full one give the same node map, the same bindings and coverage as multisets, and the
      same latest hardware of every node - also across departures and rejoins. */
  lemma CompactionUnobservable(log: Log, more: Log, v: View)
    ensures SameSnapshot(SnapshotOf(Latest(Compact(log) + more), v), SnapshotOf(Latest(log + more), v))
    ensures SameReads(Compact(log) + more, log + more)
  {
    forall n ensures Current(Compact(log), n) == Current(log, n) && LastBeat(Compact(log), n) == LastBeat(log, n) {
      CompactReads(log, n);
    }
    SameReadsAppend(Compact(log), log, more);
    SameReadsSameSnapshot(Compact(log) + more, log + more, v);
  }

  lemma SameReadsSameSnapshot(a: Log, b: Log, v: View)
    requires SameReads(a, b)
    ensures SameSnapshot(SnapshotOf(Latest(a), v), SnapshotOf(Latest(b), v))
  {
    forall n ensures Find(Latest(a), n) == Find(Latest(b), n) {
      LatestIsCurrent(a, n);
      LatestIsCurrent(b, n);
      assert Current(a, n) == Current(b, n);
    }
    LatestIsCurrent(a, "");
    LatestIsCurrent(b, "");
    SameFindsSameEvents(Latest(a), Latest(b));
    SnapshotOrder(Latest(a), Latest(b), v);
  }

  // ----- what compaction leaves -----

  // ----- the events that are not heartbeats, and those that are -----

  function Heartbeats(log: Log): Log {
    if |log| == 0 then [] else if log[0].Heartbeat? then [log[0]] + Heartbeats(log[1..]) else Heartbeats(log[1..])
  }

  function OtherEvents(log: Log): Log {
    if |log| == 0 then [] else if log[0].Heartbeat? then OtherEvents(log[1..]) else [log[0]] + OtherEvents(log[1..])
  }

  /** Compaction leaves the events that are not heartbeats alone: all of them, each copy, in their order. */
  lemma {:induction false} CompactKeepsOthers(log: Log)
    ensures OtherEvents(Compact(log)) == OtherEvents(log)
  {
    if |log| > 0 {
      CompactKeepsOthers(log[1..]);
      assert ([log[0]] + Compact(log[1..]))[1..] == Compact(log[1..]);
    }
  }

  lemma {:induction false} BeatsHave(log: Log, n: NodeId)
    ensures HasBeat(Heartbeats(log), n) <==> HasBeat(log, n)
  {
    if |log| > 0 {
      var e, rest := log[0], log[1..];
      BeatsHave(rest, n);
      assert log == [e] + rest;
      MentionFront(e, rest, n);
      MentionFront(e, Heartbeats(rest), n);
    }
  }

  /** Compacting and reading the heartbeats commute. */
  lemma {:induction false} BeatsCompact(log: Log)
    ensures Heartbeats(Compact(log)) == Compact(Heartbeats(log))
  {
    if |log| > 0 {
      var e, rest := log[0], log[1..];
      BeatsCompact(rest);
      assert ([e] + Compact(rest))[1..] == Compact(rest);
      assert ([e] + Heartbeats(rest))[1..] == Heartbeats(rest);
      if e.Heartbeat? { BeatsHave(rest, e.beat.node); }
    }
  }

  lemma {:induction false} BeatsSnoc(log: Log, e: Event)
    ensures Heartbeats(log + [e]) == Heartbeats(log) + if e.Heartbeat? then [e] else []
  {
    if |log| == 0 {
      assert log + [e] == [e];
    } else {
      assert (log + [e])[1..] == log[1..] + [e];
      BeatsSnoc(log[1..], e);
    }
  }

  /** What the allocator reads is the replay of the heartbeats alone. */
  lemma {:induction false} HeardIsReplay(log: Log)
    ensures Heard(log) == Latest(Heartbeats(log))
  {
    if |log| > 0 {
      var front, e := log[..|log| - 1], log[|log| - 1];
      assert log == front + [e];
      HeardIsReplay(front);
      BeatsSnoc(front, e);
      if e.Heartbeat? {
        assert (Heartbeats(front) + [e])[..|Heartbeats(front)|] == Heartbeats(front);
        assert Latest(Heartbeats(front) + [e]) == SetLatest(Latest(Heartbeats(front)), e);
      } else {
        assert Heartbeats(front) + [] == Heartbeats(front);
      }
    }
  }

  /** Every heartbeat in the log is the last one of its node. */
  predicate OnlyLatest(log: Log) {
    forall i, j :: 0 <= i < j < |log| && log[i].Heartbeat? ==> !BeatOf(log[j], log[i].beat.node)
  }

  lemma {:induction false} CompactOnlyLatest(log: Log)
    ensures OnlyLatest(Compact(log)) && |Compact(log)| <= |log|
    ensures forall e :: e in Compact(log) ==> e in log
    ensures forall e :: e in log && !e.Heartbeat? ==> e in Compact(log)
  {
    if |log| > 0 {
      var e, rest := log[0], Compact(log[1..]);
      CompactOnlyLatest(log[1..]);
      assert log == [e] + log[1..];
      if !Superseded(e, log[1..]) {
        assert Compact(log) == [e] + rest;
        if e.Heartbeat? {
          CompactReads(log[1..], e.beat.node);
          forall j | 0 <= j < |rest| ensures !BeatOf(rest[j], e.beat.node) {}
        }
      }
    }
  }

  // ----- order -----

  /** Position of the last heartbeat of `n`. */
  function LastAt(log: Log, n: NodeId): nat {
    if |log| == 0 then 0
    else if HasBeat(log[1..], n) then 1 + LastAt(log[1..], n) else 0
  }

  /** The current heartbeats in the order of the log. */
  function LiveBeats(log: Log): Log {
    if |log| == 0 then []
    else if log[0].Heartbeat? && !Mentions(log[1..], log[0].beat.node) then [log[0]] + LiveBeats(log[1..])
    else LiveBeats(log[1..])
  }

  predicate Earlier(log: Log, x: Event, y: Event) {
    x.Heartbeat? && y.Heartbeat? ==> LastAt(log, x.beat.node) < LastAt(log, y.beat.node)
  }

  /** The nodes of `d` are listed by their latest heartbeat. */
  predicate ByLatestBeat(log: Log, d: Log) {
    forall i, j :: 0 <= i < j < |d| ==> Earlier(log, d[i], d[j])
  }

  function LiveAfter(d: Log, e: Event): Log {
    match e
    case Heartbeat(_, _, _, b) => Without(d, b.node) + [e]
    case NodeLeft(_, n) => Without(d, n)
    case Note(_, _) => d
  }

  lemma MentionBack(log: Log, e: Event, n: NodeId)
    ensures Mentions(log + [e], n) <==> Mentions(log, n) || Mention(e, n)
  {
    assert (log + [e])[|log|] == e;
    if i :| 0 <= i < |log| && Mention(log[i], n) { assert Mention((log + [e])[i], n); }
  }

  lemma LiveAfterCons(h: Event, d: Log, e: Event)
    requires h.Heartbeat?
    ensures LiveAfter([h] + d, e) == if Mention(e, h.beat.node) then LiveAfter(d, e) else [h] + LiveAfter(d, e)
  {
    assert ([h] + d)[1..] == d;
  }

  lemma {:induction false} LiveBeatsSnoc(log: Log, e: Event)
    ensures LiveBeats(log + [e]) == LiveAfter(LiveBeats(log), e)
  {
    if |log| == 0 {
      assert log + [e] == [e];
    } else {
      var h, rest := log[0], log[1..];
      assert (log + [e])[0] == h && (log + [e])[1..] == rest + [e];
      LiveBeatsSnoc(rest, e);
      if h.Heartbeat? {
        MentionBack(rest, e, h.beat.node);
        LiveAfterCons(h, LiveBeats(rest), e);
      }
    }
  }

  lemma {:induction false} LiveBeatsCompact(log: Log)
    ensures LiveBeats(Compact(log)) == LiveBeats(log)
  {
    if |log| > 0 {
      var e, rest, c := log[0], log[1..], Compact(log[1..]);
      LiveBeatsCompact(rest);
      if !Superseded(e, rest) {
        assert ([e] + c)[1..] == c;
        if e.Heartbeat? { CompactReads(rest, e.beat.node); }
      } else {
        MentionFront(e, rest, e.beat.node);
      }
    }
  }

  lemma {:induction false} WithoutAbsent(d: Log, n: NodeId)
    requires forall e :: e in d ==> !BeatOf(e, n)
    ensures Without(d, n) == d
  {
    if |d| > 0 { WithoutAbsent(d[1..], n); }
  }

  lemma {:induction false} SetLatestAbsent(d: Log, e: Event)
    requires e.Heartbeat? && forall x :: x in d ==> !BeatOf(x, e.beat.node)
    ensures SetLatest(d, e) == d + [e]
  {
    if |d| > 0 { SetLatestAbsent(d[1..], e); }
  }

  lemma {:induction false} LiveBeatsIn(log: Log)
    ensures forall e :: e in LiveBeats(log) ==> e in log && e.Heartbeat?
  {
    if |log| > 0 { LiveBeatsIn(log[1..]); assert log == [log[0]] + log[1..]; }
  }

  /** With one heartbeat per node, replay lists the current ones in the order of the log. */
  lemma {:induction false} ReplayOfCompacted(log: Log)
    requires OnlyLatest(log)
    ensures Latest(log) == LiveBeats(log)
  {
    if |log| > 0 {
      var init, e := log[..|log| - 1], log[|log| - 1];
      ReplayOfCompacted(init);
      LiveBeatsSnoc(init, e);
      assert log == init + [e];
      LiveBeatsIn(init);
      if e.Heartbeat? {
        forall x | x in LiveBeats(init) ensures !BeatOf(x, e.beat.node) {
          var i :| 0 <= i < |init| && init[i] == x;
          assert log[i] == x && !BeatOf(log[|log| - 1], log[i].beat.node);
        }
        WithoutAbsent(LiveBeats(init), e.beat.node);
        SetLatestAbsent(LiveBeats(init), e);
      }
    }
  }

  lemma LastAtFront(h: Event, rest: Log, n: NodeId)
    requires HasBeat(rest, n)
    ensures HasBeat([h] + rest, n) && LastAt([h] + rest, n) == 1 + LastAt(rest, n)
  {
    MentionFront(h, rest, n);
    assert ([h] + rest)[1..] == rest;
  }

  lemma {:induction false} LiveBeatsSorted(log: Log)
    ensures ByLatestBeat(log, LiveBeats(log))
    ensures forall e :: e in LiveBeats(log) ==> e.Heartbeat? && HasBeat(log, e.beat.node)
  {
    if |log| > 0 {
      var h, rest, d := log[0], log[1..], LiveBeats(log[1..]);
      assert log == [h] + rest;
      LiveBeatsSorted(rest);
      forall e | e in d ensures HasBeat(log, e.beat.node) && LastAt(log, e.beat.node) == 1 + LastAt(rest, e.beat.node) {
        LastAtFront(h, rest, e.beat.node);
      }
      forall i, j | 0 <= i < j < |d| ensures Earlier(log, d[i], d[j]) {
        assert Earlier(rest, d[i], d[j]) && d[i] in d && d[j] in d;
      }
      if h.Heartbeat? && !Mentions(rest, h.beat.node) { HeadSorted(log, h, rest, d); }
    }
  }

  lemma HeadSorted(log: Log, h: Event, rest: Log, d: Log)
    requires log == [h] + rest && h.Heartbeat? && !Mentions(rest, h.beat.node)
    requires ByLatestBeat(log, d) && forall e :: e in d ==> e.Heartbeat? && LastAt(log, e.beat.node) > 0
    ensures ByLatestBeat(log, [h] + d) && HasBeat(log, h.beat.node)
  {
    MentionFront(h, rest, h.beat.node);
    assert log[1..] == rest && LastAt(log, h.beat.node) == 0;
    forall j | 0 <= j < |d| ensures Earlier(log, h, d[j]) { assert d[j] in d; }
    var s := [h] + d;
    forall i, j | 0 <= i < j < |s| ensures Earlier(log, s[i], s[j]) {
      if i > 0 { assert s[i] == d[i - 1] && s[j] == d[j - 1]; } else { assert s[j] == d[j - 1]; }
    }
  }

  lemma HeadFirst(log: Log, d: Log, x: Event)
    requires DistinctNodes(d) && ByLatestBeat(log, d) && |d| > 0 && x in multiset(d)
    ensures x == d[0] || LastAt(log, d[0].beat.node) < LastAt(log, x.beat.node)
  {
    var i :| 0 <= i < |d| && d[i] == x;
    if i > 0 { assert Earlier(log, d[0], d[i]); }
  }

  lemma {:induction false} SameListing(log: Log, d: Log, e: Log)
    requires DistinctNodes(d) && DistinctNodes(e) && multiset(d) == multiset(e)
    requires ByLatestBeat(log, d) && ByLatestBeat(log, e)
    ensures d == e
    decreases |d|
  {
    if |d| == 0 {
      assert |multiset(e)| == |e|;
    } else {
      assert |multiset(d)| == |multiset(e)| && |e| > 0;
      assert d[0] in multiset(e) && e[0] in multiset(d);
      HeadFirst(log, d, e[0]);
      HeadFirst(log, e, d[0]);
      var x, d', e' := d[0], d[1..], e[1..];
      assert d == [x] + d' && e == [x] + e';
      CancelHead(x, d', e');
      DistinctTail(d);
      DistinctTail(e);
      TailSorted(log, d);
      TailSorted(log, e);
      SameListing(log, d', e');
    }
  }

  lemma TailSorted(log: Log, d: Log)
    requires ByLatestBeat(log, d) && |d| > 0
    ensures ByLatestBeat(log, d[1..])
  {
    assert forall i :: 0 <= i < |d| - 1 ==> d[1..][i] == d[i + 1];
  }

  /** Exactly when a compaction leaves the order of the snapshot as it was: the nodes must already
      be listed by their latest heartbeat. */
  lemma OrderKeptIff(log: Log)
    ensures Latest(Compact(log)) == Latest(log) <==> ByLatestBeat(log, Latest(log))
  {
    CompactOnlyLatest(log);
    ReplayOfCompacted(Compact(log));
    LiveBeatsCompact(log);
    LiveBeatsSorted(log);
    var d, e := Latest(log), Latest(Compact(log));
    assert e == LiveBeats(log);
    forall n ensures Find(d, n) == Find(e, n) {
      LatestIsCurrent(log, n);
      LatestIsCurrent(Compact(log), n);
      CompactReads(log, n);
    }
    LatestIsCurrent(log, "");
    LatestIsCurrent(Compact(log), "");
    SameFindsSameEvents(d, e);
    if ByLatestBeat(log, d) { SameListing(log, d, e); }
  }

  lemma LastAtCons(e: Event, rest: Log, n: NodeId)
    ensures LastAt([e] + rest, n) == if HasBeat(rest, n) then 1 + LastAt(rest, n) else 0
  {
    assert ([e] + rest)[1..] == rest;
  }

  /** Leaving out other events does not change which of two nodes was heard last. */
  lemma {:induction false} BeatsKeepOrder(log: Log, x: NodeId, y: NodeId)
    requires x != y && HasBeat(log, x) && HasBeat(log, y)
    ensures LastAt(Heartbeats(log), x) < LastAt(Heartbeats(log), y) <==> LastAt(log, x) < LastAt(log, y)
  {
    var e, rest := log[0], log[1..];
    assert log == [e] + rest;
    MentionFront(e, rest, x);
    MentionFront(e, rest, y);
    BeatsHave(rest, x);
    BeatsHave(rest, y);
    LastAtCons(e, rest, x);
    LastAtCons(e, rest, y);
    LastAtCons(e, Heartbeats(rest), x);
    LastAtCons(e, Heartbeats(rest), y);
    if HasBeat(rest, x) && HasBeat(rest, y) { BeatsKeepOrder(rest, x, y); }
  }

  lemma ListedAlike(log: Log)
    ensures ByLatestBeat(Heartbeats(log), Heard(log)) <==> ByLatestBeat(log, Heard(log))
  {
    var d := Heard(log);
    HeardIsLast(log, "");
    forall i, j | 0 <= i < j < |d| ensures Earlier(Heartbeats(log), d[i], d[j]) <==> Earlier(log, d[i], d[j]) {
      var x, y := d[i].beat.node, d[j].beat.node;
      HeardHasBeat(log, d[i]);
      HeardHasBeat(log, d[j]);
      BeatsKeepOrder(log, x, y);
    }
  }

  lemma HeardHasBeat(log: Log, e: Event)
    requires e in Heard(log) && e.Heartbeat?
    ensures HasBeat(log, e.beat.node)
  {
    HeardIsLast(log, e.beat.node);
    FindIn(Heard(log), e);
    Unheard(log, e.beat.node);
  }

  /** Exactly when a compaction leaves the order of the allocator's input as it was: the nodes ever heard, departed ones
      included, must already be listed by their latest heartbeat. */
  lemma HardwareOrderKeptIff(log: Log)
    ensures Heard(Compact(log)) == Heard(log) <==> ByLatestBeat(log, Heard(log))
  {
    HeardIsReplay(log);
    HeardIsReplay(Compact(log));
    BeatsCompact(log);
    OrderKeptIff(Heartbeats(log));
    ListedAlike(log);
  }

  /** In any order it is the same heartbeats. */
  lemma CompactKeepsHeard(log: Log)
    ensures multiset(Heard(Compact(log))) == multiset(Heard(log))
  {
    forall n ensures Find(Heard(Compact(log)), n) == Find(Heard(log), n) {
      HeardIsLast(log, n);
      HeardIsLast(Compact(log), n);
      CompactReads(log, n);
    }
    HeardIsLast(log, "");
    HeardIsLast(Compact(log), "");
    SameFindsSameEvents(Heard(Compact(log)), Heard(log));
  }

  /** A log whose snapshot changes order: the first node to join is heard again after the second. */
  lemma OrderCanChange(a: Event, b: Event, a': Event)
    requires a.Heartbeat? && b.Heartbeat? && a'.Heartbeat?
    requires a.beat.node == a'.beat.node != b.beat.node
    ensures Latest([a, b, a']) == [a', b] && Latest(Compact([a, b, a'])) == [b, a']
  {
    var log := [a, b, a'];
    assert log[..2] == [a, b] && [a, b][..1] == [a] && [a][..0] == [];
    assert SetLatest([a], b) == [a] + SetLatest([], b) by { assert [a][1..] == []; }
    assert SetLatest([a, b], a') == [a'] + [b] by { assert [a, b][1..] == [b]; }
    assert Latest([a]) == [a];
    assert Latest([a, b]) == [a, b];
    assert log[1..] == [b, a'] && BeatOf(log[1..][1], a.beat.node) && [b, a'][1..] == [a'] && [a'][1..] == [];
    assert !HasBeat([a'], b.beat.node) && !HasBeat([], a'.beat.node);
    assert Compact([a']) == [a'];
    assert Compact([b, a']) == [b] + [a'];
    assert [b, a'][..1] == [b] && [b][..0] == [];
    assert SetLatest([b], a') == [b] + SetLatest([], a') by { assert [b][1..] == []; }
    assert Latest([b]) == [b];
  }
}
