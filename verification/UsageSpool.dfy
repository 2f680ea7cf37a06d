/** The usage spool (mesh/usage.py): one file of newline-ended rows, appended by `emit` and shortened by the drain.

    Rows are byte strings; `parses` says which of them are JSON and `reply` what the receiver answers. */
module UsageSpool {
  import opened Wrappers

  newtype Byte = x: int | 0 <= x < 256
  type Line = seq<Byte>
  type File = seq<Byte>

  const NEWLINE: Byte := 10
  const RETURN: Byte := 13
  const BRACE: Byte := 123
  const MAX_ROW_BYTES := 65536

  predicate Blank(l: Line) {
    forall b :: b in l ==> b in {9, 10, 11, 12, 13, 28, 29, 30, 31, 32}
  }

  predicate Clean(l: Line) { NEWLINE !in l && RETURN !in l && !Blank(l) }
  predicate AllClean(lines: seq<Line>) { forall l :: l in lines ==> Clean(l) }

  // ----- the file format -----

  function Encode(lines: seq<Line>): File {
    if |lines| == 0 then [] else lines[0] + [NEWLINE] + Encode(lines[1..])
  }

  function LineEnd(file: File): (n: nat)
    ensures n <= |file|
    ensures n < |file| ==> file[n] == NEWLINE
    ensures forall i :: 0 <= i < n ==> file[i] != NEWLINE
  {
    if |file| == 0 || file[0] == NEWLINE then 0
    else 1 + LineEnd(file[1..])
  }

  /** The rows that `_read_lines_locked` returns: blank ones are skipped. */
  function ReadLines(file: File): seq<Line>
    decreases |file|
  {
    if |file| == 0 then []
    else
      var n := LineEnd(file);
      (if Blank(file[..n]) then [] else [file[..n]]) + (if n == |file| then [] else ReadLines(file[n + 1..]))
  }

  lemma LineEndAt(l: Line, rest: File)
    requires NEWLINE !in l
    ensures LineEnd(l + [NEWLINE] + rest) == |l|
  {
    var file := l + [NEWLINE] + rest;
    assert file[|l|] == NEWLINE;
    assert forall i :: 0 <= i < |l| ==> file[i] == l[i];
  }

  /** What was written is what is read back. */
  lemma {:induction false} ReadEncoded(lines: seq<Line>)
    requires AllClean(lines)
    ensures ReadLines(Encode(lines)) == lines
  {
    if |lines| > 0 {
      var l, rest := lines[0], Encode(lines[1..]);
      var file := l + [NEWLINE] + rest;
      assert Clean(l);
      LineEndAt(l, rest);
      ReadEncoded(lines[1..]);
      assert file[..|l|] == l && file[|l| + 1..] == rest;
      assert LineEnd(file) == |l|;
      assert ReadLines(file) == [l] + ReadLines(rest);
    }
  }

  lemma {:induction false} EncodeAppend(lines: seq<Line>, more: seq<Line>)
    ensures Encode(lines + more) == Encode(lines) + Encode(more)
  {
    if |lines| == 0 {
      assert lines + more == more;
    } else {
      assert (lines + more)[1..] == lines[1..] + more;
      EncodeAppend(lines[1..], more);
    }
  }

  lemma Appended(lines: seq<Line>, line: Line)
    requires AllClean(lines) && NEWLINE !in line && RETURN !in line && |line| > 0 && line[0] == BRACE
    ensures Encode(lines) + (line + [NEWLINE]) == Encode(lines + [line])
    ensures AllClean(lines + [line]) && ReadLines(Encode(lines + [line])) == lines + [line]
  {
    assert Clean(line) by { assert line[0] in line; }
    EncodeAppend(lines, [line]);
    assert Encode([line]) == line + [NEWLINE] + [];
    ReadEncoded(lines + [line]);
  }

  /** White space to Python: the control characters 9 to 13 and 28 to 31, and the blank. */
  predicate AllSpace(l: Line) { forall b :: b in l ==> 9 <= b <= 13 || 28 <= b <= 32 }

  /** Any file is read line by line, and a line of white space alone is skipped; a last line needs no newline. */
  lemma ReadsLineByLine(l: Line, rest: File)
    requires NEWLINE !in l
    ensures ReadLines(l + [NEWLINE] + rest) == (if AllSpace(l) then [] else [l]) + ReadLines(rest)
    ensures ReadLines(l) == if AllSpace(l) then [] else [l]
  {
    var file := l + [NEWLINE] + rest;
    LineEndAt(l, rest);
    assert file[..|l|] == l && file[|l| + 1..] == rest;
    assert Blank(l) <==> AllSpace(l);
    if |l| > 0 { assert LineEnd(l) == |l| && l[..|l|] == l; }
  }

  // ----- removal by identity -----

  /** Drop one row for every copy in `remove`, keep the others in order. */
  function Unconsumed(lines: seq<Line>, remove: multiset<Line>): seq<Line> {
    if |lines| == 0 then []
    else if lines[0] in remove then Unconsumed(lines[1..], remove - multiset{lines[0]})
    else [lines[0]] + Unconsumed(lines[1..], remove)
  }

  /** Removal takes exactly the consumed copies, whatever else is in the file and wherever it is. */
  lemma {:induction false} RemovesExactly(lines: seq<Line>, remove: multiset<Line>)
    ensures multiset(Unconsumed(lines, remove)) == multiset(lines) - remove
  {
    if |lines| > 0 {
      assert lines == [lines[0]] + lines[1..];
      RemovesExactly(lines[1..], if lines[0] in remove then remove - multiset{lines[0]} else remove);
    }
  }

  /** Consumed rows that are still at the head come off as a prefix: no pending row moves or is lost. */
  lemma {:induction false} RemovesPrefix(lines: seq<Line>, consumed: seq<Line>)
    requires consumed <= lines
    ensures Unconsumed(lines, multiset(consumed)) == lines[|consumed|..]
  {
    if |lines| > 0 && |consumed| > 0 {
      assert consumed == [consumed[0]] + consumed[1..];
      assert multiset(consumed) - multiset{consumed[0]} == multiset(consumed[1..]);
      RemovesPrefix(lines[1..], consumed[1..]);
    } else {
      NothingRemoved(lines);
    }
  }

  lemma {:induction false} NothingRemoved(lines: seq<Line>)
    ensures Unconsumed(lines, multiset{}) == lines
  {
    if |lines| > 0 { NothingRemoved(lines[1..]); }
  }

  // ----- emit and drain as functions -----

  datatype EmitResult = Spooled | Oversized | Overflow
  datatype Verdict = Delivered | Poison | Transient | Corrupt

  function EmitVerdict(lines: seq<Line>, line: Line, hardCap: int): EmitResult {
    if NEWLINE in line || RETURN in line then Oversized
    else if |line| + 1 > MAX_ROW_BYTES then Oversized
    else if |Encode(lines)| + |line| + 1 > hardCap then Overflow
    else Spooled
  }

  function AfterEmit(lines: seq<Line>, line: Line, hardCap: int): seq<Line> {
    if EmitVerdict(lines, line, hardCap).Spooled? then lines + [line] else lines
  }

  /** `_post_one`: a transport failure is `None`. */
  function ReplyVerdict(reply: Option<int>): Verdict {
    if reply.None? then Transient
    else if 200 <= reply.value < 300 then Delivered
    else if 400 <= reply.value < 500 then Poison
    else Transient
  }

  /** An event enters the spool exactly when it holds no line break, takes at most 64 KiB with its newline, and leaves the
      file within the hard cap; otherwise the newest event, this one, is dropped and the file stays as it was. */
  lemma EmitAdmitsIff(lines: seq<Line>, line: Line, hardCap: int)
    ensures var admitted := 10 !in line && 13 !in line && |line| < 65536 && |Encode(lines + [line])| <= hardCap;
            AfterEmit(lines, line, hardCap) == if admitted then lines + [line] else lines
    ensures EmitVerdict(lines, line, hardCap).Overflow? ==> |line| < 65536 && 10 !in line && 13 !in line
    ensures EmitVerdict(lines, line, hardCap).Oversized? ==> |line| >= 65536 || 10 in line || 13 in line
  {
    EncodeAppend(lines, [line]);
    assert Encode([line]) == line + [NEWLINE] + [];
  }

  type Parses = Line -> bool
  type Replies = nat -> Option<int>

  /** The receiver took the event, or refused it for good. */
  predicate Taken(reply: Option<int>) { reply.Some? && 200 <= reply.value <= 299 }
  predicate Refused(reply: Option<int>) { reply.Some? && 400 <= reply.value <= 499 }

  /** The row need not be sent again: it is no event, or it was taken or refused. */
  predicate Final(row: Line, reply: Option<int>, parses: Parses) {
    !parses(row) || Taken(reply) || Refused(reply)
  }

  function VerdictAt(batch: seq<Line>, i: nat, parses: Parses, replies: Replies): Verdict
    requires i < |batch|
  {
    if !parses(batch[i]) then Corrupt else ReplyVerdict(replies(i))
  }

  /** The first row of a batch that stays for a later pass. */
  function StopAt(batch: seq<Line>, from: nat, parses: Parses, replies: Replies): (n: nat)
    requires from <= |batch|
    ensures from <= n <= |batch|
    decreases |batch| - from
  {
    if from == |batch| || VerdictAt(batch, from, parses, replies).Transient? then from
    else StopAt(batch, from + 1, parses, replies)
  }

  lemma StopsAtFirstTransient(batch: seq<Line>, from: nat, parses: Parses, replies: Replies)
    requires from <= |batch|
    ensures var n := StopAt(batch, from, parses, replies);
            && (n < |batch| ==> VerdictAt(batch, n, parses, replies).Transient?)
            && forall i: nat :: from <= i < n ==> !VerdictAt(batch, i, parses, replies).Transient?
    decreases |batch| - from
  {}

  function Tally(batch: seq<Line>, n: nat, v: Verdict, parses: Parses, replies: Replies): nat
    requires n <= |batch|
  {
    if n == 0 then 0
    else Tally(batch, n - 1, v, parses, replies) + if VerdictAt(batch, n - 1, parses, replies) == v then 1 else 0
  }

  /** A reply of the 200s means delivered, one of the 400s refused; no reply, or any other, leaves the row for later. */
  lemma VerdictMeans(batch: seq<Line>, i: nat, parses: Parses, replies: Replies)
    requires i < |batch|
    ensures var v := VerdictAt(batch, i, parses, replies);
            && (v.Corrupt? <==> !parses(batch[i]))
            && (v.Delivered? <==> parses(batch[i]) && Taken(replies(i)))
            && (v.Poison? <==> parses(batch[i]) && Refused(replies(i)))
            && (v.Transient? <==> !Final(batch[i], replies(i), parses))
  {}

  predicate HasVerdict(batch: seq<Line>, i: nat, v: Verdict, parses: Parses, replies: Replies) {
    i < |batch| && VerdictAt(batch, i, parses, replies) == v
  }

  /** The rows up to `n` with that verdict. */
  function Places(batch: seq<Line>, n: nat, v: Verdict, parses: Parses, replies: Replies): set<nat> {
    set i: nat | i < n && HasVerdict(batch, i, v, parses, replies)
  }

  lemma PlacesSnoc(batch: seq<Line>, n: nat, v: Verdict, parses: Parses, replies: Replies)
    ensures Places(batch, n + 1, v, parses, replies)
            == Places(batch, n, v, parses, replies) + if HasVerdict(batch, n, v, parses, replies) then {n} else {}
  {}

  lemma {:induction false} TallyCounts(batch: seq<Line>, n: nat, v: Verdict, parses: Parses, replies: Replies)
    requires n <= |batch|
    ensures Tally(batch, n, v, parses, replies) == |Places(batch, n, v, parses, replies)|
  {
    if n == 0 {
      assert Places(batch, n, v, parses, replies) == {};
    } else {
      TallyCounts(batch, n - 1, v, parses, replies);
      PlacesSnoc(batch, n - 1, v, parses, replies);
    }
  }

  /** What a pass reports. */
  datatype DrainResult = DrainResult(delivered: nat, poison: nat, corrupt: nat, posted: nat, stopped: bool)

  function Counts(batch: seq<Line>, n: nat, parses: Parses, replies: Replies): DrainResult
    requires n <= |batch|
  {
    var delivered, poison := Tally(batch, n, Delivered, parses, replies), Tally(batch, n, Poison, parses, replies);
    DrainResult(delivered, poison, Tally(batch, n, Corrupt, parses, replies), delivered + poison, false)
  }

  /** A transient reply is posted, but its row is not counted as done. */
  function ResultOf(batch: seq<Line>, parses: Parses, replies: Replies): DrainResult {
    var n := StopAt(batch, 0, parses, replies);
    var counts := Counts(batch, n, parses, replies);
    if n < |batch| then counts.(posted := counts.posted + 1, stopped := true) else counts
  }

  /** What a pass is done with, and what it reports, in terms of the replies: it goes on to the first row that is not
      final, and counts the rows before it by what became of them. */
  ghost predicate Accounts(batch: seq<Line>, n: nat, res: DrainResult, parses: Parses, replies: Replies) {
    && n <= |batch| && (forall i: nat :: i < n ==> Final(batch[i], replies(i), parses))
    && (n < |batch| ==> !Final(batch[n], replies(n), parses)) && res.stopped == (n < |batch|)
    && res.delivered == |set i: nat | i < n && parses(batch[i]) && Taken(replies(i))|
    && res.poison == |set i: nat | i < n && parses(batch[i]) && Refused(replies(i))|
    && res.corrupt == |set i: nat | i < n && !parses(batch[i])|
    && res.posted == res.delivered + res.poison + if res.stopped then 1 else 0
  }

  lemma StopsAtFirstOpen(batch: seq<Line>, parses: Parses, replies: Replies)
    ensures var n := StopAt(batch, 0, parses, replies);
            && (forall i: nat :: i < n ==> Final(batch[i], replies(i), parses))
            && (n < |batch| ==> !Final(batch[n], replies(n), parses))
  {
    StopsAtFirstTransient(batch, 0, parses, replies);
    forall i: nat | i < |batch| ensures VerdictAt(batch, i, parses, replies).Transient? <==> !Final(batch[i], replies(i), parses) {
      VerdictMeans(batch, i, parses, replies);
    }
  }

  lemma ResultAccounts(batch: seq<Line>, parses: Parses, replies: Replies)
    ensures Accounts(batch, StopAt(batch, 0, parses, replies), ResultOf(batch, parses, replies), parses, replies)
  {
    var n := StopAt(batch, 0, parses, replies);
    StopsAtFirstOpen(batch, parses, replies);
    PlacesAre(batch, n, parses, replies);
    TallyCounts(batch, n, Delivered, parses, replies);
    TallyCounts(batch, n, Poison, parses, replies);
    TallyCounts(batch, n, Corrupt, parses, replies);
  }

  lemma PlacesAre(batch: seq<Line>, n: nat, parses: Parses, replies: Replies)
    requires n <= |batch|
    ensures Places(batch, n, Delivered, parses, replies) == set i: nat | i < n && parses(batch[i]) && Taken(replies(i))
    ensures Places(batch, n, Poison, parses, replies) == set i: nat | i < n && parses(batch[i]) && Refused(replies(i))
    ensures Places(batch, n, Corrupt, parses, replies) == set i: nat | i < n && !parses(batch[i])
  {
    forall i: nat | i < n
      ensures var v := VerdictAt(batch, i, parses, replies);
              && (v.Corrupt? <==> !parses(batch[i]))
              && (v.Delivered? <==> parses(batch[i]) && Taken(replies(i)))
              && (v.Poison? <==> parses(batch[i]) && Refused(replies(i)))
    {
      VerdictMeans(batch, i, parses, replies);
    }
  }

  class SpoolDrainSink {
    const hardCap: int
    const batchMax: nat
    var file: File
    var spooled: nat
    var oversized: nat
    var overflow: nat
    var poison: nat
    var corrupt: nat

    ghost predicate Valid()
      reads this
    {
      AllClean(ReadLines(file)) && file == Encode(ReadLines(file))
    }

    /** The rows of the spool, oldest first. */
    ghost function Lines(): seq<Line>
      reads this
    {
      ReadLines(file)
    }

    constructor (found: seq<Line>, hardCap: int, batchMax: nat)
      requires AllClean(found)
      ensures Valid() && Lines() == found && this.hardCap == hardCap && this.batchMax == batchMax
    {
      this.hardCap, this.batchMax := hardCap, batchMax;
      file := Encode(found);
      spooled, oversized, overflow, poison, corrupt := 0, 0, 0, 0, 0;
      new;
      ReadEncoded(found);
    }

    /** `line` is the canonical JSON of an object, so it starts with a brace. */
    method Emit(line: Line)
      requires Valid() && |line| > 0 && line[0] == BRACE
      modifies this
      ensures Lines() == AfterEmit(old(Lines()), line, hardCap) && Valid()
      ensures var v := EmitVerdict(old(Lines()), line, hardCap);
              && spooled == old(spooled) + (if v.Spooled? then 1 else 0)
              && oversized == old(oversized) + (if v.Oversized? then 1 else 0)
              && overflow == old(overflow) + (if v.Overflow? then 1 else 0)
      ensures poison == old(poison) && corrupt == old(corrupt)
    {
      if NEWLINE in line || RETURN in line {
        oversized := oversized + 1;
        return;
      }
      var data := line + [NEWLINE];
      if |data| > MAX_ROW_BYTES {
        oversized := oversized + 1;
        return;
      }
      var size := |file|;
      if size + |data| > hardCap {
        overflow := overflow + 1;
        return;
      }
      ghost var lines := Lines();
      file := file + data;
      spooled := spooled + 1;
      Appended(lines, line);
    }

    method Rewrite(lines: seq<Line>)
      requires AllClean(lines)
      modifies this`file
      ensures Lines() == lines && Valid()
    {
      var content: File := [];
      for i := 0 to |lines|
        invariant content == Encode(lines[..i])
        invariant file == old(file)
      {
        EncodeAppend(lines[..i], [lines[i]]);
        assert lines[..i + 1] == lines[..i] + [lines[i]];
        assert Encode([lines[i]]) == lines[i] + [NEWLINE] + [];
        content := content + lines[i] + [NEWLINE];
      }
      assert lines[..|lines|] == lines;
      file := content;
      ReadEncoded(lines);
    }

    static method Kept(current: seq<Line>, consumed: seq<Line>) returns (kept: seq<Line>)
      ensures kept == Unconsumed(current, multiset(consumed))
    {
      var remove := multiset(consumed);
      kept := [];
      for i := 0 to |current|
        invariant kept + Unconsumed(current[i..], remove) == Unconsumed(current, multiset(consumed))
      {
        if current[i] in remove {
          remove := remove - multiset{current[i]};
        } else {
          kept := kept + [current[i]];
        }
      }
    }

    /** `_remove_lines_locked`. */
    method RemoveLines(consumed: seq<Line>)
      requires Valid()
      modifies this`file
      ensures Lines() == Unconsumed(old(Lines()), multiset(consumed)) && Valid()
      ensures multiset(Lines()) == multiset(old(Lines())) - multiset(consumed)
    {
      var current := ReadLines(file);
      var kept := Kept(current, consumed);
      RemovesExactly(current, multiset(consumed));
      forall l | l in kept ensures Clean(l) { assert l in multiset(kept) && l in multiset(current); }
      Rewrite(kept);
    }

    /** The posting loop of `drain_once`: it is done with the rows up to the first transient reply, and each of them is
        counted once. */
    method Post(batch: seq<Line>, parses: Parses, replies: Replies) returns (consumed: seq<Line>, res: DrainResult)
      modifies this`poison, this`corrupt
      ensures consumed == batch[..StopAt(batch, 0, parses, replies)] && res == ResultOf(batch, parses, replies)
      ensures forall i: nat :: i < |consumed| ==> Final(batch[i], replies(i), parses)
      ensures |consumed| < |batch| ==> !Final(batch[|consumed|], replies(|consumed|), parses)
      ensures res.stopped == (|consumed| < |batch|) && |consumed| == res.delivered + res.poison + res.corrupt
      ensures poison == old(poison) + res.poison && corrupt == old(corrupt) + res.corrupt
    {
      consumed, res := [], DrainResult(0, 0, 0, 0, false);
      StopsAtFirstOpen(batch, parses, replies);
      for i := 0 to |batch|
        invariant consumed == batch[..i] && StopAt(batch, i, parses, replies) == StopAt(batch, 0, parses, replies)
        invariant res == Counts(batch, i, parses, replies)
        invariant poison == old(poison) + res.poison && corrupt == old(corrupt) + res.corrupt
        invariant i == res.delivered + res.poison + res.corrupt
      {
        if !parses(batch[i]) {
          corrupt := corrupt + 1;
          res := res.(corrupt := res.corrupt + 1);
          consumed := consumed + [batch[i]];
          continue;
        }
        var verdict := ReplyVerdict(replies(i));
        res := res.(posted := res.posted + 1);
        match verdict {
          case Delivered =>
            res := res.(delivered := res.delivered + 1);
            consumed := consumed + [batch[i]];
          case Poison =>
            poison := poison + 1;
            res := res.(poison := res.poison + 1);
            consumed := consumed + [batch[i]];
          case _ =>
            res := res.(stopped := true);
            return;
        }
      }
    }

    /** A pass during which nothing else runs. */
    method DrainOnce(parses: Parses, replies: Replies) returns (res: DrainResult)
      requires Valid()
      modifies this`file, this`poison, this`corrupt
      ensures var batch := Take(old(Lines()), batchMax);
              Lines() == old(Lines())[StopAt(batch, 0, parses, replies)..] && res == ResultOf(batch, parses, replies)
      ensures |old(Lines())| == |Lines()| + res.delivered + res.poison + res.corrupt
      ensures poison == old(poison) + res.poison && corrupt == old(corrupt) + res.corrupt
      ensures Valid()
    {
      var lines := ReadLines(file);
      if |lines| == 0 { return DrainResult(0, 0, 0, 0, false); }
      var batch := Take(lines, batchMax);
      var consumed;
      consumed, res := Post(batch, parses, replies);
      if |consumed| > 0 {
        RemovesPrefix(lines, consumed);
        RemoveLines(consumed);
      }
    }
  }
}
