/** Runs of the usage spool (mesh/usage.py): emits may happen between any two steps of a drain pass, there is one
    drainer, and a crash may end a pass anywhere. What the drain holds in memory is `Pass`; `arrived` and `handled`
    are the history the guarantees speak of. */
module SpoolRuns {
  import opened Wrappers
  import opened UsageSpool

  datatype Pass = Resting | Posting(batch: seq<Line>, consumed: seq<Line>) | Removing(consumed: seq<Line>)

  /** Row `row`, the `at`-th that ever arrived, got a verdict that ends its stay. */
  datatype Handling = Handling(at: nat, row: Line, verdict: Verdict)

  datatype World = World(lines: seq<Line>, pass: Pass, arrived: seq<Line>, handled: seq<Handling>)

  datatype Step =
    | Emit(line: Line)
    | Begin
    | Answer(reply: Option<int>)
    | Finish
    | Crash

  datatype Settings = Settings(hardCap: int, batchMax: nat, parses: Parses)

  predicate Enabled(w: World, s: Step) {
    match s
    case Emit(line) => |line| > 0 && line[0] == BRACE
    case Begin => w.pass.Resting?
    case Answer(_) => w.pass.Posting? && |w.pass.consumed| < |w.pass.batch|
    case Finish => w.pass.Removing? || (w.pass.Posting? && |w.pass.consumed| >= |w.pass.batch|)
    case Crash => true
  }

  /** How many rows have left the spool. */
  function Removed(w: World): nat {
    if |w.lines| <= |w.arrived| then |w.arrived| - |w.lines| else 0
  }

  function Next(w: World, cfg: Settings, s: Step): World
    requires Enabled(w, s)
  {
    match s
    case Emit(line) =>
      if EmitVerdict(w.lines, line, cfg.hardCap).Spooled?
      then w.(lines := AfterEmit(w.lines, line, cfg.hardCap), arrived := w.arrived + [line]) else w
    case Begin =>
      if |w.lines| == 0 then w else w.(pass := Posting(Take(w.lines, cfg.batchMax), []))
    case Answer(reply) =>
      var row := w.pass.batch[|w.pass.consumed|];
      var verdict := if cfg.parses(row) then ReplyVerdict(reply) else Corrupt;
      if verdict.Transient? then w.(pass := Removing(w.pass.consumed))
      else
        w.(pass := Posting(w.pass.batch, w.pass.consumed + [row]),
           handled := w.handled + [Handling(Removed(w) + |w.pass.consumed|, row, verdict)])
    case Finish =>
      w.(lines := if |w.pass.consumed| == 0 then w.lines else Unconsumed(w.lines, multiset(w.pass.consumed)),
         pass := Resting)
    case Crash =>
      w.(pass := Resting)
  }

  ghost predicate Behavior(ws: seq<World>, cfg: Settings, steps: seq<Step>) {
    && |ws| == |steps| + 1
    && ws[0].pass.Resting? && ws[0].arrived == ws[0].lines && ws[0].handled == []
    && forall i :: 0 <= i < |steps| ==> Enabled(ws[i], steps[i]) && ws[i + 1] == Next(ws[i], cfg, steps[i])
  }

  // ----- first deliveries happen in the order of arrival -----

  /** How many arrivals have been handled at least once. */
  function Front(h: seq<Handling>): nat {
    if |h| == 0 then 0
    else
      var before, last := Front(h[..|h| - 1]), h[|h| - 1].at;
      if last < before then before else last + 1
  }

  /** No row is handled before one that arrived earlier. */
  predicate InOrder(h: seq<Handling>) {
    |h| == 0 || (h[|h| - 1].at <= Front(h[..|h| - 1]) && InOrder(h[..|h| - 1]))
  }

  lemma HandleOne(h: seq<Handling>, x: Handling)
    requires InOrder(h) && x.at <= Front(h)
    ensures InOrder(h + [x]) && Front(h) <= Front(h + [x]) && x.at < Front(h + [x])
  {
    assert (h + [x])[..|h|] == h;
  }

  ghost predicate HandledAt(h: seq<Handling>, k: nat) {
    exists i :: 0 <= i < |h| && h[i].at == k
  }

  lemma {:induction false} OrderIsComplete(h: seq<Handling>, k: nat)
    requires InOrder(h) && k < Front(h)
    ensures HandledAt(h, k)
  {
    if |h| > 0 {
      if k == h[|h| - 1].at { assert h[|h| - 1].at == k; }
      else {
        OrderIsComplete(h[..|h| - 1], k);
        var i :| 0 <= i < |h| - 1 && h[..|h| - 1][i].at == k;
        assert h[i].at == k;
      }
    }
  }

  // ----- the invariant -----

  function Done(w: World): nat {
    match w.pass
    case Resting => 0
    case Posting(_, consumed) => |consumed|
    case Removing(consumed) => |consumed|
  }

  ghost predicate Inv(w: World) {
    && |w.lines| <= |w.arrived| && w.lines == w.arrived[Removed(w)..]
    && InOrder(w.handled) && Removed(w) + Done(w) <= Front(w.handled)
    && AllGenuine(w)
    && (w.pass.Posting? ==> w.pass.batch <= w.lines && w.pass.consumed <= w.pass.batch)
    && (w.pass.Removing? ==> w.pass.consumed <= w.lines)
  }

  predicate Genuine(w: World, x: Handling) {
    x.at < |w.arrived| && w.arrived[x.at] == x.row && !x.verdict.Transient?
  }

  predicate AllGenuine(w: World) {
    forall x :: x in w.handled ==> Genuine(w, x)
  }

  lemma StillGenuine(w: World, t: World)
    requires AllGenuine(w) && w.arrived <= t.arrived
    requires t.handled == w.handled || (|t.handled| == |w.handled| + 1 && t.handled[..|w.handled|] == w.handled
                                        && Genuine(t, t.handled[|w.handled|]))
    ensures AllGenuine(t)
  {
    forall x | x in t.handled ensures Genuine(t, x) {
      var i :| 0 <= i < |t.handled| && t.handled[i] == x;
      if i < |w.handled| { assert w.handled[i] == x && Genuine(w, x); }
    }
  }

  lemma EmitKeeps(w: World, cfg: Settings, line: Line)
    requires Inv(w) && Enabled(w, Emit(line))
    ensures Inv(Next(w, cfg, Emit(line)))
  {
    var t := Next(w, cfg, Emit(line));
    StillGenuine(w, t);
    if t != w {
      assert t.lines == w.lines + [line];
      assert t.arrived[Removed(t)..] == w.arrived[Removed(w)..] + [line];
      assert w.lines <= t.lines;
    }
  }

  lemma AnswerKeeps(w: World, cfg: Settings, reply: Option<int>)
    requires Inv(w) && Enabled(w, Answer(reply))
    ensures Inv(Next(w, cfg, Answer(reply)))
  {
    var t, n := Next(w, cfg, Answer(reply)), |w.pass.consumed|;
    assert w.lines[n] == w.pass.batch[n] && w.lines[n] == w.arrived[Removed(w) + n];
    assert w.pass.consumed <= w.lines;
    if t.pass.Posting? {
      var x := t.handled[|w.handled|];
      HandleOne(w.handled, x);
      assert t.pass.consumed <= t.pass.batch;
      assert Genuine(t, x);
      StillGenuine(w, t);
    }
  }

  lemma FinishKeeps(w: World, cfg: Settings)
    requires Inv(w) && Enabled(w, Finish)
    ensures Inv(Next(w, cfg, Finish))
  {
    var t := Next(w, cfg, Finish);
    assert w.pass.consumed <= w.lines;
    RemovesPrefix(w.lines, w.pass.consumed);
    assert t.lines == w.lines[|w.pass.consumed|..] == t.arrived[Removed(t)..];
    StillGenuine(w, t);
  }

  lemma StepKeeps(w: World, cfg: Settings, s: Step)
    requires Inv(w) && Enabled(w, s)
    ensures Inv(Next(w, cfg, s))
  {
    match s
    case Emit(line) => EmitKeeps(w, cfg, line);
    case Answer(reply) => AnswerKeeps(w, cfg, reply);
    case Finish => FinishKeeps(w, cfg);
    case _ => StillGenuine(w, Next(w, cfg, s));
  }

  lemma {:induction false} RunKeeps(ws: seq<World>, cfg: Settings, steps: seq<Step>, n: nat)
    requires Behavior(ws, cfg, steps) && n <= |steps|
    ensures Inv(ws[n])
  {
    if n > 0 {
      RunKeeps(ws, cfg, steps, n - 1);
      StepKeeps(ws[n - 1], cfg, steps[n - 1]);
    }
  }

  // ----- what replies do -----

  /** At this step the `k`-th arrival is settled: it is no event, or the receiver took it or refused it. */
  predicate Settles(w: World, cfg: Settings, s: Step, k: nat) {
    && s.Answer? && w.pass.Posting? && |w.pass.consumed| < |w.pass.batch| && k == Removed(w) + |w.pass.consumed|
    && Final(w.pass.batch[|w.pass.consumed|], s.reply, cfg.parses)
  }

  /** The verdict is the one that the reply of this step gives the `k`-th arrival. */
  predicate Earned(w: World, cfg: Settings, s: Step, x: Handling) {
    && Settles(w, cfg, s, x.at) && w.pass.batch[|w.pass.consumed|] == x.row
    && (x.verdict.Corrupt? <==> !cfg.parses(x.row))
    && (x.verdict.Delivered? <==> cfg.parses(x.row) && Taken(s.reply))
    && (x.verdict.Poison? <==> cfg.parses(x.row) && Refused(s.reply))
  }

  /** A reply that settles the row adds one verdict, on this row, and the pass goes on to the next one; with any other
      reply, or none, nothing is handled and the pass ends. The spool itself stays as it is. */
  lemma AnswerSettlesIff(w: World, cfg: Settings, s: Step)
    requires s.Answer? && Enabled(w, s)
    ensures var t, n := Next(w, cfg, s), |w.pass.consumed|;
            && t.lines == w.lines && t.arrived == w.arrived
            && if Settles(w, cfg, s, Removed(w) + n) then
                 && |t.handled| == |w.handled| + 1 && t.handled[..|w.handled|] == w.handled
                 && Earned(w, cfg, s, t.handled[|w.handled|])
                 && t.pass == Posting(w.pass.batch, w.pass.consumed + [w.pass.batch[n]])
               else t.handled == w.handled && t.pass == Removing(w.pass.consumed)
  {}

  /** An event arrives exactly if it is one line of at most 64 KiB and leaves the file within the hard cap; then it is
      appended, and nothing else ever changes with an emit. */
  lemma EmitSteps(w: World, cfg: Settings, line: Line)
    ensures var admitted := 10 !in line && 13 !in line && |line| < 65536 && |Encode(w.lines + [line])| <= cfg.hardCap;
            Enabled(w, Emit(line)) ==>
              Next(w, cfg, Emit(line)) ==
                if admitted then World(w.lines + [line], w.pass, w.arrived + [line], w.handled) else w
  {
    EmitAdmitsIff(w.lines, line, cfg.hardCap);
    EncodeAppend(w.lines, [line]);
    assert Encode([line]) == line + [NEWLINE] + [];
  }

  /** A pass takes the oldest rows, as many as the batch allows, and does not touch the spool before its removal; a crash
      forgets the pass. */
  lemma PassSteps(w: World, cfg: Settings, s: Step)
    requires Enabled(w, s) && (s.Begin? || s.Crash?)
    ensures var t := Next(w, cfg, s);
            && t.lines == w.lines && t.arrived == w.arrived && t.handled == w.handled
            && (s.Crash? || |w.lines| == 0 ==> t.pass.Resting?)
            && (s.Begin? && |w.lines| > 0 ==>
                  && t.pass.Posting? && t.pass.consumed == [] && t.pass.batch <= w.lines
                  && |t.pass.batch| == if |w.lines| < cfg.batchMax then |w.lines| else cfg.batchMax)
  {}

  /** Over every run each verdict was earned by the reply that the row itself got. */
  lemma {:induction false} VerdictsAreEarned(ws: seq<World>, cfg: Settings, steps: seq<Step>, n: nat, x: Handling)
    requires Behavior(ws, cfg, steps) && n <= |steps| && x in ws[n].handled
    ensures exists i: nat :: i < n && Earned(ws[i], cfg, steps[i], x)
  {
    if n > 0 {
      var w, t, s := ws[n - 1], ws[n], steps[n - 1];
      assert Enabled(w, s) && ws[(n - 1) + 1] == Next(w, cfg, s);
      if s.Answer? { AnswerSettlesIff(w, cfg, s); }
      if x in w.handled {
        VerdictsAreEarned(ws, cfg, steps, n - 1, x);
      } else {
        assert t.handled == w.handled || t.handled == w.handled + [t.handled[|w.handled|]];
        assert Earned(w, cfg, s, x);
      }
    }
  }

  // ----- the guarantees -----

  /** At least once: whatever arrived is still in the spool, at its place, or it was settled: a reply of the receiver took
      it or refused it, or it was no event. */
  lemma NothingIsLost(ws: seq<World>, cfg: Settings, steps: seq<Step>, n: nat, k: nat)
    requires Behavior(ws, cfg, steps) && n <= |steps| && k < |ws[n].arrived|
    ensures k >= Removed(ws[n]) ==> k - Removed(ws[n]) < |ws[n].lines| && ws[n].lines[k - Removed(ws[n])] == ws[n].arrived[k]
    ensures k < Removed(ws[n]) ==> exists i: nat :: i < n && Settles(ws[i], cfg, steps[i], k)
                                                   && ws[i].pass.batch[|ws[i].pass.consumed|] == ws[n].arrived[k]
  {
    var w := ws[n];
    RunKeeps(ws, cfg, steps, n);
    if k < Removed(w) {
      OrderIsComplete(w.handled, k);
      var j :| 0 <= j < |w.handled| && w.handled[j].at == k;
      assert w.handled[j] in w.handled;
      VerdictsAreEarned(ws, cfg, steps, n, w.handled[j]);
      assert Genuine(w, w.handled[j]);
    }
  }

  /** First in, first out: the spool is always the newest part of what arrived, and no row is ever handled before
      one that arrived earlier. */
  lemma FirstInFirstOut(ws: seq<World>, cfg: Settings, steps: seq<Step>, n: nat)
    requires Behavior(ws, cfg, steps) && n <= |steps|
    ensures |ws[n].lines| <= |ws[n].arrived| && ws[n].lines == ws[n].arrived[Removed(ws[n])..]
    ensures InOrder(ws[n].handled)
  {
    RunKeeps(ws, cfg, steps, n);
  }

  /** Between a snapshot and the removal the consumed rows stay at the head, so removing them by identity is the
      same as dropping that many rows. */
  lemma RemovalDropsTheHead(ws: seq<World>, cfg: Settings, steps: seq<Step>, n: nat)
    requires Behavior(ws, cfg, steps) && n < |steps| && steps[n].Finish?
    ensures ws[n].pass.consumed <= ws[n].lines
    ensures ws[n + 1].lines == ws[n].lines[|ws[n].pass.consumed|..] && ws[n + 1].pass.Resting?
  {
    RunKeeps(ws, cfg, steps, n);
    assert ws[n].pass.consumed <= ws[n].lines;
    RemovesPrefix(ws[n].lines, ws[n].pass.consumed);
  }

  lemma {:induction false} SuffixSize(lines: seq<Line>, n: nat)
    requires n <= |lines|
    ensures |Encode(lines[n..])| <= |Encode(lines)|
  {
    assert lines == lines[..n] + lines[n..];
    EncodeAppend(lines[..n], lines[n..]);
  }

  /** The file never grows beyond the hard cap. */
  lemma {:induction false} NeverOverTheCap(ws: seq<World>, cfg: Settings, steps: seq<Step>, n: nat)
    requires Behavior(ws, cfg, steps) && n <= |steps| && |Encode(ws[0].lines)| <= cfg.hardCap
    ensures |Encode(ws[n].lines)| <= cfg.hardCap
  {
    if n > 0 {
      NeverOverTheCap(ws, cfg, steps, n - 1);
      var w, s := ws[n - 1], steps[n - 1];
      if s.Emit? {
        EncodeAppend(w.lines, [s.line]);
        assert Encode([s.line]) == s.line + [NEWLINE] + [];
      } else if s.Finish? {
        RemovalDropsTheHead(ws, cfg, steps, n - 1);
        SuffixSize(w.lines, |w.pass.consumed|);
      }
    }
  }
}
