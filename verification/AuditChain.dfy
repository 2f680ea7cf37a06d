/** The audit log (packages/slancha-mesh-tune/mesh/audit.py): hash-chained rows in a file, and its verifier.

    A row is an object, as the recorder builds it or as JSON reads it back; `hash` is the chain hash of a row, keyed or
    not, and `size` the length of its line. */
module AuditChain {
  import opened Wrappers

  /** `number` is the integer a number or boolean other than a plain integer is equal to, if any. */
  datatype Value = Str(text: string) | Num(n: int) | Other(code: nat, number: Option<int>)

  const TRUE := Other(1, Some(1))

  type Row = map<string, Value>
  type Hash = Row -> string
  /** What the file holds; `Alien` is JSON, but no object. */
  datatype Line = Blank | Malformed | Alien | Parsed(row: Row)
  type Log = seq<Line>

  const GENESIS := "sha256:0000000000000000000000000000000000000000000000000000000000000000"
  const SCHEMA := "audit-v1"
  const MAX_ROW_BYTES := 65536

  predicate Equals(v: Value, n: int) {
    v == Num(n) || (v.Other? && v.number == Some(n))
  }

  predicate Has(row: Row, key: string, v: Value) { key in row && row[key] == v }

  function Body(row: Row): Row { row - {"row_hash"} }

  // ----- the verifier -----

  datatype Reason = NoLog | MalformedLine | HashMismatch | BrokenChain | SeqGap | EmptyLog | WrongCount | WrongTip
  datatype Verdict = Accepted | Rejected(reason: Reason) | Raises
  datatype Scan = Going(last: string, count: nat) | Stop(reason: Reason) | Crash

  /** The checks of one row, in their order. */
  function Check(row: Row, prev: string, count: nat, hash: Hash): Scan {
    if !Has(row, "row_hash", Str(hash(Body(row)))) then Stop(HashMismatch)
    else if !Has(row, "prev_row_hash", Str(prev)) then Stop(BrokenChain)
    else if !("seq" in row && Equals(row["seq"], count)) then Stop(SeqGap)
    else Going(hash(Body(row)), count + 1)
  }

  function ScanLines(log: Log, hash: Hash): Scan {
    if |log| == 0 then Going(GENESIS, 0)
    else
      var before, line := ScanLines(log[..|log| - 1], hash), log[|log| - 1];
      if !before.Going? || line.Blank? then before
      else if line.Malformed? then Stop(MalformedLine)
      else if line.Alien? then Crash
      else Check(line.row, before.last, before.count, hash)
  }

  function Conclude(s: Scan, tip: Option<string>, count: Option<int>): Verdict {
    if s.Stop? then Rejected(s.reason)
    else if s.Crash? then Raises
    else if s.count == 0 then Rejected(EmptyLog)
    else if count.Some? && s.count != count.value then Rejected(WrongCount)
    else if tip.Some? && s.last != tip.value then Rejected(WrongTip)
    else Accepted
  }

  function Verify(file: Option<Log>, hash: Hash, tip: Option<string>, count: Option<int>): Verdict {
    if file.None? then Rejected(NoLog) else Conclude(ScanLines(file.value, hash), tip, count)
  }

  method VerifyChain(file: Option<Log>, hash: Hash, tip: Option<string>, count: Option<int>) returns (v: Verdict)
    ensures v == Verify(file, hash, tip, count)
  {
    if file.None? { return Rejected(NoLog); }
    var log := file.value;
    var prev, expected, sawAny := GENESIS, 0, false;
    for i := 0 to |log|
      invariant ScanLines(log[..i], hash) == Going(prev, expected) && sawAny == (expected > 0)
    {
      ScanNext(log, i, hash);
      var line := log[i];
      if line.Blank? { continue; }
      if line.Malformed? {
        StopsFor(log, i + 1, hash);
        return Rejected(MalformedLine);
      }
      if line.Alien? {
        StopsFor(log, i + 1, hash);
        return Raises;
      }
      sawAny := true;
      var row := line.row;
      var step := Check(row, prev, expected, hash);
      if step.Stop? {
        StopsFor(log, i + 1, hash);
        return Rejected(step.reason);
      }
      prev := step.last;
      expected := expected + 1;
    }
    assert log[..|log|] == log;
    if !sawAny { return Rejected(EmptyLog); }
    if count.Some? && expected != count.value { return Rejected(WrongCount); }
    if tip.Some? && prev != tip.value { return Rejected(WrongTip); }
    return Accepted;
  }

  lemma ScanNext(log: Log, i: nat, hash: Hash)
    requires i < |log| && ScanLines(log[..i], hash).Going?
    ensures var before := ScanLines(log[..i], hash);
            ScanLines(log[..i + 1], hash) == match log[i]
                                             case Blank => before
                                             case Malformed => Stop(MalformedLine)
                                             case Alien => Crash
                                             case Parsed(row) => Check(row, before.last, before.count, hash)
  {
    assert log[..i + 1][..i] == log[..i];
  }

  /** Nothing after the first bad line changes the verdict. */
  lemma {:induction false} StopsFor(log: Log, i: nat, hash: Hash)
    requires i <= |log| && !ScanLines(log[..i], hash).Going?
    ensures ScanLines(log, hash) == ScanLines(log[..i], hash)
  {
    if i < |log| {
      assert log[..|log| - 1][..i] == log[..i];
      StopsFor(log[..|log| - 1], i, hash);
    } else {
      assert log[..i] == log;
    }
  }

  // ----- what acceptance means -----

  function RowsOf(log: Log): seq<Row> {
    if |log| == 0 then []
    else RowsOf(log[..|log| - 1]) + if log[|log| - 1].Parsed? then [log[|log| - 1].row] else []
  }

  function LinkBefore(rows: seq<Row>, i: nat, hash: Hash): string
    requires i <= |rows|
  {
    if i == 0 then GENESIS else hash(Body(rows[i - 1]))
  }

  /** Row `i` carries its own hash, that of its predecessor and its position. */
  predicate Linked(rows: seq<Row>, i: nat, hash: Hash)
    requires i < |rows|
  {
    && Has(rows[i], "row_hash", Str(hash(Body(rows[i]))))
    && Has(rows[i], "prev_row_hash", Str(LinkBefore(rows, i, hash)))
    && "seq" in rows[i] && Equals(rows[i]["seq"], i)
  }

  ghost predicate Chained(rows: seq<Row>, hash: Hash) {
    forall i: nat :: i < |rows| ==> Linked(rows, i, hash)
  }

  /** A scan gets through exactly the well-formed chains. */
  lemma {:induction false} ScanMeans(log: Log, hash: Hash)
    ensures ScanLines(log, hash).Going? <==> Malformed !in log && Alien !in log && Chained(RowsOf(log), hash)
    ensures ScanLines(log, hash).Going? ==>
              ScanLines(log, hash) == Going(LinkBefore(RowsOf(log), |RowsOf(log)|, hash), |RowsOf(log)|)
  {
    if |log| > 0 {
      var front, line := log[..|log| - 1], log[|log| - 1];
      assert log == front + [line];
      ScanMeans(front, hash);
      var rows, before := RowsOf(log), RowsOf(front);
      if line.Parsed? {
        ChainOneMore(before, line.row, hash);
      } else {
        assert rows == before;
      }
    }
  }

  /** The last hash of a chain of rows. */
  function Tip(rows: seq<Row>, hash: Hash): string { LinkBefore(rows, |rows|, hash) }

  /** A file is accepted exactly when it exists, holds nothing but at least one well-linked row, and has the expected
      number of rows and the expected last hash, where one is given. */
  lemma AcceptedIff(file: Option<Log>, hash: Hash, tip: Option<string>, count: Option<int>)
    ensures Verify(file, hash, tip, count).Accepted? <==>
              && file.Some? && Malformed !in file.value && Alien !in file.value
              && var rows := RowsOf(file.value);
              && Chained(rows, hash) && |rows| > 0
              && (count.Some? ==> |rows| == count.value) && (tip.Some? ==> Tip(rows, hash) == tip.value)
  {
    if file.Some? { ScanMeans(file.value, hash); }
  }

  /** Why a file that passes line by line is rejected: it is empty, then its count, then its tip. */
  lemma WholeFileReason(log: Log, hash: Hash, tip: Option<string>, count: Option<int>)
    requires Malformed !in log && Alien !in log && Chained(RowsOf(log), hash)
    ensures var rows, v := RowsOf(log), Verify(Some(log), hash, tip, count);
            && (v == Rejected(EmptyLog) <==> |rows| == 0)
            && (v == Rejected(WrongCount) <==> |rows| > 0 && count.Some? && count.value != |rows|)
            && (v == Rejected(WrongTip) <==> |rows| > 0 && (count.Some? ==> count.value == |rows|)
                                             && tip.Some? && tip.value != Tip(rows, hash))
    ensures Verify(None, hash, tip, count) == Rejected(NoLog)
  {
    ScanMeans(log, hash);
  }

  /** The first bad line decides: it is no JSON, or no object, which raises, or its hash, its link or its number is wrong,
      looked at in this order. */
  lemma FirstBadLine(log: Log, i: nat, hash: Hash, tip: Option<string>, count: Option<int>)
    requires i < |log| && Malformed !in log[..i] && Alien !in log[..i] && Chained(RowsOf(log[..i]), hash)
    ensures var rows, line, v := RowsOf(log[..i]), log[i], Verify(Some(log), hash, tip, count);
            && (line.Malformed? ==> v == Rejected(MalformedLine))
            && (line.Alien? ==> v == Raises)
            && (line.Parsed? ==>
                  var hashed := Has(line.row, "row_hash", Str(hash(Body(line.row))));
                  var linked := Has(line.row, "prev_row_hash", Str(Tip(rows, hash)));
                  && (!hashed ==> v == Rejected(HashMismatch))
                  && (hashed && !linked ==> v == Rejected(BrokenChain))
                  && (hashed && linked && !("seq" in line.row && Equals(line.row["seq"], |rows|)) ==> v == Rejected(SeqGap)))
  {
    ScanMeans(log[..i], hash);
    assert log[..i + 1][..i] == log[..i] && log[..i + 1][i] == log[i];
    if !ScanLines(log[..i + 1], hash).Going? { StopsFor(log, i + 1, hash); }
  }

  lemma ChainOneMore(rows: seq<Row>, row: Row, hash: Hash)
    ensures Chained(rows + [row], hash) <==> Chained(rows, hash) && Linked(rows + [row], |rows|, hash)
    ensures LinkBefore(rows + [row], |rows|, hash) == LinkBefore(rows, |rows|, hash)
  {
    var all := rows + [row];
    assert forall i: nat :: i < |rows| ==> all[i] == rows[i] && (Linked(all, i, hash) <==> Linked(rows, i, hash));
    if Chained(rows, hash) && Linked(all, |rows|, hash) {
      forall i: nat | i < |all| ensures Linked(all, i, hash) { assert i < |rows| ==> Linked(rows, i, hash); }
    }
    if Chained(all, hash) {
      forall i: nat | i < |rows| ensures Linked(rows, i, hash) { assert Linked(all, i, hash); }
    }
  }

  // ----- what JSON keeps of a row -----

  /** `dump` is the text of a value and `load` what is read back from a text. */
  datatype Codec = Codec(hash: Hash, dump: Value -> string, load: string -> Value)

  function ReadBack(c: Codec, v: Value): Value { c.load(c.dump(v)) }

  /** The row that is read back from the line of `row`. */
  function Stored(c: Codec, row: Row): Row { map k | k in row :: ReadBack(c, row[k]) }

  predicate SameText(c: Codec, a: Row, b: Row) {
    a.Keys == b.Keys && forall k :: k in a && k in b ==> c.dump(a[k]) == c.dump(b[k])
  }

  predicate Plain(v: Value) { v.Str? || v.Num? || v == TRUE }

  /** Rows hash alike exactly when they have the same canonical text; strings, integers and `True` are read back as they
      are, a number as one equal to it, and what was read is read back as it is. */
  ghost predicate Lawful(c: Codec) {
    && (forall a, b :: c.hash(a) == c.hash(b) <==> SameText(c, a, b))
    && (forall v :: Plain(v) ==> ReadBack(c, v) == v)
    && (forall v, n :: Equals(ReadBack(c, v), n) <==> Equals(v, n))
    && (forall v :: ReadBack(c, ReadBack(c, v)) == ReadBack(c, v))
  }

  /** The row is one that JSON reads. */
  predicate IsRead(c: Codec, row: Row) { forall k :: k in row ==> ReadBack(c, row[k]) == row[k] }

  predicate AllRead(c: Codec, rows: seq<Row>) { forall row :: row in rows ==> IsRead(c, row) }

  /** The same rows, text for text, and the very same when they were read from files. */
  ghost predicate SameRows(c: Codec, a: seq<Row>, b: seq<Row>) {
    && |a| == |b| && (forall i :: 0 <= i < |a| ==> SameText(c, a[i], b[i]))
    && (AllRead(c, a) && AllRead(c, b) ==> a == b)
  }

  lemma TextsAreRows(c: Codec, a: Row, b: Row)
    requires SameText(c, a, b)
    ensures forall k :: k in a ==> ReadBack(c, a[k]) == ReadBack(c, b[k])
    ensures IsRead(c, a) && IsRead(c, b) ==> a == b
  {
    forall k | k in a ensures ReadBack(c, a[k]) == ReadBack(c, b[k]) { assert k in b; }
  }

  lemma SameHashSameText(a: Row, b: Row, c: Codec)
    requires Lawful(c) && c.hash(Body(a)) == c.hash(Body(b))
    requires Has(a, "row_hash", Str(c.hash(Body(a)))) && Has(b, "row_hash", Str(c.hash(Body(b))))
    ensures SameText(c, a, b)
  {
    assert SameText(c, Body(a), Body(b));
    forall k | k in a || k in b ensures k in a && k in b && c.dump(a[k]) == c.dump(b[k]) {
      if k != "row_hash" { assert k in Body(a) <==> k in Body(b); }
    }
  }

  lemma PlainText(c: Codec, a: Row, b: Row, key: string, x: Value, y: Value)
    requires Lawful(c) && SameText(c, a, b) && Has(a, key, x) && Has(b, key, y) && Plain(x) && Plain(y)
    ensures x == y
  {
    TextsAreRows(c, a, b);
  }

  lemma {:induction false} PairwiseRows(c: Codec, a: seq<Row>, b: seq<Row>)
    requires |a| == |b| && forall i :: 0 <= i < |a| ==> SameText(c, a[i], b[i])
    ensures SameRows(c, a, b)
  {
    if AllRead(c, a) && AllRead(c, b) {
      forall i | 0 <= i < |a| ensures a[i] == b[i] {
        assert a[i] in a && b[i] in b;
        TextsAreRows(c, a[i], b[i]);
      }
    }
  }

  /** Two chains with the same last hash are the same chain. */
  lemma {:induction false} TipDeterminesRows(a: seq<Row>, b: seq<Row>, c: Codec)
    requires Lawful(c) && Chained(a, c.hash) && Chained(b, c.hash) && |a| == |b|
    requires LinkBefore(a, |a|, c.hash) == LinkBefore(b, |b|, c.hash)
    ensures forall i :: 0 <= i < |a| ==> SameText(c, a[i], b[i])
  {
    if |a| > 0 {
      var n := |a| - 1;
      assert Linked(a, n, c.hash) && Linked(b, n, c.hash);
      SameHashSameText(a[n], b[n], c);
      var s, t := a[..n], b[..n];
      assert a == s + [a[n]] && b == t + [b[n]];
      ChainOneMore(s, a[n], c.hash);
      ChainOneMore(t, b[n], c.hash);
      PlainText(c, a[n], b[n], "prev_row_hash", Str(LinkBefore(a, n, c.hash)), Str(LinkBefore(b, n, c.hash)));
      TipDeterminesRows(s, t, c);
      assert forall i :: 0 <= i < n ==> a[i] == s[i] && b[i] == t[i];
    }
  }

  lemma TipDeterminesLength(a: seq<Row>, b: seq<Row>, c: Codec)
    requires Lawful(c) && Chained(a, c.hash) && Chained(b, c.hash) && |a| > 0 && |b| > 0
    requires LinkBefore(a, |a|, c.hash) == LinkBefore(b, |b|, c.hash)
    ensures |a| == |b|
  {
    var x, y := a[|a| - 1], b[|b| - 1];
    assert Linked(a, |a| - 1, c.hash) && Linked(b, |b| - 1, c.hash);
    SameHashSameText(x, y, c);
    TextsAreRows(c, x, y);
    assert Equals(ReadBack(c, x["seq"]), |a| - 1) && Equals(ReadBack(c, y["seq"]), |b| - 1);
  }

  /** A log accepted with the tip of another accepted log has the same rows in the same order: no row was edited,
      removed, inserted or moved, and the tail is complete. */
  lemma AcceptedTipMeansSameRows(recorded: Log, found: Log, c: Codec, tip: string)
    requires Lawful(c)
    requires Verify(Some(recorded), c.hash, Some(tip), None).Accepted? && Verify(Some(found), c.hash, Some(tip), None).Accepted?
    ensures SameRows(c, RowsOf(found), RowsOf(recorded))
  {
    ScanMeans(recorded, c.hash);
    ScanMeans(found, c.hash);
    TipDeterminesLength(RowsOf(found), RowsOf(recorded), c);
    TipDeterminesRows(RowsOf(found), RowsOf(recorded), c);
    PairwiseRows(c, RowsOf(found), RowsOf(recorded));
  }

  /** Without a witness from outside every non-empty prefix of a good log is good: only the tip or the count reveals
      a missing tail. */
  lemma PrefixIsAccepted(log: Log, hash: Hash, n: nat)
    requires n <= |log| && Verify(Some(log), hash, None, None).Accepted? && |RowsOf(log[..n])| > 0
    ensures Verify(Some(log[..n]), hash, None, None).Accepted?
    ensures |RowsOf(log[..n])| != |RowsOf(log)| ==> Verify(Some(log[..n]), hash, None, Some(|RowsOf(log)|)) == Rejected(WrongCount)
  {
    if !ScanLines(log[..n], hash).Going? { StopsFor(log, n, hash); }
    ScanMeans(log[..n], hash);
  }

  // ----- the recorder -----

  datatype Entry = Entry(payload: Row, ts: string, actor: Option<string>, context: Option<Value>)
  datatype Outcome = Written(row: Row) | BadActor | Unencodable | Oversized | WriteFailed

  /** A value that is not `encodable` has no JSON text in UTF-8. `toInt` and `toText` are Python's `int` and `str` of
      values other than integers and strings; `int` may raise. */
  datatype Settings = Settings(codec: Codec, encodable: Value -> bool, size: Row -> nat, normalize: string -> string,
                               toInt: Value -> Option<int>, toText: Value -> string)

  function AsInt(cfg: Settings, v: Value): Option<int> { if v.Num? then Some(v.n) else cfg.toInt(v) }
  function AsText(cfg: Settings, v: Value): string { if v.Str? then v.text else cfg.toText(v) }

  function Lower(s: string): string {
    seq(|s|, i requires 0 <= i < |s| => if 'A' <= s[i] <= 'Z' then ((s[i] as int - 'A' as int) + 'a' as int) as char else s[i])
  }

  /** `_clean_actor`: what is left after normalizing and stripping must name somebody. */
  function CleanActor(cfg: Settings, actor: string): Option<string> {
    var a := cfg.normalize(actor);
    if a == "" || Lower(a) in {"none", "null"} then None else Some(a)
  }

  predicate Named(cfg: Settings, e: Entry) { e.actor.Some? && CleanActor(cfg, e.actor.value).Some? }

  /** The row before its own hash is added; whatever the payload brought stays unless it is overwritten. */
  function Unhashed(cfg: Settings, e: Entry, count: int, prev: string): Row {
    var stamped := e.payload["schema_version" := Str(SCHEMA)]["seq" := Num(count)]["ts" := Str(e.ts)];
    var named := if !Named(cfg, e) then stamped
                 else stamped["actor" := Str(CleanActor(cfg, e.actor.value).value)]["actor_asserted" := TRUE];
    var told := if e.context.None? then named else named["audit_context" := e.context.value];
    told["prev_row_hash" := Str(prev)]
  }

  function NewRow(cfg: Settings, e: Entry, count: int, prev: string): Row {
    var row := Unhashed(cfg, e, count, prev);
    row["row_hash" := Str(cfg.codec.hash(row))]
  }

  predicate Encodable(cfg: Settings, row: Row) { forall k :: k in row ==> cfg.encodable(row[k]) }

  function Record(cfg: Settings, e: Entry, count: int, prev: string, fails: bool): Outcome {
    if e.actor.Some? && CleanActor(cfg, e.actor.value).None? then BadActor
    else if !Encodable(cfg, Unhashed(cfg, e, count, prev)) then Unencodable
    else if cfg.size(NewRow(cfg, e, count, prev)) > MAX_ROW_BYTES then Oversized
    else if fails then WriteFailed
    else Written(NewRow(cfg, e, count, prev))
  }

  /** The last line of a file that is not blank. */
  function LastLine(log: Log): Line {
    if |log| == 0 then Blank
    else if log[|log| - 1].Blank? then LastLine(log[..|log| - 1])
    else log[|log| - 1]
  }

  datatype Head = Head(count: int, prev: string)

  /** `_resume`: `None` when the last row cannot be read, which raises. */
  function Resume(cfg: Settings, log: Log): Option<Head> {
    match LastLine(log)
    case Blank => Some(Head(0, GENESIS))
    case Malformed => None
    case Alien => None
    case Parsed(row) =>
      if "seq" in row && AsInt(cfg, row["seq"]).Some? && "row_hash" in row
      then Some(Head(AsInt(cfg, row["seq"]).value + 1, AsText(cfg, row["row_hash"]))) else None
  }

  /** A recorder resumes from the last line that is not blank: it must be an object with a hash and a number, which Python's
      `int` may make of another value. */
  lemma ResumeIff(cfg: Settings, log: Log, i: nat)
    requires i < |log| && (forall j :: i < j < |log| ==> log[j].Blank?) && !log[i].Blank?
    ensures var head := Resume(cfg, log);
            && (!log[i].Parsed? ==> head.None?)
            && (log[i].Parsed? ==>
                  var row := log[i].row;
                  var seqNo := if "seq" !in row then None else match row["seq"] case Num(n) => Some(n) case other => cfg.toInt(other);
                  && (head.Some? <==> seqNo.Some? && "row_hash" in row)
                  && (head.Some? ==>
                        && head.value.count == seqNo.value + 1
                        && head.value.prev == match row["row_hash"] case Str(t) => t case other => cfg.toText(other)))
  {
    LastLineIs(log, i);
  }

  /** Without any such line it starts afresh. */
  lemma {:induction false} ResumeFresh(cfg: Settings, log: Log)
    requires forall j :: 0 <= j < |log| ==> log[j].Blank?
    ensures Resume(cfg, log) == Some(Head(0, "sha256:0000000000000000000000000000000000000000000000000000000000000000"))
  {
    if |log| > 0 { ResumeFresh(cfg, log[..|log| - 1]); }
  }

  lemma {:induction false} LastLineIs(log: Log, i: nat)
    requires i < |log| && (forall j :: i < j < |log| ==> log[j].Blank?) && !log[i].Blank?
    ensures LastLine(log) == log[i]
  {
    if i < |log| - 1 { LastLineIs(log[..|log| - 1], i); }
  }

  datatype State = State(log: Log, head: Head)
  datatype Event = Report(entry: Entry, fails: bool) | Restart

  function Result(cfg: Settings, s: State, ev: Event): Outcome
    requires ev.Report?
  {
    Record(cfg, ev.entry, s.head.count, s.head.prev, ev.fails)
  }

  predicate Writes(cfg: Settings, s: State, ev: Event) {
    ev.Report? && Result(cfg, s, ev).Written?
  }

  /** The file gets the line of the row, the head the hash in the row. */
  function Append(cfg: Settings, s: State, row: Row): State
    requires "row_hash" in row && row["row_hash"].Str?
  {
    State(s.log + [Parsed(Stored(cfg.codec, row))], Head(s.head.count + 1, row["row_hash"].text))
  }

  function Step(cfg: Settings, s: State, ev: Event): State {
    match ev
    case Restart => var head := Resume(cfg, s.log); if head.Some? then State(s.log, head.value) else s
    case Report(_, _) => if Writes(cfg, s, ev) then Append(cfg, s, Result(cfg, s, ev).row) else s
  }

  ghost predicate Behavior(ss: seq<State>, cfg: Settings, events: seq<Event>) {
    && |ss| == |events| + 1 && ss[0] == State([], Head(0, GENESIS))
    && forall i :: 0 <= i < |events| ==> ss[i + 1] == Step(cfg, ss[i], events[i])
  }

  // ----- the logs a recorder builds -----

  predicate Intact(row: Row, hash: Hash) { Has(row, "row_hash", Str(hash(Body(row)))) }

  /** What the caller brings into the row: the payload but for the keys that are overwritten, and the context. */
  function Brought(cfg: Settings, e: Entry): Row {
    var stamps := {"schema_version", "seq", "ts", "prev_row_hash"};
    var own := e.payload - (if Named(cfg, e) then stamps + {"actor", "actor_asserted"} else stamps);
    if e.context.None? then own else own["audit_context" := e.context.value]
  }

  /** What is read back from the text of the value has that same text. */
  predicate Stable(c: Codec, v: Value) { c.dump(ReadBack(c, v)) == c.dump(v) }

  /** The entry brings no "row_hash" of its own, and only values that are written the same after they were read back. */
  predicate Keeps(cfg: Settings, e: Entry) {
    "row_hash" !in e.payload && forall k :: k in Brought(cfg, e) ==> Stable(cfg.codec, Brought(cfg, e)[k])
  }

  lemma BroughtOrStamped(cfg: Settings, e: Entry, count: int, prev: string)
    ensures var row, own := Unhashed(cfg, e, count, prev), Brought(cfg, e);
            && ("row_hash" in row <==> "row_hash" in e.payload)
            && (forall k :: k in own ==> k in row && row[k] == own[k])
            && (forall k :: k in row && k !in own ==> Plain(row[k]))
  {}

  /** A row carries the hash that the verifier recomputes from the file unless the payload brought a "row_hash" of its
      own, which is hashed and then replaced, or a value is written in another way once it was read back. */
  lemma IntactIff(cfg: Settings, e: Entry, count: int, prev: string)
    requires Lawful(cfg.codec)
    ensures Intact(Stored(cfg.codec, NewRow(cfg, e, count, prev)), cfg.codec.hash) <==> Keeps(cfg, e)
  {
    var c, row := cfg.codec, Unhashed(cfg, e, count, prev);
    var found := Stored(c, NewRow(cfg, e, count, prev));
    BroughtOrStamped(cfg, e, count, prev);
    assert found["row_hash"] == Str(c.hash(row));
    assert Intact(found, c.hash) <==> SameText(c, row, Body(found));
    if "row_hash" !in row {
      assert row.Keys == Body(found).Keys;
      forall k | k in row ensures Body(found)[k] == ReadBack(c, row[k]) {}
      forall k | k in row && k !in Brought(cfg, e) ensures Stable(c, row[k]) { assert Plain(row[k]); }
    } else {
      assert "row_hash" !in Body(found);
    }
  }

  /** The word, in letters of either case. */
  predicate SpelledLike(s: string, word: string) {
    |s| == |word| && forall i :: 0 <= i < |s| ==> s[i] == word[i] || ('A' <= s[i] <= 'Z' && s[i] as int + 32 == word[i] as int)
  }

  lemma LowerSpells(s: string, word: string)
    requires forall i :: 0 <= i < |word| ==> 'a' <= word[i] <= 'z'
    ensures Lower(s) == word <==> SpelledLike(s, word)
  {
    if SpelledLike(s, word) {
      forall i | 0 <= i < |s| ensures Lower(s)[i] == word[i] {}
    }
    if Lower(s) == word {
      forall i | 0 <= i < |s| ensures s[i] == word[i] || ('A' <= s[i] <= 'Z' && s[i] as int + 32 == word[i] as int) {
        assert Lower(s)[i] == word[i];
      }
    }
  }

  /** An actor is refused exactly when nothing is left of the name, or only "none" or "null" in letters of either case. */
  lemma ActorRefusedIff(cfg: Settings, actor: string)
    ensures var name := cfg.normalize(actor);
            CleanActor(cfg, actor) == if name == "" || SpelledLike(name, "none") || SpelledLike(name, "null") then None else Some(name)
  {
    LowerSpells(cfg.normalize(actor), "none");
    LowerSpells(cfg.normalize(actor), "null");
  }

  /** Why a report is not written: the actor, then a value without a text, then the size of its line, then the disk. */
  lemma RecordIff(cfg: Settings, e: Entry, count: int, prev: string, fails: bool)
    ensures var r, row := Record(cfg, e, count, prev, fails), NewRow(cfg, e, count, prev);
            var bad := e.actor.Some? && CleanActor(cfg, e.actor.value).None?;
            var textless := exists k :: k in Unhashed(cfg, e, count, prev) && !cfg.encodable(Unhashed(cfg, e, count, prev)[k]);
            && (r.BadActor? <==> bad)
            && (r.Unencodable? <==> !bad && textless)
            && (r.Oversized? <==> !bad && !textless && cfg.size(row) > 65536)
            && (r.WriteFailed? <==> !bad && !textless && cfg.size(row) <= 65536 && fails)
            && (r.Written? ==> r.row == row)
  {}

  /** What a row says: the stamps of the recorder, the actor and the context where they are given, and for the rest what the
      payload brought, all of it. */
  lemma RowSays(cfg: Settings, e: Entry, count: int, prev: string)
    ensures var row := NewRow(cfg, e, count, prev);
            var stamps := {"schema_version", "seq", "ts", "prev_row_hash", "row_hash"};
            var actor := if Named(cfg, e) then {"actor", "actor_asserted"} else {};
            var context := if e.context.Some? then {"audit_context"} else {};
            && row.Keys == e.payload.Keys + stamps + actor + context
            && (forall k :: k in e.payload && k !in stamps + actor + context ==> row[k] == e.payload[k])
            && row["schema_version"] == Str("audit-v1") && row["seq"] == Num(count) && row["ts"] == Str(e.ts)
            && row["prev_row_hash"] == Str(prev) && row["row_hash"].Str?
            && (Named(cfg, e) ==> Some(row["actor"]) == Some(Str(CleanActor(cfg, e.actor.value).value)) && row["actor_asserted"] == TRUE)
            && (e.context.Some? ==> row["audit_context"] == e.context.value)
  {}

  lemma RowStamped(cfg: Settings, e: Entry, count: int, prev: string)
    ensures Has(NewRow(cfg, e, count, prev), "seq", Num(count))
    ensures Has(NewRow(cfg, e, count, prev), "prev_row_hash", Str(prev))
    ensures "row_hash" in NewRow(cfg, e, count, prev) && NewRow(cfg, e, count, prev)["row_hash"].Str?
  {}

  function StoredBefore(rows: seq<Row>, i: nat): string
    requires i <= |rows|
  {
    if i == 0 then GENESIS
    else if "row_hash" in rows[i - 1] && rows[i - 1]["row_hash"].Str? then rows[i - 1]["row_hash"].text
    else ""
  }

  /** Row `i` is stamped with its position and the hash stored before it. */
  predicate Stamped(rows: seq<Row>, i: nat)
    requires i < |rows|
  {
    && Has(rows[i], "seq", Num(i)) && Has(rows[i], "prev_row_hash", Str(StoredBefore(rows, i)))
    && "row_hash" in rows[i] && rows[i]["row_hash"].Str?
  }

  ghost predicate Inv(s: State) {
    var rows := RowsOf(s.log);
    && Malformed !in s.log && Alien !in s.log && |rows| == |s.log|
    && s.head == Head(|rows|, StoredBefore(rows, |rows|))
    && (forall i: nat :: i < |rows| ==> Stamped(rows, i))
    && (|s.log| > 0 ==> s.log[|s.log| - 1] == Parsed(rows[|rows| - 1]))
  }

  lemma AppendKeeps(cfg: Settings, s: State, row: Row)
    requires Lawful(cfg.codec) && Inv(s) && Has(row, "seq", Num(s.head.count)) && Has(row, "prev_row_hash", Str(s.head.prev))
    requires "row_hash" in row && row["row_hash"].Str?
    ensures var t := Append(cfg, s, row); Inv(t) && RowsOf(t.log) == RowsOf(s.log) + [Stored(cfg.codec, row)]
  {
    var t, rows := Append(cfg, s, row), RowsOf(s.log);
    assert t.log[..|s.log|] == s.log;
    var found := Stored(cfg.codec, row);
    assert forall k :: k in {"seq", "prev_row_hash", "row_hash"} ==> k in row && Plain(row[k]) && found[k] == row[k];
    var all := rows + [found];
    forall i: nat | i < |all| ensures Stamped(all, i) {
      if i < |rows| { assert Stamped(rows, i) && StoredBefore(all, i) == StoredBefore(rows, i); }
      else { assert StoredBefore(all, i) == StoredBefore(rows, |rows|); }
    }
  }

  /** A restart finds the head it left. */
  lemma ResumeContinues(cfg: Settings, s: State)
    requires Inv(s)
    ensures Resume(cfg, s.log) == Some(s.head)
  {
    if |s.log| > 0 { assert Stamped(RowsOf(s.log), |s.log| - 1); }
  }

  lemma StepKeeps(cfg: Settings, s: State, ev: Event)
    requires Lawful(cfg.codec) && Inv(s)
    ensures Inv(Step(cfg, s, ev))
    ensures RowsOf(Step(cfg, s, ev).log) ==
              RowsOf(s.log) + if Writes(cfg, s, ev) then [Stored(cfg.codec, Result(cfg, s, ev).row)] else []
  {
    ResumeContinues(cfg, s);
    if Writes(cfg, s, ev) {
      RowStamped(cfg, ev.entry, s.head.count, s.head.prev);
      AppendKeeps(cfg, s, Result(cfg, s, ev).row);
    }
  }

  /** What a lawful codec keeps. */
  ghost predicate KeptBy(cfg: Settings, s: State, t: State) {
    Lawful(cfg.codec) && Inv(s) ==> Inv(t)
  }

  lemma StepKept(cfg: Settings, s: State, ev: Event)
    ensures KeptBy(cfg, s, Step(cfg, s, ev))
  {
    if Lawful(cfg.codec) && Inv(s) { StepKeeps(cfg, s, ev); }
  }

  ghost predicate AllIntact(rows: seq<Row>, hash: Hash) {
    forall i: nat :: i < |rows| ==> Intact(rows[i], hash)
  }

  /** A chain of stamped rows verifies exactly when every row is intact. */
  lemma {:induction false} ChainedIffIntact(rows: seq<Row>, hash: Hash)
    requires forall i: nat :: i < |rows| ==> Stamped(rows, i)
    ensures Chained(rows, hash) <==> AllIntact(rows, hash)
  {
    if AllIntact(rows, hash) {
      forall i: nat | i < |rows| ensures Linked(rows, i, hash) {
        assert Stamped(rows, i) && Intact(rows[i], hash);
        if i > 0 { assert Intact(rows[i - 1], hash) && Stamped(rows, i - 1); }
      }
    }
    if Chained(rows, hash) {
      forall i: nat | i < |rows| ensures Intact(rows[i], hash) { assert Linked(rows, i, hash); }
    }
  }

  /** Some entry written up to event `n` does not keep its text, or brought a "row_hash" of its own. */
  ghost predicate WroteUnkept(ss: seq<State>, cfg: Settings, events: seq<Event>, n: nat)
    requires |ss| == |events| + 1 && n <= |events|
  {
    exists k: nat :: k < n && Writes(cfg, ss[k], events[k]) && !Keeps(cfg, events[k].entry)
  }

  /** A step leaves rows that JSON reads, and all intact unless it writes an entry that does not keep. */
  lemma StepFacts(cfg: Settings, s: State, ev: Event)
    requires Lawful(cfg.codec) && Inv(s) && AllRead(cfg.codec, RowsOf(s.log))
    ensures var t := Step(cfg, s, ev);
            && Inv(t) && AllRead(cfg.codec, RowsOf(t.log))
            && (AllIntact(RowsOf(t.log), cfg.codec.hash)
                <==> AllIntact(RowsOf(s.log), cfg.codec.hash) && !(Writes(cfg, s, ev) && !Keeps(cfg, ev.entry)))
  {
    StepKeeps(cfg, s, ev);
    if Writes(cfg, s, ev) {
      var row := Stored(cfg.codec, Result(cfg, s, ev).row);
      IntactIff(cfg, ev.entry, s.head.count, s.head.prev);
      IntactOneMore(RowsOf(s.log), row, cfg.codec.hash);
      assert IsRead(cfg.codec, row);
    } else {
      assert RowsOf(Step(cfg, s, ev).log) == RowsOf(s.log);
    }
  }

  lemma {:induction false} RunFacts(ss: seq<State>, cfg: Settings, events: seq<Event>, n: nat)
    requires Behavior(ss, cfg, events) && n <= |events| && Lawful(cfg.codec)
    ensures Inv(ss[n]) && AllRead(cfg.codec, RowsOf(ss[n].log))
    ensures AllIntact(RowsOf(ss[n].log), cfg.codec.hash) <==> !WroteUnkept(ss, cfg, events, n)
  {
    if n > 0 {
      RunFacts(ss, cfg, events, n - 1);
      assert ss[(n - 1) + 1] == Step(cfg, ss[n - 1], events[n - 1]);
      StepFacts(cfg, ss[n - 1], events[n - 1]);
      UnkeptOneMore(ss, cfg, events, n);
    }
  }

  lemma IntactOneMore(rows: seq<Row>, row: Row, hash: Hash)
    ensures AllIntact(rows + [row], hash) <==> AllIntact(rows, hash) && Intact(row, hash)
  {
    var all := rows + [row];
    assert all[|rows|] == row && forall i: nat :: i < |rows| ==> all[i] == rows[i];
  }

  lemma UnkeptOneMore(ss: seq<State>, cfg: Settings, events: seq<Event>, n: nat)
    requires |ss| == |events| + 1 && 0 < n <= |events|
    ensures WroteUnkept(ss, cfg, events, n) <==>
              WroteUnkept(ss, cfg, events, n - 1) || (Writes(cfg, ss[n - 1], events[n - 1]) && !Keeps(cfg, events[n - 1].entry))
  {}

  /** A log built by any run of reports, rejections, failed writes and restarts verifies, with the recorder's own tip
      and count, exactly when something was written and every written entry keeps its text, without a "row_hash" of its
      own. */
  lemma BuiltLogVerifies(ss: seq<State>, cfg: Settings, events: seq<Event>, n: nat)
    requires Behavior(ss, cfg, events) && n <= |events| && Lawful(cfg.codec)
    ensures Verify(Some(ss[n].log), cfg.codec.hash, Some(ss[n].head.prev), Some(ss[n].head.count)).Accepted?
            <==> ss[n].head.count > 0 && !WroteUnkept(ss, cfg, events, n)
  {
    var s := ss[n];
    var rows := RowsOf(s.log);
    RunFacts(ss, cfg, events, n);
    ScanMeans(s.log, cfg.codec.hash);
    ChainedIffIntact(rows, cfg.codec.hash);
    if |rows| > 0 && AllIntact(rows, cfg.codec.hash) { assert Intact(rows[|rows| - 1], cfg.codec.hash); }
  }

  lemma OneBadRow(row: Row, hash: Hash, tip: Option<string>, count: Option<int>)
    requires !Intact(row, hash)
    ensures Verify(Some([Parsed(row)]), hash, tip, count) == Rejected(HashMismatch)
  {
    var log := [Parsed(row)];
    assert log[..0] == [] && ScanLines([], hash) == Going(GENESIS, 0);
    assert ScanLines(log, hash) == Check(row, GENESIS, 0, hash);
  }

  lemma FirstReport(cfg: Settings, e: Entry)
    requires Record(cfg, e, 0, GENESIS, false).Written?
    ensures var s := Step(cfg, State([], Head(0, GENESIS)), Report(e, false));
            s.log == [Parsed(Stored(cfg.codec, NewRow(cfg, e, 0, GENESIS)))] && s.head.count == 1
  {
    RowStamped(cfg, e, 0, GENESIS);
    var s, ev := State([], Head(0, GENESIS)), Report(e, false);
    assert Result(cfg, s, ev) == Written(NewRow(cfg, e, 0, GENESIS));
    assert Step(cfg, s, ev) == Append(cfg, s, NewRow(cfg, e, 0, GENESIS));
  }

  /** A fresh log whose first entry does not keep is rejected, by the recorder's own tip or without one. */
  lemma UnkeptNeverVerifies(cfg: Settings, e: Entry, tip: Option<string>, count: Option<int>)
    requires Lawful(cfg.codec) && !Keeps(cfg, e) && Record(cfg, e, 0, GENESIS, false).Written?
    ensures var s := Step(cfg, State([], Head(0, GENESIS)), Report(e, false));
            s.head.count == 1 && Verify(Some(s.log), cfg.codec.hash, tip, count) == Rejected(HashMismatch)
  {
    FirstReport(cfg, e);
    IntactIff(cfg, e, 0, GENESIS);
    OneBadRow(Stored(cfg.codec, NewRow(cfg, e, 0, GENESIS)), cfg.codec.hash, tip, count);
  }

  /** Both ways are real. A payload that brings a "row_hash" is one. */
  lemma StaleRowNeverVerifies(cfg: Settings, e: Entry, tip: Option<string>, count: Option<int>)
    requires Lawful(cfg.codec) && "row_hash" in e.payload && Record(cfg, e, 0, GENESIS, false).Written?
    ensures var s := Step(cfg, State([], Head(0, GENESIS)), Report(e, false));
            s.head.count == 1 && Verify(Some(s.log), cfg.codec.hash, tip, count) == Rejected(HashMismatch)
  {
    UnkeptNeverVerifies(cfg, e, tip, count);
  }

  /** A context with the integer keys 9 and 10 is the other: it is written in the order of the integers, and after it
      was read back in the order of the strings "10" and "9". */
  lemma IntegerKeysNeverVerify(cfg: Settings, payload: Row, ts: string, v: Value, tip: Option<string>, count: Option<int>)
    requires Lawful(cfg.codec) && cfg.codec.dump(v) == "{\"9\":2,\"10\":1}"
    requires cfg.codec.dump(cfg.codec.load("{\"9\":2,\"10\":1}")) == "{\"10\":1,\"9\":2}"
    requires Record(cfg, Entry(payload, ts, None, Some(v)), 0, GENESIS, false).Written?
    ensures var s := Step(cfg, State([], Head(0, GENESIS)), Report(Entry(payload, ts, None, Some(v)), false));
            s.head.count == 1 && Verify(Some(s.log), cfg.codec.hash, tip, count) == Rejected(HashMismatch)
  {
    var e := Entry(payload, ts, None, Some(v));
    assert Brought(cfg, e)["audit_context"] == v && !Stable(cfg.codec, v);
    UnkeptNeverVerifies(cfg, e, tip, count);
  }

  /** So a file accepted with the recorder's tip has the recorded rows, all of them and in their order. */
  lemma TamperingIsDetected(ss: seq<State>, cfg: Settings, events: seq<Event>, n: nat, found: Log)
    requires Behavior(ss, cfg, events) && n <= |events| && Lawful(cfg.codec)
    requires ss[n].head.count > 0 && !WroteUnkept(ss, cfg, events, n)
    requires Verify(Some(found), cfg.codec.hash, Some(ss[n].head.prev), None).Accepted?
    ensures SameRows(cfg.codec, RowsOf(found), RowsOf(ss[n].log)) && |RowsOf(found)| == ss[n].head.count
    ensures AllRead(cfg.codec, RowsOf(found)) ==> RowsOf(found) == RowsOf(ss[n].log)
  {
    BuiltLogVerifies(ss, cfg, events, n);
    RunFacts(ss, cfg, events, n);
    AcceptedTipMeansSameRows(ss[n].log, found, cfg.codec, ss[n].head.prev);
  }

  class AuditRecorder {
    const cfg: Settings
    var log: Log
    var head: Head

    /** On whatever file is there, if its last row can be read. */
    constructor (cfg: Settings, log: Log)
      requires Resume(cfg, log).Some?
      ensures this.cfg == cfg && this.log == log && head == Resume(cfg, log).value
    {
      this.cfg, this.log, this.head := cfg, log, Resume(cfg, log).value;
    }

    /** The constructor, whose resume may raise. */
    static method Open(cfg: Settings, log: Log) returns (r: Option<AuditRecorder>)
      ensures r.Some? <==> Resume(cfg, log).Some?
      ensures r.Some? ==> fresh(r.value) && r.value.cfg == cfg && r.value.log == log && r.value.head == Resume(cfg, log).value
    {
      if Resume(cfg, log).None? { return None; }
      var recorder := new AuditRecorder(cfg, log);
      return Some(recorder);
    }

    /** `record`; `fails` says that the write to the file does. */
    method RecordVerdict(e: Entry, fails: bool) returns (r: Outcome)
      modifies this
      ensures State(log, head) == Step(cfg, old(State(log, head)), Report(e, fails))
      ensures r == Result(cfg, old(State(log, head)), Report(e, fails))
      ensures KeptBy(cfg, old(State(log, head)), State(log, head))
    {
      StepKept(cfg, State(log, head), Report(e, fails));
      var row := e.payload["schema_version" := Str(SCHEMA)]["seq" := Num(head.count)]["ts" := Str(e.ts)];
      if e.actor.Some? {
        var actor := CleanActor(cfg, e.actor.value);
        if actor.None? { return BadActor; }
        row := row["actor" := Str(actor.value)]["actor_asserted" := TRUE];
      }
      if e.context.Some? { row := row["audit_context" := e.context.value]; }
      row := row["prev_row_hash" := Str(head.prev)];
      assert row == Unhashed(cfg, e, head.count, head.prev);
      if !Encodable(cfg, row) { return Unencodable; }
      var link := cfg.codec.hash(row);
      row := row["row_hash" := Str(link)];
      if cfg.size(row) > MAX_ROW_BYTES { return Oversized; }
      if fails { return WriteFailed; }
      log := log + [Parsed(Stored(cfg.codec, row))];
      head := Head(head.count + 1, link);
      return Written(row);
    }
  }
}
