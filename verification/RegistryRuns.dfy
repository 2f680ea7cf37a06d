/** Runs of the registry: recording, compaction, store faults, crash and boot replay.

    `history` is a reference that no code reads: every event whose append succeeded. */
module RegistryRuns {
  import opened Wrappers
  import opened RegistryLog
  import opened Compaction

  /** The event store: none, append-only, or one that also offers `compact`. */
  datatype StoreKind = NoDurability | AppendOnly | Compacting
  datatype Settings = Settings(maxEvents: nat, kind: StoreKind, requireIdentity: bool)

  /** A presented certificate; `signed` is the verdict of `verify_node_cert`. */
  datatype Cert = Cert(key: string, signed: bool)
  datatype Request = Request(beat: Beat, url: string, cert: Option<Cert>)

  /** A verified certificate carries a decodable, hence non-empty, key. */
  predicate Verified(c: Cert) {
    c.signed && c.key != ""
  }

  type Pins = map<NodeId, string>

  datatype State = State(events: Log, pins: Pins, urls: map<NodeId, string>, durable: Log, history: Log)

  datatype Fault = NoFault | AppendFails | CompactFails
  datatype Outcome = Acked | IdentityRefused | StoreFailed

  // ----- identity -----

  datatype Identity = Refused | Accepted(pins: Pins, key: string)

  function CheckIdentity(pins: Pins, require: bool, n: NodeId, cert: Option<Cert>): Identity {
    match cert
    case Some(c) =>
      if !Verified(c) then Refused
      else if n in pins && pins[n] != c.key then Refused
      else Accepted(pins[n := c.key], c.key)
    case None =>
      if require || n in pins then Refused else Accepted(pins, "")
  }

  /** First key seen per node: what boot replay pins. */
  function PinsOf(log: Log): Pins {
    if |log| == 0 then map[]
    else
      var rest, e := PinsOf(log[..|log| - 1]), log[|log| - 1];
      if e.Heartbeat? && e.key != "" && e.beat.node !in rest then rest[e.beat.node := e.key] else rest
  }

  // ----- recording -----

  predicate Fails(cfg: Settings, f: Fault) {
    f.AppendFails? && !cfg.kind.NoDurability?
  }

  /** Durable first, then the read model; a failed append touches neither. */
  function Record(s: State, cfg: Settings, e: Event): State {
    s.(durable := if cfg.kind.NoDurability? then s.durable else s.durable + [e],
       events := s.events + [e], history := s.history + [e])
  }

  function CompactState(s: State, cfg: Settings, f: Fault): State {
    var kept := Compact(s.events);
    s.(events := kept, durable := if cfg.kind.Compacting? && !f.CompactFails? then kept else s.durable)
  }

  function Admit(s: State, r: Request, pins: Pins): State {
    s.(pins := pins, urls := if r.url != "" then s.urls[r.beat.node := r.url] else s.urls)
  }

  function BeatStep(s: State, cfg: Settings, r: Request, ts: Time, f: Fault): (State, Outcome) {
    match CheckIdentity(s.pins, cfg.requireIdentity, r.beat.node, r.cert)
    case Refused => (s, IdentityRefused)
    case Accepted(pins, key) =>
      var a := Admit(s, r, pins);
      if Fails(cfg, f) then (a, StoreFailed)
      else
        var b := Record(a, cfg, Heartbeat(ts, r.url, key, r.beat));
        if |b.events| <= cfg.maxEvents then (b, Acked)
        else (CompactState(b, cfg, f), if cfg.kind.Compacting? && f.CompactFails? then StoreFailed else Acked)
  }

  function NoteStep(s: State, cfg: Settings, e: Event, f: Fault): (State, Outcome) {
    if Fails(cfg, f) then (s, StoreFailed) else (Record(s, cfg, e), Acked)
  }

  /** Boot: replay the durable log; node urls start empty. */
  function Boot(durable: Log, history: Log): State {
    State(durable, PinsOf(durable), map[], durable, history)
  }

  datatype Action =
    | BeatArrives(request: Request, ts: Time, fault: Fault)
    | EventArrives(event: Event, fault: Fault)
    | Crash
    | CrashAfterAppend(request: Request, ts: Time)

  predicate Enabled(a: Action) {
    a.EventArrives? ==> !a.event.Heartbeat?
  }

  function Step(s: State, cfg: Settings, a: Action): State {
    match a
    case BeatArrives(r, ts, f) => BeatStep(s, cfg, r, ts, f).0
    case EventArrives(e, f) => NoteStep(s, cfg, e, f).0
    case Crash => if cfg.kind.NoDurability? then Boot([], []) else Boot(s.durable, s.history)
    case CrashAfterAppend(r, ts) =>
      match CheckIdentity(s.pins, cfg.requireIdentity, r.beat.node, r.cert) {
        case Refused => s
        case Accepted(_, key) =>
          var b := Record(s, cfg, Heartbeat(ts, r.url, key, r.beat));
          if cfg.kind.NoDurability? then Boot([], []) else Boot(b.durable, b.history)
      }
  }

  // ----- the read model over runs -----

  ghost predicate Faithful(s: State, cfg: Settings) {
    && SameReads(s.events, s.history)
    && (if cfg.kind.NoDurability? then s.durable == [] else SameReads(s.durable, s.history))
  }

  lemma CompactSameReads(log: Log, other: Log)
    requires SameReads(log, other)
    ensures SameReads(Compact(log), other)
  {
    forall n ensures Current(Compact(log), n) == Current(other, n) && LastBeat(Compact(log), n) == LastBeat(other, n) {
      CompactReads(log, n);
      assert Current(log, n) == Current(other, n);
    }
  }

  lemma RecordFaithful(s: State, cfg: Settings, e: Event)
    requires Faithful(s, cfg)
    ensures Faithful(Record(s, cfg, e), cfg)
  {
    SameReadsSnoc(s.events, s.history, e);
    if !cfg.kind.NoDurability? { SameReadsSnoc(s.durable, s.history, e); }
  }

  lemma StepFaithful(s: State, cfg: Settings, a: Action)
    requires Faithful(s, cfg) && Enabled(a)
    ensures Faithful(Step(s, cfg, a), cfg)
  {
    match a
    case BeatArrives(r, ts, f) =>
      var id := CheckIdentity(s.pins, cfg.requireIdentity, r.beat.node, r.cert);
      if id.Accepted? && !Fails(cfg, f) {
        var b := Record(Admit(s, r, id.pins), cfg, Heartbeat(ts, r.url, id.key, r.beat));
        RecordFaithful(Admit(s, r, id.pins), cfg, Heartbeat(ts, r.url, id.key, r.beat));
        CompactSameReads(b.events, b.history);
      }
    case EventArrives(e, f) => RecordFaithful(s, cfg, e);
    case Crash =>
    case CrashAfterAppend(r, ts) =>
      var id := CheckIdentity(s.pins, cfg.requireIdentity, r.beat.node, r.cert);
      if id.Accepted? { RecordFaithful(s, cfg, Heartbeat(ts, r.url, id.key, r.beat)); }
  }

  ghost predicate Behavior(ss: seq<State>, cfg: Settings, actions: seq<Action>) {
    && |ss| == |actions| + 1 && ss[0] == Boot([], [])
    && forall i :: 0 <= i < |actions| ==> Enabled(actions[i]) && ss[i + 1] == Step(ss[i], cfg, actions[i])
  }

  /** Over every run of beats, departures, compactions, failed appends, failed compactions and
      crashes, the read model gives the snapshot, up to order, and the latest hardware that the
      full history would give. */
  lemma {:induction false} ReadModelMatchesHistory(ss: seq<State>, cfg: Settings, actions: seq<Action>, k: nat, v: View)
    requires Behavior(ss, cfg, actions) && k <= |actions|
    ensures Faithful(ss[k], cfg)
    ensures SameSnapshot(SnapshotOf(Latest(ss[k].events), v), SnapshotOf(Latest(ss[k].history), v))
  {
    if k > 0 {
      ReadModelMatchesHistory(ss, cfg, actions, k - 1, v);
      StepFaithful(ss[k - 1], cfg, actions[k - 1]);
    }
    SameReadsSameSnapshot(ss[k].events, ss[k].history, v);
  }

  /** The heartbeat passes the identity check and its append succeeds. */
  predicate Recorded(s: State, cfg: Settings, r: Request, f: Fault) {
    CheckIdentity(s.pins, cfg.requireIdentity, r.beat.node, r.cert).Accepted? && !Fails(cfg, f)
  }

  /** After a heartbeat is recorded the log is within its bound, or nothing in it is superseded - also when the store's
      own compaction fails. */
  lemma BeatBoundsLog(s: State, cfg: Settings, r: Request, ts: Time, f: Fault)
    requires Recorded(s, cfg, r, f)
    ensures |BeatStep(s, cfg, r, ts, f).0.events| <= cfg.maxEvents || OnlyLatest(BeatStep(s, cfg, r, ts, f).0.events)
  {
    var id := CheckIdentity(s.pins, cfg.requireIdentity, r.beat.node, r.cert);
    CompactOnlyLatest(Record(Admit(s, r, id.pins), cfg, Heartbeat(ts, r.url, id.key, r.beat)).events);
  }

  /** So in every run, the log exceeds its bound after a recorded heartbeat only by events that are not heartbeats and by
      one heartbeat per node. */
  lemma RunBounded(ss: seq<State>, cfg: Settings, actions: seq<Action>, k: nat)
    requires Behavior(ss, cfg, actions) && k < |actions| && actions[k].BeatArrives?
    requires Recorded(ss[k], cfg, actions[k].request, actions[k].fault)
    ensures |ss[k + 1].events| <= cfg.maxEvents || OnlyLatest(ss[k + 1].events)
    ensures ss[k + 1].events != [] && SameReads(ss[k + 1].events, ss[k + 1].history)
  {
    BeatBoundsLog(ss[k], cfg, actions[k].request, actions[k].ts, actions[k].fault);
    ReadModelMatchesHistory(ss, cfg, actions, k + 1, View(0.0, map[], map[]));
    BeatIsKept(ss[k], cfg, actions[k].request, actions[k].ts, actions[k].fault);
  }

  lemma BeatIsKept(s: State, cfg: Settings, r: Request, ts: Time, f: Fault)
    requires Recorded(s, cfg, r, f)
    ensures BeatStep(s, cfg, r, ts, f).0.events != []
  {
    var id := CheckIdentity(s.pins, cfg.requireIdentity, r.beat.node, r.cert);
    var e := Heartbeat(ts, r.url, id.key, r.beat);
    var log := s.events + [e];
    assert log[|s.events|] == e && HasBeat(log, r.beat.node);
    CompactReads(log, r.beat.node);
  }

  // ----- pins over runs -----

  /** After a keyed heartbeat of a node, all its later ones in the log carry the same key. */
  predicate KeysAgree(log: Log) {
    forall i, j :: 0 <= i < j < |log| ==> Agree(log[i], log[j])
  }

  predicate Agree(first: Event, later: Event) {
    first.Heartbeat? && first.key != "" && BeatOf(later, first.beat.node) ==> later.key == first.key
  }

  predicate SubPins(a: Pins, b: Pins) {
    forall n :: n in a ==> n in b && b[n] == a[n]
  }

  predicate Pinned(s: State) {
    && KeysAgree(s.events) && KeysAgree(s.durable)
    && SubPins(PinsOf(s.durable), PinsOf(s.events)) && SubPins(PinsOf(s.events), s.pins)
  }

  lemma {:induction false} PinsFromLog(log: Log, n: NodeId)
    ensures n in PinsOf(log) ==>
              exists i :: 0 <= i < |log| && BeatOf(log[i], n) && log[i].key == PinsOf(log)[n] && log[i].key != ""
    ensures forall i :: 0 <= i < |log| && BeatOf(log[i], n) && log[i].key != "" ==> n in PinsOf(log)
  {
    if |log| > 0 {
      var init := log[..|log| - 1];
      PinsFromLog(init, n);
      assert forall i :: 0 <= i < |init| ==> init[i] == log[i];
      if n in PinsOf(init) {
        var i :| 0 <= i < |init| && BeatOf(init[i], n) && init[i].key == PinsOf(init)[n] && init[i].key != "";
        assert BeatOf(log[i], n);
      } else if n in PinsOf(log) {
        assert BeatOf(log[|log| - 1], n);
      }
      forall i | 0 <= i < |log| && BeatOf(log[i], n) && log[i].key != "" ensures n in PinsOf(log) {
        if i < |init| { assert BeatOf(init[i], n); }
      }
    }
  }

  lemma {:induction false} LastBeatAt(log: Log, n: NodeId)
    ensures LastBeat(log, n).Some? <==> HasBeat(log, n)
    ensures LastBeat(log, n).Some? ==>
              exists i :: 0 <= i < |log| && BeatOf(log[i], n) && LastBeat(log, n) == Some(log[i])
                          && forall j :: i < j < |log| ==> !BeatOf(log[j], n)
  {
    if |log| > 0 {
      var init := log[..|log| - 1];
      LastBeatAt(init, n);
      assert forall i :: 0 <= i < |init| ==> init[i] == log[i];
      if BeatOf(log[|log| - 1], n) {
        assert HasBeat(log, n);
      } else if LastBeat(init, n).Some? {
        var i :| 0 <= i < |init| && BeatOf(init[i], n) && LastBeat(init, n) == Some(init[i])
                 && forall j :: i < j < |init| ==> !BeatOf(init[j], n);
        assert BeatOf(log[i], n);
        assert forall j :: i < j < |log| ==> !BeatOf(log[j], n);
      }
    }
  }

  /** The key of the node's last heartbeat, "" if there is none. */
  function LastKey(log: Log, n: NodeId): string {
    match LastBeat(log, n)
    case Some(e) => e.key
    case None => ""
  }

  lemma OneBeat(log: Log, i: nat, j: nat, n: NodeId)
    requires OnlyLatest(log) && i < |log| && j < |log| && BeatOf(log[i], n) && BeatOf(log[j], n)
    ensures i == j
  {}

  /** In a log with one heartbeat per node, the pin is the key of that heartbeat. */
  lemma OneBeatPin(log: Log, n: NodeId)
    requires OnlyLatest(log)
    ensures n in PinsOf(log) <==> LastKey(log, n) != ""
    ensures n in PinsOf(log) ==> PinsOf(log)[n] == LastKey(log, n)
  {
    PinsFromLog(log, n);
    LastBeatAt(log, n);
    if LastBeat(log, n).Some? {
      var k :| 0 <= k < |log| && BeatOf(log[k], n) && LastBeat(log, n) == Some(log[k]);
      if n in PinsOf(log) {
        var i :| 0 <= i < |log| && BeatOf(log[i], n) && log[i].key == PinsOf(log)[n] && log[i].key != "";
        OneBeat(log, i, k, n);
      }
    }
  }

  /** The pin a compacted log yields is the key of the last heartbeat. */
  lemma CompactedPin(log: Log, n: NodeId)
    ensures n in PinsOf(Compact(log)) <==> LastKey(log, n) != ""
    ensures n in PinsOf(Compact(log)) ==> PinsOf(Compact(log))[n] == LastKey(log, n)
  {
    CompactReads(log, n);
    CompactOnlyLatest(log);
    OneBeatPin(Compact(log), n);
  }

  /** Exactly when compaction keeps the pins that replay rebuilds: every pinned node's last
      heartbeat carries the key first seen from it. */
  lemma PinsSurviveCompactionIff(log: Log)
    ensures PinsOf(Compact(log)) == PinsOf(log) <==> forall n :: n in PinsOf(log) ==> LastKey(log, n) == PinsOf(log)[n]
  {
    var p, q := PinsOf(log), PinsOf(Compact(log));
    forall n ensures n in q ==> n in p && q[n] == LastKey(log, n)
             ensures n in p ==> p[n] != "" && (n !in q ==> LastKey(log, n) == "")
    {
      PinOrigin(log, n);
    }
    if forall n :: n in p ==> LastKey(log, n) == p[n] {
      assert forall n :: n in p <==> n in q;
    }
  }

  lemma PinOrigin(log: Log, n: NodeId)
    ensures n in PinsOf(Compact(log)) ==> n in PinsOf(log) && PinsOf(Compact(log))[n] == LastKey(log, n)
    ensures n in PinsOf(log) ==> PinsOf(log)[n] != "" && (n !in PinsOf(Compact(log)) ==> LastKey(log, n) == "")
  {
    CompactedPin(log, n);
    PinsFromLog(log, n);
    LastBeatAt(log, n);
  }

  /** With agreeing keys, replay of the compacted log rebuilds the same pins. */
  lemma AgreeingPinsSurvive(log: Log)
    requires KeysAgree(log)
    ensures PinsOf(Compact(log)) == PinsOf(log)
  {
    PinsSurviveCompactionIff(log);
    forall n | n in PinsOf(log) ensures LastKey(log, n) == PinsOf(log)[n] {
      PinsFromLog(log, n);
      LastBeatAt(log, n);
      var i :| 0 <= i < |log| && BeatOf(log[i], n) && log[i].key == PinsOf(log)[n] && log[i].key != "";
      assert HasBeat(log, n);
      var k :| 0 <= k < |log| && BeatOf(log[k], n) && LastBeat(log, n) == Some(log[k]) && forall j :: k < j < |log| ==> !BeatOf(log[j], n);
      if i < k { assert Agree(log[i], log[k]); }
    }
  }

  lemma CompactKeysAgree(log: Log)
    ensures KeysAgree(Compact(log))
  {
    CompactOnlyLatest(log);
    var c := Compact(log);
    forall i, j | 0 <= i < j < |c| ensures Agree(c[i], c[j]) {
      assert c[i].Heartbeat? ==> !BeatOf(c[j], c[i].beat.node);
    }
  }

  lemma PinsSnoc(log: Log, e: Event)
    ensures PinsOf(log + [e]) ==
              if e.Heartbeat? && e.key != "" && e.beat.node !in PinsOf(log) then PinsOf(log)[e.beat.node := e.key]
              else PinsOf(log)
  {
    assert (log + [e])[..|log|] == log;
  }

  /** `e` respects the pins: it carries the pinned key, and pins nothing new. */
  predicate Respects(e: Event, pins: Pins) {
    e.Heartbeat? ==>
      && (e.beat.node in pins ==> e.key == pins[e.beat.node])
      && (e.key != "" ==> e.beat.node in pins)
  }

  lemma SubPinsSnoc(a: Log, b: Log, pins: Pins, e: Event)
    requires SubPins(PinsOf(a), PinsOf(b)) && SubPins(PinsOf(b), pins) && Respects(e, pins)
    ensures SubPins(PinsOf(a), PinsOf(a + [e])) && SubPins(PinsOf(a), PinsOf(b + [e]))
    ensures SubPins(PinsOf(a + [e]), PinsOf(b + [e])) && SubPins(PinsOf(b + [e]), pins)
  {
    PinsSnoc(a, e);
    PinsSnoc(b, e);
  }

  lemma RecordPinned(s: State, cfg: Settings, e: Event)
    requires Pinned(s) && Respects(e, s.pins)
    ensures Pinned(Record(s, cfg, e)) && SubPins(PinsOf(s.durable), PinsOf(Record(s, cfg, e).durable))
  {
    SubPinsSnoc(s.durable, s.events, s.pins, e);
    SnocKeysAgree(s.events, e, s.pins);
    SnocKeysAgree(s.durable, e, s.pins);
  }

  lemma SnocKeysAgree(log: Log, e: Event, pins: Pins)
    requires KeysAgree(log) && SubPins(PinsOf(log), pins) && Respects(e, pins)
    ensures KeysAgree(log + [e])
  {
    var l := log + [e];
    forall i, j | 0 <= i < j < |l| ensures Agree(l[i], l[j]) {
      if j < |log| {
        assert Agree(log[i], log[j]);
      } else if e.Heartbeat? && BeatOf(log[i], e.beat.node) && log[i].key != "" {
        AgreeingKey(log, e.beat.node, i);
      }
    }
  }

  lemma AgreeingKey(log: Log, n: NodeId, i: nat)
    requires KeysAgree(log) && i < |log| && BeatOf(log[i], n) && log[i].key != ""
    ensures n in PinsOf(log) && PinsOf(log)[n] == log[i].key
  {
    PinsFromLog(log, n);
    var k :| 0 <= k < |log| && BeatOf(log[k], n) && log[k].key == PinsOf(log)[n] && log[k].key != "";
    if k < i { assert Agree(log[k], log[i]); } else if i < k { assert Agree(log[i], log[k]); }
  }

  lemma CompactPinned(s: State, cfg: Settings, f: Fault)
    requires Pinned(s)
    ensures Pinned(CompactState(s, cfg, f)) && SubPins(PinsOf(s.durable), PinsOf(CompactState(s, cfg, f).durable))
  {
    AgreeingPinsSurvive(s.events);
    CompactKeysAgree(s.events);
  }

  lemma SubPinsTransitive(a: Pins, b: Pins, c: Pins)
    requires SubPins(a, b) && SubPins(b, c)
    ensures SubPins(a, c)
  {}

  lemma RecordThenCompact(s: State, cfg: Settings, e: Event, f: Fault)
    requires Pinned(s) && Respects(e, s.pins)
    ensures var b := Record(s, cfg, e);
            && Pinned(b) && Pinned(CompactState(b, cfg, f))
            && SubPins(PinsOf(s.durable), PinsOf(b.durable))
            && SubPins(PinsOf(s.durable), PinsOf(CompactState(b, cfg, f).durable))
  {
    var b := Record(s, cfg, e);
    RecordPinned(s, cfg, e);
    CompactPinned(b, cfg, f);
    SubPinsTransitive(PinsOf(s.durable), PinsOf(b.durable), PinsOf(CompactState(b, cfg, f).durable));
  }

  lemma AdmitPinned(s: State, cfg: Settings, r: Request, ts: Time)
    requires Pinned(s)
    ensures var id := CheckIdentity(s.pins, cfg.requireIdentity, r.beat.node, r.cert);
            id.Accepted? ==>
              && Pinned(Admit(s, r, id.pins))
              && Respects(Heartbeat(ts, r.url, id.key, r.beat), id.pins)
              && (r.beat.node in s.pins ==> id.key == s.pins[r.beat.node])
  {}

  lemma BeatPinned(s: State, cfg: Settings, r: Request, ts: Time, f: Fault)
    requires Pinned(s)
    ensures Pinned(BeatStep(s, cfg, r, ts, f).0)
    ensures SubPins(PinsOf(s.durable), PinsOf(BeatStep(s, cfg, r, ts, f).0.durable))
  {
    var id := CheckIdentity(s.pins, cfg.requireIdentity, r.beat.node, r.cert);
    AdmitPinned(s, cfg, r, ts);
    if id.Accepted? && !Fails(cfg, f) {
      var m, e := Admit(s, r, id.pins), Heartbeat(ts, r.url, id.key, r.beat);
      RecordThenCompact(m, cfg, e, f);
      var b := Record(m, cfg, e);
      assert BeatStep(s, cfg, r, ts, f).0 == if |b.events| <= cfg.maxEvents then b else CompactState(b, cfg, f);
    }
  }

  lemma BootPinned(durable: Log, history: Log)
    requires KeysAgree(durable)
    ensures Pinned(Boot(durable, history))
  {}

  lemma StepPinned(s: State, cfg: Settings, a: Action)
    requires Pinned(s) && Enabled(a)
    ensures Pinned(Step(s, cfg, a))
    ensures !cfg.kind.NoDurability? ==> SubPins(PinsOf(s.durable), PinsOf(Step(s, cfg, a).durable))
  {
    match a
    case BeatArrives(r, ts, f) => BeatPinned(s, cfg, r, ts, f);
    case EventArrives(e, f) => RecordPinned(s, cfg, e);
    case Crash => BootPinned(s.durable, s.history);
    case CrashAfterAppend(r, ts) =>
      var id := CheckIdentity(s.pins, cfg.requireIdentity, r.beat.node, r.cert);
      AdmitPinned(s, cfg, r, ts);
      if id.Accepted? { RecordPinned(Admit(s, r, id.pins), cfg, Heartbeat(ts, r.url, id.key, r.beat)); }
  }

  lemma {:induction false} RunPinned(ss: seq<State>, cfg: Settings, actions: seq<Action>, m: nat, k: nat)
    requires Behavior(ss, cfg, actions) && m <= k <= |actions|
    ensures Pinned(ss[k])
    ensures !cfg.kind.NoDurability? ==> SubPins(PinsOf(ss[m].durable), PinsOf(ss[k].durable))
    decreases k
  {
    if k > 0 {
      RunPinned(ss, cfg, actions, if m < k then m else k - 1, k - 1);
      StepPinned(ss[k - 1], cfg, actions[k - 1]);
    }
  }

  /** Once a keyed heartbeat of a node is durable, every heartbeat accepted for that node later
      carries its key: across compaction, failed appends, failed compaction, crash and replay. */
  lemma DurableKeyIsForever(ss: seq<State>, cfg: Settings, actions: seq<Action>, m: nat, k: nat, i: nat)
    requires Behavior(ss, cfg, actions) && m <= k < |actions| && !cfg.kind.NoDurability?
    requires i < |ss[m].durable| && ss[m].durable[i].Heartbeat? && ss[m].durable[i].key != ""
    requires actions[k].BeatArrives? && actions[k].request.beat.node == ss[m].durable[i].beat.node
    requires BeatStep(ss[k], cfg, actions[k].request, actions[k].ts, actions[k].fault).1 != IdentityRefused
    ensures actions[k].request.cert.Some? && actions[k].request.cert.value.key == ss[m].durable[i].key
  {
    var n := ss[m].durable[i].beat.node;
    RunPinned(ss, cfg, actions, m, m);
    AgreeingKey(ss[m].durable, n, i);
    RunPinned(ss, cfg, actions, m, k);
  }
}
