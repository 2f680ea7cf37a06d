/** What each step of the registry promises, and what its pins and urls owe to the history of a run
    (mesh/registry.py). */
module RegistryLaws {
  import opened Wrappers
  import opened RegistryLog
  import opened Compaction
  import opened RegistryRuns

  // ----- which heartbeats are accepted -----

  /** The certificate is a verified one of the pinned key, or there is none, and none is needed. */
  predicate Passes(s: State, cfg: Settings, r: Request) {
    if r.cert.Some? then
      && r.cert.value.signed && r.cert.value.key != ""
      && (r.beat.node in s.pins ==> s.pins[r.beat.node] == r.cert.value.key)
    else
      !cfg.requireIdentity && r.beat.node !in s.pins
  }

  predicate Durable(cfg: Settings) { cfg.kind != NoDurability }

  /** Replies to a heartbeat: refused exactly without a passing identity, acknowledged exactly when the store took it and,
      over the bound, did not fail to compact. */
  lemma BeatReplies(s: State, cfg: Settings, r: Request, ts: Time, f: Fault)
    ensures var o := BeatStep(s, cfg, r, ts, f).1;
            && (o == IdentityRefused <==> !Passes(s, cfg, r))
            && (o == StoreFailed <==>
                  && Passes(s, cfg, r)
                  && ((f == AppendFails && Durable(cfg))
                      || (f == CompactFails && cfg.kind == Compacting && |s.events| >= cfg.maxEvents)))
  {}

  /** The event of an accepted heartbeat carries the key that was presented, "" without a certificate. */
  function BeatEvent(r: Request, ts: Time): Event {
    Heartbeat(ts, r.url, if r.cert.Some? then r.cert.value.key else "", r.beat)
  }

  /** The log after one more event: as it is within the bound, compacted beyond it. */
  ghost predicate Logged(before: Log, e: Event, after: Log, max: nat) {
    if |before| < max then after == before + [e] else after == Compact(before + [e])
  }

  /** What a heartbeat writes: nothing when refused; its pin and its url, even when the append fails; its event in the
      history, in the read model and in the durable log, which a compacting store replaces by the compacted one. */
  lemma BeatWrites(s: State, cfg: Settings, r: Request, ts: Time, f: Fault)
    ensures Step(s, cfg, BeatArrives(r, ts, f)) == BeatStep(s, cfg, r, ts, f).0
    ensures var t, n := BeatStep(s, cfg, r, ts, f).0, r.beat.node;
            var appended := Passes(s, cfg, r) && !(f == AppendFails && Durable(cfg));
            && (!Passes(s, cfg, r) ==> t == s)
            && (Passes(s, cfg, r) ==>
                  && t.pins == (if r.cert.Some? then s.pins[n := r.cert.value.key] else s.pins)
                  && t.urls == (if r.url == "" then s.urls else s.urls[n := r.url]))
            && (!appended ==> t.events == s.events && t.durable == s.durable && t.history == s.history)
            && (appended ==>
                  && t.history == s.history + [BeatEvent(r, ts)]
                  && Logged(s.events, BeatEvent(r, ts), t.events, cfg.maxEvents)
                  && t.durable == (if !Durable(cfg) then s.durable
                                   else if |s.events| >= cfg.maxEvents && cfg.kind == Compacting && f != CompactFails then t.events
                                   else s.durable + [BeatEvent(r, ts)]))
  {}

  /** Any other event is appended to history, read model and durable log, or nowhere when the store fails. */
  lemma EventWrites(s: State, cfg: Settings, e: Event, f: Fault)
    ensures var (t, o) := NoteStep(s, cfg, e, f);
            && Step(s, cfg, EventArrives(e, f)) == t
            && (o == StoreFailed <==> f == AppendFails && Durable(cfg)) && (o == StoreFailed ==> t == s)
            && (o != StoreFailed ==>
                  && o == Acked && t.pins == s.pins && t.urls == s.urls
                  && t.history == s.history + [e] && t.events == s.events + [e]
                  && t.durable == if Durable(cfg) then s.durable + [e] else s.durable)
  {}

  // ----- boot -----

  /** The node's first heartbeat with a key carries `key`. */
  ghost predicate FirstKey(log: Log, n: NodeId, key: string) {
    exists i :: FirstKeyAt(log, n, i) && log[i].key == key
  }

  ghost predicate FirstKeyAt(log: Log, n: NodeId, i: int) {
    && 0 <= i < |log| && BeatOf(log[i], n) && log[i].key != ""
    && forall j :: 0 <= j < i && BeatOf(log[j], n) ==> log[j].key == ""
  }

  lemma {:induction false} PinsAreFirst(log: Log, n: NodeId)
    ensures n in PinsOf(log) ==> FirstKey(log, n, PinsOf(log)[n])
    ensures n !in PinsOf(log) ==> forall j :: 0 <= j < |log| && BeatOf(log[j], n) ==> log[j].key == ""
  {
    if |log| > 0 {
      var k := |log| - 1;
      var front := log[..k];
      PinsAreFirst(front, n);
      assert forall j :: 0 <= j < k ==> front[j] == log[j];
      if n in PinsOf(front) {
        var i :| FirstKeyAt(front, n, i) && front[i].key == PinsOf(front)[n];
        assert FirstKeyAt(log, n, i);
      } else if n in PinsOf(log) {
        assert FirstKeyAt(log, n, k);
      }
    }
  }

  /** A restart finds what the store holds, which is nothing without durability; no urls; and as pins the first key of each
      node in it. */
  lemma CrashReboots(s: State, cfg: Settings, n: NodeId)
    ensures var t := Step(s, cfg, Crash);
            && t.durable == (if Durable(cfg) then s.durable else []) && t.history == (if Durable(cfg) then s.history else [])
            && t.events == t.durable && t.urls == map[]
            && (n in t.pins ==> FirstKey(t.durable, n, t.pins[n]))
            && (n !in t.pins ==> forall j :: 0 <= j < |t.durable| && BeatOf(t.durable[j], n) ==> t.durable[j].key == "")
  {
    PinsAreFirst(if Durable(cfg) then s.durable else [], n);
  }

  /** A crash between the append and the reply: the heartbeat is in the store although nobody was told. */
  lemma CrashKeepsAppend(s: State, cfg: Settings, r: Request, ts: Time)
    ensures var t := Step(s, cfg, CrashAfterAppend(r, ts));
            if !Passes(s, cfg, r) then t == s
            else if !Durable(cfg) then t == Boot([], [])
            else t == Step(State(s.events, s.pins, s.urls, s.durable + [BeatEvent(r, ts)], s.history + [BeatEvent(r, ts)]), cfg, Crash)
  {}

  // ----- over runs -----

  /** The action presented a verified certificate of `key` for the node. */
  predicate Presents(s: State, cfg: Settings, a: Action, n: NodeId, key: string) {
    && (a.BeatArrives? || a.CrashAfterAppend?) && a.request.beat.node == n && Passes(s, cfg, a.request)
    && a.request.cert == Some(Cert(key, true)) && key != ""
  }

  ghost predicate Presented(ss: seq<State>, cfg: Settings, actions: seq<Action>, k: nat, n: NodeId, key: string)
    requires Behavior(ss, cfg, actions) && k <= |actions|
  {
    exists i: nat :: i < k && Presents(ss[i], cfg, actions[i], n, key)
  }

  predicate Keyed(log: Log, n: NodeId, key: string) {
    exists i :: 0 <= i < |log| && BeatOf(log[i], n) && log[i].key == key
  }

  /** A key that the registry holds for a node: pinned, or in a log. */
  ghost predicate HoldsKey(s: State, n: NodeId, key: string) {
    key != "" && ((n in s.pins && s.pins[n] == key) || Keyed(s.events, n, key) || Keyed(s.durable, n, key))
  }

  lemma KeyedCompact(log: Log, n: NodeId, key: string)
    requires Keyed(Compact(log), n, key)
    ensures Keyed(log, n, key)
  {
    CompactOnlyLatest(log);
    var i :| 0 <= i < |Compact(log)| && BeatOf(Compact(log)[i], n) && Compact(log)[i].key == key;
    assert Compact(log)[i] in log;
  }

  lemma KeyedSnoc(log: Log, e: Event, n: NodeId, key: string)
    ensures Keyed(log + [e], n, key) <==> Keyed(log, n, key) || (BeatOf(e, n) && e.key == key)
  {
    assert (log + [e])[|log|] == e;
    if Keyed(log, n, key) {
      var i :| 0 <= i < |log| && BeatOf(log[i], n) && log[i].key == key;
      assert (log + [e])[i] == log[i];
    }
  }

  lemma BeatKeys(s: State, cfg: Settings, r: Request, ts: Time, f: Fault, n: NodeId, key: string)
    requires HoldsKey(BeatStep(s, cfg, r, ts, f).0, n, key)
    ensures HoldsKey(s, n, key) || Presents(s, cfg, BeatArrives(r, ts, f), n, key)
  {
    var t, e := BeatStep(s, cfg, r, ts, f).0, BeatEvent(r, ts);
    BeatWrites(s, cfg, r, ts, f);
    KeyedSnoc(s.events, e, n, key);
    KeyedSnoc(s.durable, e, n, key);
    if Keyed(Compact(s.events + [e]), n, key) { KeyedCompact(s.events + [e], n, key); }
  }

  lemma BootKeys(durable: Log, history: Log, n: NodeId, key: string)
    requires HoldsKey(Boot(durable, history), n, key)
    ensures Keyed(durable, n, key)
  {
    PinsAreFirst(durable, n);
    if n in PinsOf(durable) && PinsOf(durable)[n] == key {
      var i :| FirstKeyAt(durable, n, i) && durable[i].key == key;
      assert BeatOf(durable[i], n);
    }
  }

  lemma StepKeys(s: State, cfg: Settings, a: Action, n: NodeId, key: string)
    requires Enabled(a) && HoldsKey(Step(s, cfg, a), n, key)
    ensures HoldsKey(s, n, key) || Presents(s, cfg, a, n, key)
  {
    match a
    case BeatArrives(r, ts, f) => BeatKeys(s, cfg, r, ts, f, n, key);
    case EventArrives(e, f) =>
      EventWrites(s, cfg, e, f);
      KeyedSnoc(s.events, e, n, key);
      KeyedSnoc(s.durable, e, n, key);
    case Crash => BootKeys(if Durable(cfg) then s.durable else [], if Durable(cfg) then s.history else [], n, key);
    case CrashAfterAppend(r, ts) =>
      if Passes(s, cfg, r) && Durable(cfg) {
        BootKeys(s.durable + [BeatEvent(r, ts)], s.history + [BeatEvent(r, ts)], n, key);
        KeyedSnoc(s.durable, BeatEvent(r, ts), n, key);
      }
  }

  /** Nobody else's key: every key that is pinned for a node, or carried by a heartbeat of it in a log, was presented for
      that node in a verified certificate, by an earlier heartbeat of the run. */
  lemma {:induction false} KeysArePresented(ss: seq<State>, cfg: Settings, actions: seq<Action>, k: nat, n: NodeId, key: string)
    requires Behavior(ss, cfg, actions) && k <= |actions| && HoldsKey(ss[k], n, key)
    ensures Presented(ss, cfg, actions, k, n, key)
  {
    assert k > 0;
    StepKeys(ss[k - 1], cfg, actions[k - 1], n, key);
    if HoldsKey(ss[k - 1], n, key) { KeysArePresented(ss, cfg, actions, k - 1, n, key); }
  }

  /** The url that the node gave last, since the last restart. */
  ghost function UrlGiven(ss: seq<State>, cfg: Settings, actions: seq<Action>, k: nat, n: NodeId): Option<string>
    requires Behavior(ss, cfg, actions) && k <= |actions|
  {
    if k == 0 then None
    else
      match actions[k - 1]
      case BeatArrives(r, _, _) =>
        if r.beat.node == n && r.url != "" && Passes(ss[k - 1], cfg, r) then Some(r.url)
        else UrlGiven(ss, cfg, actions, k - 1, n)
      case EventArrives(_, _) => UrlGiven(ss, cfg, actions, k - 1, n)
      case Crash => None
      case CrashAfterAppend(r, _) => if Passes(ss[k - 1], cfg, r) then None else UrlGiven(ss, cfg, actions, k - 1, n)
  }

  lemma {:induction false} UrlsFollowHistory(ss: seq<State>, cfg: Settings, actions: seq<Action>, k: nat, n: NodeId)
    requires Behavior(ss, cfg, actions) && k <= |actions|
    ensures n in ss[k].urls <==> UrlGiven(ss, cfg, actions, k, n).Some?
    ensures n in ss[k].urls ==> ss[k].urls[n] == UrlGiven(ss, cfg, actions, k, n).value
  {
    if k > 0 {
      var s, a := ss[k - 1], actions[k - 1];
      UrlsFollowHistory(ss, cfg, actions, k - 1, n);
      match a
      case BeatArrives(r, ts, f) => BeatWrites(s, cfg, r, ts, f);
      case EventArrives(e, f) => EventWrites(s, cfg, e, f);
      case Crash => CrashReboots(s, cfg, n);
      case CrashAfterAppend(r, ts) => CrashKeepsAppend(s, cfg, r, ts);
    }
  }

  /** Without compaction in the store the durable log is the history. */
  lemma {:induction false} AppendOnlyKeepsAll(ss: seq<State>, cfg: Settings, actions: seq<Action>, k: nat)
    requires Behavior(ss, cfg, actions) && k <= |actions| && cfg.kind == AppendOnly
    ensures ss[k].durable == ss[k].history
  {
    if k > 0 {
      var s := ss[k - 1];
      AppendOnlyKeepsAll(ss, cfg, actions, k - 1);
      match actions[k - 1]
      case BeatArrives(r, ts, f) => BeatWrites(s, cfg, r, ts, f);
      case EventArrives(e, f) => EventWrites(s, cfg, e, f);
      case Crash =>
      case CrashAfterAppend(r, ts) => CrashKeepsAppend(s, cfg, r, ts);
    }
  }
}
