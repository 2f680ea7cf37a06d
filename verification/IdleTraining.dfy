/** Training in idle windows (packages/slancha-mesh-tune/mesh/idle.py): the detector's state machine and how far apart
    its training passes are. Times are in seconds. */
module IdleTraining {
  import opened Wrappers

  type Time = real
  datatype Util = Util(gpu: real, queue: int)
  datatype Mode = Active | Ready | Training | Cooldown
  datatype Health = Healthy | InTraining

  datatype Config = Config(gpuIdle: real, queueIdle: int, sustained: Time, cooldown: Time)
  const DEFAULTS := Config(10.0, 0, 60.0, 300.0)

  datatype Detector = Detector(mode: Mode, idleSince: Option<Time>, startedAt: Option<Time>,
                               cooldownUntil: Option<Time>, preempted: bool)
  const INITIAL := Detector(Active, None, None, None, false)

  predicate Idle(c: Config, u: Util) { u.gpu < c.gpuIdle && u.queue <= c.queueIdle }

  datatype Event =
    | Observe(util: Util, now: Time)
    | Start(now: Time)
    | Finish(now: Time)
    | Preempt(now: Time)

  /** Starting needs a ready detector and finishing a training one; otherwise the call raises. */
  predicate Allowed(d: Detector, ev: Event) {
    (ev.Start? ==> d.mode.Ready?) && (ev.Finish? ==> d.mode.Training?)
  }

  function Observed(d: Detector, c: Config, u: Util, now: Time): Detector {
    if d.mode.Cooldown? then
      if d.cooldownUntil.Some? && now < d.cooldownUntil.value then d
      else d.(mode := Active, cooldownUntil := None, idleSince := if Idle(c, u) then Some(now) else None)
    else if d.mode.Training? then d
    else if !Idle(c, u) then d.(mode := Active, idleSince := None)
    else if d.idleSince.None? then d.(idleSince := Some(now))
    else if now - d.idleSince.value >= c.sustained then d.(mode := Ready)
    else d
  }

  function Step(d: Detector, c: Config, ev: Event): Detector {
    if !Allowed(d, ev) then d
    else match ev
      case Observe(u, now) => Observed(d, c, u, now)
      case Start(now) => d.(mode := Training, startedAt := Some(now), preempted := false)
      case Finish(now) => d.(mode := Cooldown, cooldownUntil := Some(now + c.cooldown), startedAt := None, idleSince := None)
      case Preempt(_) => d.(preempted := true)
  }

  ghost predicate Behavior(ds: seq<Detector>, c: Config, evs: seq<Event>) {
    && |ds| == |evs| + 1 && ds[0] == INITIAL
    && (forall i :: 0 <= i < |evs| ==> ds[i + 1] == Step(ds[i], c, evs[i]))
    && (forall i, j :: 0 <= i <= j < |evs| ==> evs[i].now <= evs[j].now)
  }

  predicate Started(ds: seq<Detector>, evs: seq<Event>, i: nat)
    requires |ds| == |evs| + 1 && i < |evs|
  {
    evs[i].Start? && Allowed(ds[i], evs[i])
  }

  predicate Finished(ds: seq<Detector>, evs: seq<Event>, i: nat)
    requires |ds| == |evs| + 1 && i < |evs|
  {
    evs[i].Finish? && Allowed(ds[i], evs[i])
  }

  // ----- why a pass may start -----

  /** A sample, if this event is one, shows an idle machine: the GPU below its threshold, the queue within its own. */
  predicate SampleIdle(c: Config, ev: Event) {
    ev.Observe? ==> ev.util.gpu < c.gpuIdle && ev.util.queue <= c.queueIdle
  }

  /** A pass is neither started nor finished by this event. */
  predicate Quiet(d: Detector, ev: Event) {
    !(Allowed(d, ev) && (ev.Start? || ev.Finish?))
  }

  /** Neither a pass nor a cooldown keeps the detector from counting this sample. */
  predicate Awake(d: Detector, ev: Event) {
    ev.Observe? && !d.mode.Training? && (d.mode.Cooldown? && d.cooldownUntil.Some? ==> ev.now >= d.cooldownUntil.value)
  }

  /** From event `k` on, a sample that counts, every sample was idle and no pass was started or finished. */
  predicate IdleFrom(ds: seq<Detector>, c: Config, evs: seq<Event>, k: nat, n: nat)
    requires k < n <= |evs| < |ds|
  {
    Awake(ds[k], evs[k]) && forall j :: k <= j < n ==> SampleIdle(c, evs[j]) && Quiet(ds[j], evs[j])
  }

  /** Some later sample was taken at least the sustained time after event `k`. */
  predicate Lasted(c: Config, evs: seq<Event>, k: nat, n: nat)
    requires k < n <= |evs|
  {
    exists m :: k < m < n && evs[m].Observe? && evs[m].now - evs[k].now >= c.sustained
  }

  ghost predicate Window(ds: seq<Detector>, c: Config, evs: seq<Event>, k: nat, n: nat) {
    && k < n <= |evs| < |ds| && IdleFrom(ds, c, evs, k, n) && ds[n].idleSince == Some(evs[k].now)
    && (ds[n].mode.Ready? ==> Lasted(c, evs, k, n))
  }

  ghost predicate Justified(ds: seq<Detector>, c: Config, evs: seq<Event>, n: nat)
    requires n < |ds|
  {
    var d := ds[n];
    && (d.mode.Ready? ==> d.idleSince.Some?)
    && (d.mode.Active? || d.mode.Ready? ==> d.idleSince.Some? ==> exists k: nat :: Window(ds, c, evs, k, n))
  }

  lemma WindowGrows(ds: seq<Detector>, c: Config, evs: seq<Event>, k: nat, n: nat)
    requires n < |evs| < |ds| && Window(ds, c, evs, k, n) && ds[n + 1].idleSince == ds[n].idleSince
    requires SampleIdle(c, evs[n]) && Quiet(ds[n], evs[n])
    requires ds[n + 1].mode.Ready? && !ds[n].mode.Ready? ==> evs[n].Observe? && evs[n].now - evs[k].now >= c.sustained
    ensures Window(ds, c, evs, k, n + 1)
  {
    if ds[n].mode.Ready? {
      var m :| k < m < n && evs[m].Observe? && evs[m].now - evs[k].now >= c.sustained;
      assert k < m < n + 1;
    }
  }

  lemma StepJustified(ds: seq<Detector>, c: Config, evs: seq<Event>, n: nat)
    requires Behavior(ds, c, evs) && n < |evs| && Justified(ds, c, evs, n)
    ensures Justified(ds, c, evs, n + 1)
  {
    var d, e := ds[n], ds[n + 1];
    if (e.mode.Active? || e.mode.Ready?) && e.idleSince.Some? {
      if (d.mode.Active? || d.mode.Ready?) && d.idleSince.Some? {
        var k: nat :| Window(ds, c, evs, k, n);
        WindowGrows(ds, c, evs, k, n);
      } else {
        assert Window(ds, c, evs, n, n + 1);
      }
    }
  }

  lemma {:induction false} RunJustified(ds: seq<Detector>, c: Config, evs: seq<Event>, n: nat)
    requires Behavior(ds, c, evs) && n <= |evs|
    ensures Justified(ds, c, evs, n)
  {
    if n > 0 {
      RunJustified(ds, c, evs, n - 1);
      StepJustified(ds, c, evs, n - 1);
    }
  }

  lemma FirstOfWindow(ds: seq<Detector>, c: Config, evs: seq<Event>, k: nat)
    requires Behavior(ds, c, evs) && k < |evs| && Awake(ds[k], evs[k]) && SampleIdle(c, evs[k])
    ensures ds[k + 1].mode.Active? || ds[k + 1].mode.Ready?
    ensures ds[k + 1].idleSince.Some? && ds[k + 1].idleSince.value <= evs[k].now
  {
    RunJustified(ds, c, evs, k);
    assert ds[k + 1] == Step(ds[k], c, evs[k]);
    if ds[k].idleSince.Some? && (ds[k].mode.Active? || ds[k].mode.Ready?) {
      var j: nat :| Window(ds, c, evs, j, k);
      assert evs[j].now <= evs[k].now;
    }
  }

  /** While the window lasts the detector is active or ready, counts from its first sample at the latest, and is ready
      once a sample came late enough. */
  lemma {:induction false} WindowMakesReady(ds: seq<Detector>, c: Config, evs: seq<Event>, k: nat, n: nat)
    requires Behavior(ds, c, evs) && k < n <= |evs| && IdleFrom(ds, c, evs, k, n)
    ensures ds[n].mode.Active? || ds[n].mode.Ready?
    ensures ds[n].idleSince.Some? && ds[n].idleSince.value <= evs[k].now
    ensures Lasted(c, evs, k, n) ==> ds[n].mode.Ready?
  {
    var d, ev := ds[n - 1], evs[n - 1];
    if n == k + 1 {
      FirstOfWindow(ds, c, evs, k);
    } else {
      assert ds[(n - 1) + 1] == Step(d, c, ev) && SampleIdle(c, ev) && Quiet(d, ev);
      WindowMakesReady(ds, c, evs, k, n - 1);
      if Lasted(c, evs, k, n) {
        var m :| k < m < n && evs[m].Observe? && evs[m].now - evs[k].now >= c.sustained;
        if m < n - 1 { assert Lasted(c, evs, k, n - 1); }
      }
    }
  }

  /** The detector is ready exactly after a stretch of idle samples, without a busy one or a pass in it, that lasted the
      sustained time. */
  lemma ReadyIff(ds: seq<Detector>, c: Config, evs: seq<Event>, n: nat)
    requires Behavior(ds, c, evs) && n <= |evs|
    ensures ds[n].mode.Ready? <==> exists k: nat :: k < n && IdleFrom(ds, c, evs, k, n) && Lasted(c, evs, k, n)
  {
    RunJustified(ds, c, evs, n);
    if ds[n].mode.Ready? {
      var k: nat :| Window(ds, c, evs, k, n);
    }
    if k: nat :| k < n && IdleFrom(ds, c, evs, k, n) && Lasted(c, evs, k, n) {
      WindowMakesReady(ds, c, evs, k, n);
    }
  }

  /** A pass starts only after a stretch of idle samples, without a busy one, that lasted the sustained time. */
  lemma StartsAfterIdleStretch(ds: seq<Detector>, c: Config, evs: seq<Event>, n: nat)
    requires Behavior(ds, c, evs) && n < |evs| && Started(ds, evs, n)
    ensures exists k: nat :: k < n && IdleFrom(ds, c, evs, k, n) && Lasted(c, evs, k, n)
  {
    ReadyIff(ds, c, evs, n);
  }

  // ----- passes and cooldowns by history -----

  /** Event `i` started the pass that is under way. */
  ghost predicate UnderWay(ds: seq<Detector>, evs: seq<Event>, i: nat, n: nat)
    requires n <= |evs| && |ds| == |evs| + 1
  {
    i < n && Started(ds, evs, i) && forall m: nat :: i < m < n ==> !Finished(ds, evs, m)
  }

  /** The detector trains exactly while a pass that was started has not finished, and knows since when; only such a pass
      can finish. */
  lemma {:induction false} TrainingIff(ds: seq<Detector>, c: Config, evs: seq<Event>, n: nat)
    requires Behavior(ds, c, evs) && n <= |evs|
    ensures ds[n].mode.Training? <==> exists i: nat :: UnderWay(ds, evs, i, n)
    ensures forall i: nat :: UnderWay(ds, evs, i, n) ==> ds[n].startedAt == Some(evs[i].now)
    ensures !ds[n].mode.Training? ==> ds[n].startedAt.None?
    ensures n < |evs| && Finished(ds, evs, n) ==> ds[n].mode.Training?
  {
    if n > 0 {
      var d, ev := ds[n - 1], evs[n - 1];
      TrainingIff(ds, c, evs, n - 1);
      assert ds[(n - 1) + 1] == Step(d, c, ev);
      forall i: nat ensures UnderWay(ds, evs, i, n) <==>
                              if i == n - 1 then Started(ds, evs, i) else UnderWay(ds, evs, i, n - 1) && !Finished(ds, evs, n - 1) {}
      if Started(ds, evs, n - 1) {
        assert UnderWay(ds, evs, n - 1, n) && !d.mode.Training?;
      } else if d.mode.Training? && !Finished(ds, evs, n - 1) {
        var i: nat :| UnderWay(ds, evs, i, n - 1);
        assert UnderWay(ds, evs, i, n);
      }
    }
  }

  /** Event `f` finished the last pass, and no sample has been taken since its cooldown ended. */
  ghost predicate CoolingSince(ds: seq<Detector>, c: Config, evs: seq<Event>, f: nat, n: nat)
    requires n <= |evs| && |ds| == |evs| + 1
  {
    && f < n && Finished(ds, evs, f)
    && forall m: nat :: f < m < n ==> !Finished(ds, evs, m) && (evs[m].Observe? ==> evs[m].now < evs[f].now + c.cooldown)
  }

  /** The detector rests exactly from a finish until the first sample at or after the end of the cooldown. */
  lemma {:induction false} CooldownIff(ds: seq<Detector>, c: Config, evs: seq<Event>, n: nat)
    requires Behavior(ds, c, evs) && n <= |evs|
    ensures ds[n].mode.Cooldown? <==> exists f: nat :: CoolingSince(ds, c, evs, f, n)
    ensures forall f: nat :: CoolingSince(ds, c, evs, f, n) ==> ds[n].cooldownUntil == Some(evs[f].now + c.cooldown)
    ensures ds[n].mode.Cooldown? ==> ds[n].idleSince.None?
    ensures !ds[n].mode.Cooldown? ==> ds[n].cooldownUntil.None?
  {
    if n > 0 {
      var d, ev := ds[n - 1], evs[n - 1];
      CooldownIff(ds, c, evs, n - 1);
      assert ds[(n - 1) + 1] == Step(d, c, ev);
      forall f: nat ensures CoolingSince(ds, c, evs, f, n) <==>
                              if f == n - 1 then Finished(ds, evs, f)
                              else && CoolingSince(ds, c, evs, f, n - 1) && !Finished(ds, evs, n - 1)
                                   && (ev.Observe? ==> ev.now < evs[f].now + c.cooldown) {}
      if Finished(ds, evs, n - 1) {
        assert CoolingSince(ds, c, evs, n - 1, n);
      } else if d.mode.Cooldown? {
        var f: nat :| CoolingSince(ds, c, evs, f, n - 1);
        if ds[n].mode.Cooldown? { assert CoolingSince(ds, c, evs, f, n); }
      }
    }
  }

  /** Signal `p` has not been cleared by a start. */
  ghost predicate Signalled(ds: seq<Detector>, evs: seq<Event>, p: nat, n: nat)
    requires n <= |evs| && |ds| == |evs| + 1
  {
    p < n && evs[p].Preempt? && forall m: nat :: p < m < n ==> !Started(ds, evs, m)
  }

  /** A pass is asked to stop exactly if a signal came since it was started, or since the last one was. */
  lemma {:induction false} PreemptedIff(ds: seq<Detector>, c: Config, evs: seq<Event>, n: nat)
    requires Behavior(ds, c, evs) && n <= |evs|
    ensures ds[n].preempted <==> exists p: nat :: Signalled(ds, evs, p, n)
  {
    if n > 0 {
      var d, ev := ds[n - 1], evs[n - 1];
      PreemptedIff(ds, c, evs, n - 1);
      assert ds[(n - 1) + 1] == Step(d, c, ev);
      forall p: nat ensures Signalled(ds, evs, p, n) <==>
                              if p == n - 1 then ev.Preempt? else Signalled(ds, evs, p, n - 1) && !Started(ds, evs, n - 1) {}
      if d.preempted && !Started(ds, evs, n - 1) {
        var p: nat :| Signalled(ds, evs, p, n - 1);
        assert Signalled(ds, evs, p, n);
      } else if ev.Preempt? {
        assert Signalled(ds, evs, n - 1, n);
      }
    }
  }

  // ----- spacing -----

  /** What the detector remembers of a finish at `f`: until when it rests, or that the idle window began later. */
  ghost predicate Rests(d: Detector, c: Config, f: Time, clock: Time) {
    && f <= clock
    && (d.mode.Cooldown? ==> d.cooldownUntil.Some? && d.cooldownUntil.value >= f + c.cooldown)
    && (d.mode.Active? || d.mode.Ready? ==>
          f + c.cooldown <= clock && (d.idleSince.Some? ==> f + c.cooldown <= d.idleSince.value))
    && (d.mode.Ready? ==> d.idleSince.Some? && clock - d.idleSince.value >= c.sustained)
    && (d.mode.Training? ==> clock - f >= c.cooldown + c.sustained)
  }

  lemma StepRests(d: Detector, c: Config, ev: Event, f: Time, clock: Time)
    requires Rests(d, c, f, clock) && clock <= ev.now
    ensures Rests(Step(d, c, ev), c, f, ev.now)
    ensures ev.Start? && Allowed(d, ev) ==> ev.now - f >= c.cooldown + c.sustained
  {}

  lemma {:induction false} RestsAfterFinish(ds: seq<Detector>, c: Config, evs: seq<Event>, i: nat, j: nat)
    requires Behavior(ds, c, evs) && i < j <= |evs| && Finished(ds, evs, i)
    ensures Rests(ds[j], c, evs[i].now, evs[j - 1].now)
    decreases j
  {
    assert ds[j] == Step(ds[j - 1], c, evs[j - 1]);
    if j > i + 1 {
      RestsAfterFinish(ds, c, evs, i, j - 1);
      StepRests(ds[j - 1], c, evs[j - 1], evs[i].now, evs[j - 2].now);
    }
  }

  /** After a pass has finished, the next one starts no sooner than the cooldown plus the sustained idle time later. */
  lemma StartsSpaced(ds: seq<Detector>, c: Config, evs: seq<Event>, i: nat, j: nat)
    requires Behavior(ds, c, evs) && i < j < |evs| && Finished(ds, evs, i) && Started(ds, evs, j)
    ensures evs[j].now - evs[i].now >= c.cooldown + c.sustained
  {
    RestsAfterFinish(ds, c, evs, i, j);
    StepRests(ds[j], c, evs[j], evs[i].now, evs[j - 1].now);
  }

  /** A pass that has started goes on until it is finished: nothing that is observed ends it. */
  lemma {:induction false} TrainsUntilFinished(ds: seq<Detector>, c: Config, evs: seq<Event>, i: nat, j: nat)
    requires Behavior(ds, c, evs) && i < j <= |evs| && Started(ds, evs, i)
    requires forall m: nat :: i < m < j ==> !Finished(ds, evs, m)
    ensures ds[j].mode.Training?
    decreases j
  {
    assert ds[j] == Step(ds[j - 1], c, evs[j - 1]);
    if j > i + 1 {
      TrainsUntilFinished(ds, c, evs, i, j - 1);
      assert !Finished(ds, evs, j - 1);
    }
  }

  /** n passes take at least n - 1 times the cooldown plus the sustained idle time. */
  lemma {:induction false} PassRate(ds: seq<Detector>, c: Config, evs: seq<Event>, starts: seq<nat>)
    requires Behavior(ds, c, evs) && |starts| > 0
    requires forall i :: 0 <= i < |starts| ==> starts[i] < |evs| && Started(ds, evs, starts[i])
    requires forall i, j :: 0 <= i < j < |starts| ==> starts[i] < starts[j]
    ensures (|starts| - 1) as real * (c.cooldown + c.sustained) <= evs[starts[|starts| - 1]].now - evs[starts[0]].now
  {
    if |starts| > 1 {
      var front, a, b := starts[..|starts| - 1], starts[|starts| - 2], starts[|starts| - 1];
      PassRate(ds, c, evs, front);
      NextPass(ds, c, evs, a, b);
      var period := c.cooldown + c.sustained;
      assert (|starts| - 1) as real * period == (|front| - 1) as real * period + period;
    }
  }

  lemma NextPass(ds: seq<Detector>, c: Config, evs: seq<Event>, a: nat, b: nat)
    requires Behavior(ds, c, evs) && a < b < |evs| && Started(ds, evs, a) && Started(ds, evs, b)
    ensures evs[b].now - evs[a].now >= c.cooldown + c.sustained
  {
    if forall m: nat :: a < m < b ==> !Finished(ds, evs, m) {
      TrainsUntilFinished(ds, c, evs, a, b);
      assert false;
    }
    var m: nat :| a < m < b && Finished(ds, evs, m);
    StartsSpaced(ds, c, evs, m, b);
  }

  // ----- the class -----

  class IdleDetector {
    const config: Config
    var mode: Mode
    var idleSince: Option<Time>
    var startedAt: Option<Time>
    var cooldownUntil: Option<Time>
    var preempted: bool

    ghost function View(): Detector
      reads this
    {
      Detector(mode, idleSince, startedAt, cooldownUntil, preempted)
    }

    constructor (c: Config)
      ensures View() == INITIAL && config == c
    {
      config, mode := c, Active;
      idleSince, startedAt, cooldownUntil, preempted := None, None, None, false;
    }

    method OnSample(util: Util, now: Time) returns (m: Mode)
      modifies this
      ensures View() == Step(old(View()), config, Observe(util, now)) && m == mode
    {
      var idle := util.gpu < config.gpuIdle && util.queue <= config.queueIdle;
      if mode == Cooldown {
        if cooldownUntil.Some? && now < cooldownUntil.value { return mode; }
        mode, cooldownUntil := Active, None;
        idleSince := if idle then Some(now) else None;
        return mode;
      }
      if mode == Training { return mode; }
      if !idle {
        idleSince, mode := None, Active;
        return mode;
      }
      if idleSince.None? {
        idleSince := Some(now);
        return mode;
      }
      if now - idleSince.value >= config.sustained && mode == Active { mode := Ready; }
      return mode;
    }

    method ShouldStartTraining() returns (start: bool)
      ensures start <==> Allowed(View(), Event.Start(0.0))
    {
      start := mode == Ready;
    }

    /** `false` stands for the RuntimeError. */
    method MarkTrainingStarted(now: Time) returns (ok: bool)
      modifies this
      ensures View() == Step(old(View()), config, Event.Start(now)) && ok == Allowed(old(View()), Event.Start(now))
    {
      if mode != Ready { return false; }
      mode, startedAt, preempted := Training, Some(now), false;
      return true;
    }

    method SignalPreempt(now: Time)
      modifies this`preempted
      ensures View() == Step(old(View()), config, Preempt(now))
    {
      preempted := true;
    }

    method FinishTraining(now: Time) returns (ok: bool)
      modifies this
      ensures View() == Step(old(View()), config, Finish(now)) && ok == Allowed(old(View()), Finish(now))
    {
      if mode != Training { return false; }
      mode, cooldownUntil := Cooldown, Some(now + config.cooldown);
      startedAt, idleSince := None, None;
      return true;
    }

    method ReportHealth() returns (h: Health)
      ensures h.InTraining? <==> mode.Training?
    {
      h := if mode == Training then InTraining else Healthy;
    }
  }
}
