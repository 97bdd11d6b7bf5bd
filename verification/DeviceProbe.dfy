/**
 Device hot-plug (apple/Dub/MainView.swift): a burst of notifications is debounced by a timer,
 the probe runs off the main actor, and only a probe still carrying the newest token is applied.
 */
module DeviceProbe {
  import opened Prelude

  datatype Device = Device(uid: string, isInterface: bool, outputChannels: nat)

  /** What a change applies to. */
  datatype Setup = Setup(
    interfaces: seq<Device>, outputs: seq<Device>,
    inputUID: Option<string>, outputUID: Option<string>,
    modeOverride: Option<EngineMode>, vinylRecording: bool, mode: EngineMode, restarts: nat)

  datatype Probe = Probe(all: seq<Device>, hasInterface: bool)

  function Interfaces(all: seq<Device>): seq<Device> {
    if all == [] then []
    else (if all[0].isInterface then [all[0]] else []) + Interfaces(all[1..])
  }

  function Outputs(all: seq<Device>): seq<Device> {
    if all == [] then []
    else (if all[0].outputChannels >= 2 then [all[0]] else []) + Outputs(all[1..])
  }

  predicate Lists(devices: seq<Device>, uid: string) {
    exists i :: 0 <= i < |devices| && devices[i].uid == uid
  }

  function ApplyDeviceList(s: Setup, all: seq<Device>): Setup {
    var interfaces := Interfaces(all);
    var outputs := Outputs(all);
    var input := if s.inputUID.Some? && !Lists(interfaces, s.inputUID.value) then None else s.inputUID;
    var output := if s.outputUID.Some? && !Lists(outputs, s.outputUID.value) then None else s.outputUID;
    var defaulted := if input == None && interfaces != [] then Some(interfaces[0].uid) else input;
    s.(interfaces := interfaces, outputs := outputs, inputUID := defaulted, outputUID := output)
  }

  function Detect(s: Setup, hasInterface: bool): EngineMode {
    if hasInterface && s.vinylRecording && s.modeOverride.Some? then s.modeOverride.value
    else if hasInterface then Timecode else Prep
  }

  function ApplyChange(s: Setup, p: Probe): Setup {
    var listed := ApplyDeviceList(s, p.all);
    var freed := if p.hasInterface then listed else listed.(modeOverride := None);
    var desired := Detect(freed, p.hasInterface);
    if desired == freed.mode then freed
    else freed.(mode := desired, restarts := freed.restarts + 1)
  }

  predicate Present(s: Setup) {
    && (s.inputUID.Some? ==> Lists(s.interfaces, s.inputUID.value))
    && (s.outputUID.Some? ==> Lists(s.outputs, s.outputUID.value))
    && (s.interfaces != [] ==> s.inputUID.Some?)
  }

  /** Every selection is plugged in, an interface that is there is selected, the override has gone with
      its interface, the mode is the detected one, and applying the probe again changes nothing and
      restarts nothing. */
  predicate SettledBy(s: Setup, p: Probe) {
    && Present(s) && ApplyChange(s, p) == s
    && (!p.hasInterface ==> s.modeOverride == None && s.mode == Prep)
    && (p.hasInterface ==>
          s.mode == if s.vinylRecording && s.modeOverride.Some? then s.modeOverride.value else Timecode)
  }

  /** Applying a change settles the setup, and keeps an override whose interface is there. */
  lemma ChangeSettles(s: Setup, p: Probe)
    ensures SettledBy(ApplyChange(s, p), p)
    ensures p.hasInterface ==> ApplyChange(s, p).modeOverride == s.modeOverride
  {
    var interfaces := Interfaces(p.all);
    if interfaces != [] { assert Lists(interfaces, interfaces[0].uid); }
  }

  /** The lists are the probe's interfaces and stereo outputs, and no other device. */
  lemma {:induction false} ListsAreTheProbes(all: seq<Device>, d: Device)
    ensures d in Interfaces(all) <==> d in all && d.isInterface
    ensures d in Outputs(all) <==> d in all && d.outputChannels > 1
  {
    if all == [] {
    } else {
      ListsAreTheProbes(all[1..], d);
      assert d in all <==> d == all[0] || d in all[1..];
    }
  }

  /** An input that has gone is replaced by the first interface of the probe, if there is one. */
  lemma {:induction false} FirstInterfaceIsFirst(all: seq<Device>, k: nat)
    requires k < |all| && all[k].isInterface && forall i :: 0 <= i < k ==> !all[i].isInterface
    ensures Interfaces(all) != [] && Interfaces(all)[0] == all[k]
  {
    if k == 0 {
    } else {
      FirstInterfaceIsFirst(all[1..], k - 1);
    }
  }

  /** The engine is restarted once when the detected mode changes, and not otherwise. */
  lemma ModeChangeRestartsOnce(s: Setup, p: Probe)
    ensures var n := ApplyChange(s, p);
            && n.restarts == s.restarts + (if n.mode == s.mode then 0 else 1)
            && n.interfaces == Interfaces(p.all) && n.outputs == Outputs(p.all)
            && (s.inputUID.None? || !Lists(Interfaces(p.all), s.inputUID.value) ==>
                  n.inputUID == if Interfaces(p.all) == [] then None else Some(Interfaces(p.all)[0].uid))
  {
  }

  /** Selections that are still plugged in survive. */
  lemma ChangeKeepsLiveSelections(s: Setup, p: Probe)
    ensures var n := ApplyChange(s, p);
            && ((s.inputUID.Some? && Lists(Interfaces(p.all), s.inputUID.value)) ==>
                  n.inputUID == s.inputUID)
            && ((s.outputUID.Some? && Lists(Outputs(p.all), s.outputUID.value)) <==>
                  (n.outputUID == s.outputUID && n.outputUID.Some?))
  {}

  // ----- The debounce -----

  /** `token` counts notifications. `timers` and `probes` are the tokens waiting in each stage;
      `applied` the tokens applied so far, newest last. */
  datatype Queue = Queue(
    token: nat, timers: set<nat>, probes: set<nat>, applied: seq<nat>, setup: Setup)

  datatype Step = Notify | TimerFires(token: nat) | ProbeLands(token: nat, probe: Probe)

  function Do(q: Queue, s: Step): Queue {
    match s
    case Notify => q.(token := q.token + 1, timers := q.timers + {q.token + 1})
    case TimerFires(t) =>
      if t !in q.timers then q
      else
        var r := q.(timers := q.timers - {t});
        if t == q.token then r.(probes := r.probes + {q.token}) else r
    case ProbeLands(t, p) =>
      if t !in q.probes then q
      else
        var r := q.(probes := q.probes - {t});
        if t == q.token then r.(applied := r.applied + [t], setup := ApplyChange(r.setup, p)) else r
  }

  function Run(q: Queue, steps: seq<Step>): Queue
    decreases |steps|
  {
    if steps == [] then q else Run(Do(q, steps[0]), steps[1..])
  }

  /** Each token is in one place at most: waiting on its timer, being probed, or applied. The
      newest is in one of them, and what was applied was applied in order. */
  ghost predicate Inv(q: Queue) {
    && q.timers !! q.probes
    && (forall t | t in q.timers + q.probes :: 0 < t <= q.token)
    && (forall i :: 0 <= i < |q.applied| ==>
          && 0 < q.applied[i] <= q.token
          && q.applied[i] !in q.timers && q.applied[i] !in q.probes)
    && (0 < q.token ==> q.token in q.timers || q.token in q.probes || q.token in q.applied)
    && (forall i, j :: 0 <= i < j < |q.applied| ==> q.applied[i] < q.applied[j])
  }

  lemma StepKeepsInv(q: Queue, s: Step)
    requires Inv(q)
    ensures Inv(Do(q, s))
    ensures Do(q, s).applied != q.applied ==>
              s.ProbeLands? && s.token == q.token && Do(q, s).applied == q.applied + [q.token]
  {
    var n := Do(q, s);
    if n.applied != q.applied {
      assert n.applied[|q.applied|] == q.token && q.token in q.probes;
    }
    if 0 < q.token && q.token in q.applied {
      assert q.token in n.applied;
    }
  }

  function Empty(setup: Setup): Queue {
    Queue(0, {}, {}, [], setup)
  }

  /** In every interleaving, what is applied is the newest token's probe, each token at most once
      and in order. */
  lemma {:induction false} AppliedTokensAreNewest(q: Queue, steps: seq<Step>)
    requires Inv(q)
    ensures Inv(Run(q, steps))
    ensures q.applied <= Run(q, steps).applied
    decreases |steps|
  {
    if steps == [] {
    } else {
      StepKeepsInv(q, steps[0]);
      AppliedTokensAreNewest(Do(q, steps[0]), steps[1..]);
    }
  }

  /** So it is in every state the app can reach from launch. */
  lemma ReachableTokensAreNewest(setup: Setup, steps: seq<Step>)
    ensures Inv(Run(Empty(setup), steps))
  {
    AppliedTokensAreNewest(Empty(setup), steps);
  }

  lemma {:induction false} TokenStays(q: Queue, steps: seq<Step>)
    requires forall i :: 0 <= i < |steps| ==> !steps[i].Notify?
    ensures Run(q, steps).token == q.token
    decreases |steps|
  {
    if steps == [] {
    } else {
      TokenStays(Do(q, steps[0]), steps[1..]);
    }
  }

  /** Once notifications cease and everything waiting has run, the last one has been applied, and
      it was applied last. */
  lemma LastNotificationIsApplied(q: Queue, steps: seq<Step>)
    requires Inv(q) && 0 < q.token
    requires forall i :: 0 <= i < |steps| ==> !steps[i].Notify?
    requires Run(q, steps).timers == {} && Run(q, steps).probes == {}
    ensures var applied := Run(q, steps).applied;
            && applied != [] && applied[|applied| - 1] == q.token
            && (forall i :: 0 <= i < |applied| - 1 ==> applied[i] < q.token)
  {
    AppliedTokensAreNewest(q, steps);
    TokenStays(q, steps);
    var applied := Run(q, steps).applied;
    var i :| 0 <= i < |applied| && applied[i] == q.token;
    assert applied[|applied| - 1] <= q.token;
  }

  /** `last` is the landing that was applied last, if any was; the setup is settled by its probe. */
  predicate LastApplied(q: Queue, last: Option<Step>) {
    match last
    case None => q.applied == []
    case Some(s) =>
      s.ProbeLands? && q.applied != [] && q.applied[|q.applied| - 1] == s.token && SettledBy(q.setup, s.probe)
  }

  /** Only the landing of the newest probe touches the setup. */
  lemma StepSettles(q: Queue, s: Step, last: Option<Step>)
    requires LastApplied(q, last)
    ensures var n := Do(q, s);
            if n.applied == q.applied then n.setup == q.setup && LastApplied(n, last)
            else LastApplied(n, Some(s))
  {
    hide ApplyChange, SettledBy;
    if s.ProbeLands? { ChangeSettles(q.setup, s.probe); }
  }

  lemma {:induction false} SetupStaysSettled(q: Queue, steps: seq<Step>, last: Option<Step>)
    returns (p: Option<Step>)
    requires LastApplied(q, last)
    ensures LastApplied(Run(q, steps), p) && (p == last || (p.Some? && p.value in steps))
    ensures p.None? ==> Run(q, steps).setup == q.setup
    decreases |steps|
  {
    if steps == [] {
      p := last;
    } else {
      hide LastApplied, Do;
      var next := Do(q, steps[0]);
      StepSettles(q, steps[0], last);
      p := SetupStaysSettled(next, steps[1..], if next.applied == q.applied then last else Some(steps[0]));
    }
  }

  /** In every run from launch the setup is the one the app started with until a probe is applied, and
      from then on it is settled by the probe last applied. */
  lemma SetupIsSettled(setup: Setup, steps: seq<Step>) returns (last: Option<Step>)
    ensures LastApplied(Run(Empty(setup), steps), last)
    ensures if last.None? then Run(Empty(setup), steps).setup == setup else last.value in steps
  {
    last := SetupStaysSettled(Empty(setup), steps, None);
  }

  // ----- Draining -----

  /** What the step runs is waiting. */
  predicate Waits(q: Queue, s: Step) {
    match s
    case Notify => false
    case TimerFires(t) => t in q.timers
    case ProbeLands(t, _) => t in q.probes
  }

  predicate AllWait(q: Queue, steps: seq<Step>)
    decreases |steps|
  {
    steps == [] || (Waits(q, steps[0]) && AllWait(Do(q, steps[0]), steps[1..]))
  }

  /** Everything waiting, and the probe the newest timer has yet to start. */
  function Left(q: Queue): nat {
    |q.timers| + |q.probes| + if q.token in q.timers then 1 else 0
  }

  lemma WaitingStepCounts(q: Queue, s: Step)
    requires Inv(q) && Waits(q, s)
    ensures Left(Do(q, s)) == Left(q) - 1
  {
    if s.TimerFires? && s.token == q.token {
      assert q.token !in q.probes;
    }
  }

  /** Once notifications cease, whatever order timers and probes come back in, exactly `Left` of them
      empty the queue, and then the last notification has been applied, last. */
  lemma {:induction false} QueueDrainsExactly(q: Queue, steps: seq<Step>)
    requires Inv(q) && AllWait(q, steps)
    ensures var n := Run(q, steps);
            && Left(n) == Left(q) - |steps| && n.token == q.token
            && (|steps| == Left(q) <==> n.timers == {} && n.probes == {})
            && (|steps| == Left(q) && 0 < q.token ==>
                  n.applied != [] && n.applied[|n.applied| - 1] == q.token)
    decreases |steps|
  {
    if steps == [] {
      if Left(q) == 0 && 0 < q.token { LastNotificationIsApplied(q, steps); }
    } else {
      StepKeepsInv(q, steps[0]);
      WaitingStepCounts(q, steps[0]);
      QueueDrainsExactly(Do(q, steps[0]), steps[1..]);
    }
  }
}
