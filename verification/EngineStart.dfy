/**
 Background engine starts (apple/Dub/App/EngineStartGate.swift and its callers in
 apple/Dub/MainView.swift): each start takes a ticket, and only the newest ticket not since
 cancelled may commit.
 */
module EngineStart {
  import opened Prelude

  const WORD: nat := 0x1_0000_0000_0000_0000

  // ----- The protocol -----

  /** The gate's 64-bit stamp of an operation. */
  function Ticket(operation: nat): nat {
    operation % WORD
  }

  /** `operations` counts every begin and cancel there has been, without wrapping; a start is
      known by its count. The gate sees only the count's ticket. */
  datatype Starts = Starts(
    operations: nat, connecting: Option<string>, pending: set<nat>, isRunning: bool)

  const COLD: Starts := Starts(0, None, {}, false)

  datatype Step =
    | ApplyTimecode(device: string)
    | ApplyPrep(up: bool)
    | StopEngine
    | Land(start: nat, up: bool)

  function Stop(s: Starts): Starts {
    s.(operations := s.operations + 1, connecting := None, isRunning := false)
  }

  /** A configuration change stops whatever runs or is on its way. */
  function StopFirst(s: Starts): Starts {
    if s.isRunning || s.connecting.Some? then Stop(s) else s
  }

  predicate Commits(s: Starts, start: nat) {
    Ticket(start) == Ticket(s.operations)
  }

  function Do(s: Starts, step: Step): Starts {
    match step
    case ApplyTimecode(device) =>
      var r := StopFirst(s);
      var n := r.operations + 1;
      r.(operations := n, connecting := Some(device), pending := r.pending + {n})
    case ApplyPrep(up) =>
      var r := StopFirst(s);
      if up then r.(isRunning := true) else r
    case StopEngine => Stop(s)
    case Land(start, up) =>
      if start !in s.pending then s
      else
        var r := s.(pending := s.pending - {start});
        if !Commits(s, start) then r
        else r.(connecting := None, isRunning := up || s.isRunning)
  }

  function Run(s: Starts, steps: seq<Step>): Starts
    decreases |steps|
  {
    if steps == [] then s else Run(Do(s, steps[0]), steps[1..])
  }

  /** The device shown as connecting is there exactly while the newest start has not landed. */
  predicate Inv(s: Starts) {
    && (forall j | j in s.pending :: 0 < j <= s.operations)
    && (s.connecting.Some? <==> s.operations in s.pending)
  }

  /** No landing start is a whole word of operations old. */
  predicate Timely(s: Starts, step: Step) {
    step.Land? && step.start in s.pending ==> s.operations < step.start + WORD
  }

  lemma MultipleHasNoRest(k: int)
    ensures (k * WORD) % WORD == 0
  {}

  lemma RestIgnoresMultiples(a: nat, k: nat)
    ensures (a + k * WORD) % WORD == a % WORD
  {}

  lemma SameResidue(a: nat, b: nat)
    requires a <= b
    ensures a % WORD == b % WORD <==> (b - a) % WORD == 0
    ensures b < a + WORD ==> ((b - a) % WORD == 0 <==> a == b)
  {
    var (p, q) := (a / WORD, b / WORD);
    assert a == p * WORD + a % WORD && b == q * WORD + b % WORD;
    if a % WORD == b % WORD {
      assert b - a == (q - p) * WORD;
      MultipleHasNoRest(q - p);
    }
    if (b - a) % WORD == 0 {
      var k := (b - a) / WORD;
      assert b == a + k * WORD;
      RestIgnoresMultiples(a, k);
    }
  }

  /** A start commits exactly when the operations since its own begin are a multiple of 2^64:
      in practice, when there have been none. */
  lemma CommitsExactly(s: Starts, start: nat)
    requires Inv(s) && start in s.pending
    ensures Commits(s, start) <==> (s.operations - start) % WORD == 0
    ensures s.operations < start + WORD ==> (Commits(s, start) <==> start == s.operations)
  {
    SameResidue(start, s.operations);
  }

  lemma StepKeepsInv(s: Starts, step: Step)
    requires Inv(s) && Timely(s, step)
    ensures Inv(Do(s, step))
    ensures step.Land? && Do(s, step).isRunning && !s.isRunning ==> step.start == s.operations
  {
    if step.Land? && step.start in s.pending { CommitsExactly(s, step.start); }
  }

  predicate AllTimely(s: Starts, steps: seq<Step>)
    decreases |steps|
  {
    steps == [] || (Timely(s, steps[0]) && AllTimely(Do(s, steps[0]), steps[1..]))
  }

  /** Over every interleaving of starts, stops and late landings, the status strip shows
      CONNECTING exactly while the newest start is out. */
  lemma {:induction false} ConnectingIsTheNewestStart(s: Starts, steps: seq<Step>)
    requires Inv(s) && AllTimely(s, steps)
    ensures Inv(Run(s, steps))
    decreases |steps|
  {
    if steps == [] {
    } else {
      StepKeepsInv(s, steps[0]);
      ConnectingIsTheNewestStart(Do(s, steps[0]), steps[1..]);
    }
  }

  /** So it is in every state the app can reach from launch. */
  lemma ReachableIsSound(steps: seq<Step>)
    requires AllTimely(COLD, steps)
    ensures Inv(Run(COLD, steps))
  {
    ConnectingIsTheNewestStart(COLD, steps);
  }

  /** A start that a later begin or a stop has overtaken never counts again: wherever in a run it
      lands, and whatever it found, the landing changes nothing but the list of starts still out.
      So no superseded and no stopped start ever sets `isRunning`. */
  lemma {:induction false} OvertakenStartChangesNothing(s: Starts, steps: seq<Step>, i: nat)
    requires Inv(s) && AllTimely(s, steps) && i < |steps|
    requires steps[i].Land? && steps[i].start < s.operations
    ensures var m := Run(s, steps[..i]);
            Do(m, steps[i]) == m.(pending := m.pending - {steps[i].start})
    decreases |steps|
  {
    if i == 0 {
      if steps[0].start in s.pending { CommitsExactly(s, steps[0].start); }
    } else {
      StepKeepsInv(s, steps[0]);
      OvertakenStartChangesNothing(Do(s, steps[0]), steps[1..], i - 1);
      assert steps[..i][1..] == steps[1..][..i - 1];
    }
  }

  /** What a configuration change leaves: every start out before it is overtaken. Prep shows nothing
      as connecting and is up as its output opened; timecode mode is down, connecting its device with
      a start of its own. */
  lemma ChangeOvertakes(s: Starts, change: Step)
    requires Inv(s) && (change.ApplyPrep? || change.ApplyTimecode?)
    ensures var n := Do(s, change);
            var stopped := if s.isRunning || s.connecting.Some? then 1 else 0;
            && (forall start | start in s.pending :: start < n.operations)
            && (change.ApplyPrep? ==>
                  n == Starts(s.operations + stopped, None, s.pending, change.up))
            && (change.ApplyTimecode? ==>
                  && n.operations == s.operations + stopped + 1 && n.operations !in s.pending
                  && n == Starts(n.operations, Some(change.device), s.pending + {n.operations}, false))
  {
  }

  /** A start on its way is cancelled by a change of configuration, to Prep as much as to another
      interface: wherever in a run after it the start comes back, it leaves the list of starts still
      out and does nothing else. */
  lemma ChangedConfigurationStands(s: Starts, change: Step, steps: seq<Step>, i: nat)
    requires Inv(s) && (change.ApplyPrep? || change.ApplyTimecode?)
    requires AllTimely(Do(s, change), steps) && i < |steps|
    requires steps[i].Land? && steps[i].start in s.pending
    ensures var m := Run(Do(s, change), steps[..i]);
            Do(m, steps[i]) == m.(pending := m.pending - {steps[i].start})
  {
    ChangeOvertakes(s, change);
    StepKeepsInv(s, change);
    OvertakenStartChangesNothing(Do(s, change), steps, i);
  }

  /** A stop is one operation, and leaves the model down with nothing connecting. */
  lemma StopOvertakes(s: Starts)
    requires Inv(s)
    ensures Do(s, StopEngine) == Starts(s.operations + 1, None, s.pending, false)
    ensures forall start | start in s.pending :: start < Do(s, StopEngine).operations
  {
  }

  lemma {:induction false} NothingLeftToCommit(s: Starts, landings: seq<Step>)
    requires Inv(s) && !s.isRunning && s.connecting == None && AllTimely(s, landings)
    requires forall i :: 0 <= i < |landings| ==> landings[i].Land?
    ensures var n := Run(s, landings);
            !n.isRunning && n.connecting == None && Inv(n)
    decreases |landings|
  {
    if landings == [] {
    } else {
      var step := landings[0];
      StepKeepsInv(s, step);
      if step.start in s.pending { CommitsExactly(s, step.start); }
      NothingLeftToCommit(Do(s, step), landings[1..]);
    }
  }

  /** After a stop, whatever lands, and in whatever order, the model does not come back up. */
  lemma StoppedStaysStopped(s: Starts, landings: seq<Step>)
    requires Inv(s) && AllTimely(Stop(s), landings)
    requires forall i :: 0 <= i < |landings| ==> landings[i].Land?
    ensures var n := Run(Stop(s), landings);
            !n.isRunning && n.connecting == None && Inv(n)
  {
    assert Stop(s) == Do(s, StopEngine);
    StepKeepsInv(s, StopEngine);
    NothingLeftToCommit(Stop(s), landings);
  }

  /** The newest start, landing with the interface open, does bring the model up. */
  lemma NewestStartCommits(s: Starts, device: string)
    requires Inv(s)
    ensures var begun := Do(s, ApplyTimecode(device));
            var n := Do(begun, Land(begun.operations, true));
            && begun.connecting == Some(device) && n.isRunning && n.connecting == None
            && !Do(begun, Land(begun.operations, false)).isRunning
  {}

  /** The 64 bits do run out: a start that is exactly a word of operations old commits again,
      even though a stop has followed it. */
  lemma WordOldStartCommits(start: nat)
    requires 0 < start
    ensures var s := Starts(start + WORD, None, {start}, false);
            Inv(s) && Do(s, Land(start, true)).isRunning
  {
    RestIgnoresMultiples(start, 1);
  }

  // ----- The gate and its owner, in place -----

  lemma NextTicket(n: nat)
    ensures (Ticket(n) + 1) % WORD == Ticket(n + 1)
  {
  }

  lemma TicketsAreDistinct(operations: nat)
    ensures forall start: nat :: start <= operations < start + WORD ==>
              (Ticket(start) == Ticket(operations) <==> start == operations)
  {
    forall start: nat | start <= operations < start + WORD
      ensures Ticket(start) == Ticket(operations) <==> start == operations
    {
      SameResidue(start, operations);
    }
  }

  /** A wrapping generation, and the device the newest start is bringing up. `operations` is the
      count the generation stands for. */
  class EngineStartGate {
    var generation: nat
    var connecting: Option<string>
    ghost var operations: nat

    ghost predicate Valid()
      reads this
    {
      generation == Ticket(operations)
    }

    /** No start among the last word of operations holds the generation, but the newest. */
    ghost predicate OnlyNewestMatches()
      reads this
    {
      forall start: nat :: start <= operations < start + WORD ==>
        (Ticket(start) == generation <==> start == operations)
    }

    constructor ()
      ensures Valid() && operations == 0 && connecting == None
    {
      generation, connecting, operations := 0, None, 0;
    }

    predicate InFlight()
      reads this
    {
      connecting.Some?
    }

    /** A start is about to go to the background. Its ticket is the one that commits from here on,
        and no other start's does. */
    method Begin(device: string) returns (ticket: nat)
      requires Valid()
      modifies this
      ensures Valid() && operations == old(operations) + 1
      ensures ticket == Ticket(operations) && connecting == Some(device)
      ensures OnlyNewestMatches()
    {
      generation := (generation + 1) % WORD;
      connecting := Some(device);
      operations := operations + 1;
      NextTicket(operations - 1);
      TicketsAreDistinct(operations);
      return generation;
    }

    /** Whatever start is in flight must not commit: no ticket handed out before matches now. */
    method Cancel()
      requires Valid()
      modifies this
      ensures Valid() && operations == old(operations) + 1 && connecting == None
      ensures OnlyNewestMatches()
      ensures forall start: nat :: start <= old(operations) && operations < start + WORD ==>
                Ticket(start) != generation
    {
      generation := (generation + 1) % WORD;
      connecting := None;
      operations := operations + 1;
      NextTicket(operations - 1);
      TicketsAreDistinct(operations);
    }

    /** A start has landed with the ticket it was given. It commits, and stops showing as
        connecting, exactly when a whole word of operations, or none, has followed its begin. */
    method Finish(ticket: nat, ghost start: nat) returns (commits: bool)
      requires Valid() && ticket == Ticket(start) && start <= operations
      modifies this`connecting
      ensures commits <==> (operations - start) % WORD == 0
      ensures operations < start + WORD ==> (commits <==> start == operations)
      ensures connecting == if commits then None else old(connecting)
    {
      SameResidue(start, operations);
      if ticket != generation { return false; }
      connecting := None;
      return true;
    }
  }

  /** The part of the app model that starts and stops the engine, with the gate it owns. `pending`
      is the starts still out on the background queue. */
  class StartModel {
    const engineStarts: EngineStartGate
    var isRunning: bool
    ghost var pending: set<nat>

    ghost predicate Valid()
      reads this, engineStarts
    {
      engineStarts.Valid() && forall start :: start in pending ==> 0 < start <= engineStarts.operations
    }

    ghost function State(): Starts
      reads this, engineStarts
    {
      Starts(engineStarts.operations, engineStarts.connecting, pending, isRunning)
    }

    constructor ()
      ensures Valid() && fresh(engineStarts) && State() == COLD
    {
      engineStarts := new EngineStartGate();
      isRunning, pending := false, {};
    }

    method StopEngineNow()
      requires Valid()
      modifies this, engineStarts
      ensures Valid() && State() == Do(old(State()), StopEngine)
    {
      engineStarts.Cancel();
      isRunning := false;
    }

    /** `applyConfig` in timecode mode, up to the hand-over to the background queue. */
    method ApplyConfigTimecode(device: string) returns (ticket: nat, ghost start: nat)
      requires Valid()
      modifies this, engineStarts
      ensures Valid() && State() == Do(old(State()), ApplyTimecode(device))
      ensures start == State().operations && ticket == Ticket(start) && start in pending
    {
      if isRunning || engineStarts.InFlight() {
        StopEngineNow();
      }
      ticket := engineStarts.Begin(device);
      start := engineStarts.operations;
      pending := pending + {start};
    }

    /** `applyConfig` in prep mode; `up` is whether the output opened. */
    method ApplyConfigPrep(up: bool)
      requires Valid()
      modifies this, engineStarts
      ensures Valid() && State() == Do(old(State()), ApplyPrep(up))
    {
      if isRunning || engineStarts.InFlight() {
        StopEngineNow();
      }
      if up { isRunning := true; }
    }

    /** A background start comes back to the main actor. */
    method StartLanded(ticket: nat, up: bool, ghost start: nat)
      requires Valid() && ticket == Ticket(start) && start in pending
      modifies this, engineStarts
      ensures Valid() && State() == Do(old(State()), Land(start, up))
    {
      SameResidue(start, engineStarts.operations);
      pending := pending - {start};
      var commits := engineStarts.Finish(ticket, start);
      if !commits { return; }
      if up { isRunning := true; }
    }
  }
}
