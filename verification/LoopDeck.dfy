/**
 One deck's loop controls (apple/Dub/MainView.swift and apple/Dub/Performance/DeckSections.swift):
 the state the app paints, the region the engine holds, and the poll that copies one to the other.
 */
module LoopDeck {
  import opened Prelude
  import opened Reals
  import R = LoopRegion

  /** `region` is the engine's loop and `grid` its beat lines, both in track seconds; the rest is the
      app's copy and its own. */
  datatype Deck = Deck(
    isRunning: bool, hasTrack: bool, loopActive: bool, loopIn: real, loopOut: real,
    activeLoopBeats: Option<real>, activeLoopBars: Option<real>, pendingLoopIn: Option<real>,
    region: Option<R.Region>, grid: seq<real>)

  function Unloaded(isRunning: bool): Deck {
    Deck(isRunning, false, false, 0.0, 0.0, None, None, None, None, [])
  }

  /** One press, one poll or one load; `accepted` is whether the engine's command queue had room. */
  datatype Step =
    | Grab(beats: real, playhead: real, accepted: bool)
    | GrabBars(bars: real, beatsPerBar: nat, playhead: real, accepted: bool)
    | LoopIn(elapsed: real, snap: bool)
    | LoopOut(elapsed: real, snap: bool, accepted: bool)
    | Scale(double: bool, accepted: bool)
    | Exit(accepted: bool)
    | Poll
    | Load(grid: seq<real>)

  const SHORTEST: real := 0.125
  const LONGEST: real := 16.0
  const TOLERANCE: real := 0.000000001

  function Placed(d: Deck, secs: real, snap: bool): real {
    if snap then R.SnappedToGrid(d.grid, secs) else secs
  }

  /** A grab the grid cannot place sends nothing, so nothing can be refused. */
  function OnGrab(d: Deck, beats: real, playhead: real, accepted: bool): Deck {
    var grabbed := R.ReverseLoopRegion(playhead, d.grid, beats);
    if !d.isRunning || beats <= 0.0 || !d.hasTrack || (grabbed.Some? && !accepted) then d
    else
      d.(activeLoopBeats := Some(beats), loopActive := true,
         region := if grabbed.Some? then grabbed else d.region)
  }

  function BeatsIn(bars: real, beatsPerBar: nat): int {
    var n := Rounded(bars * (if beatsPerBar > 1 then beatsPerBar else 1) as real);
    if n > 1 then n else 1
  }

  /** The older grab, in bars: its own pad lights, and the loop itself shows at the next poll. */
  function OnGrabBars(d: Deck, bars: real, beatsPerBar: nat, playhead: real, accepted: bool): Deck {
    var grabbed := R.ReverseLoopRegion(playhead, d.grid, BeatsIn(bars, beatsPerBar) as real);
    if !d.isRunning || !d.hasTrack || (grabbed.Some? && !accepted) then d
    else d.(activeLoopBars := Some(bars), region := if grabbed.Some? then grabbed else d.region)
  }

  function OnLoopIn(d: Deck, elapsed: real, snap: bool): Deck {
    if !d.isRunning || !d.hasTrack || elapsed < 0.0 then d
    else d.(pendingLoopIn := Some(Placed(d, elapsed, snap)))
  }

  /** The engine ignores an empty region. */
  function ManualLoop(d: Deck, lin: real, lout: real): Option<R.Region> {
    if !d.hasTrack || lout <= lin then d.region else Some(R.Region(lin, lout))
  }

  function OnLoopOut(d: Deck, elapsed: real, snap: bool, accepted: bool): Deck {
    if !d.isRunning || d.pendingLoopIn.None? then d
    else
      var (lin, lout) := (d.pendingLoopIn.value, Placed(d, elapsed, snap));
      if lout <= lin || (d.hasTrack && !accepted) then d
      else d.(region := ManualLoop(d, lin, lout), pendingLoopIn := None, activeLoopBars := None)
  }

  function Scaled(x: real, double: bool): real {
    if double then x * 2.0 else x / 2.0
  }

  predicate OnScale(beats: real) {
    SHORTEST - TOLERANCE <= beats <= LONGEST + TOLERANCE
  }

  /** The press is live: a loop is painted, and its length stays on the ladder. */
  predicate Scales(d: Deck, double: bool) {
    && d.isRunning && d.hasTrack && d.loopActive && d.loopOut > d.loopIn
    && (d.activeLoopBeats.Some? ==> OnScale(Scaled(d.activeLoopBeats.value, double)))
  }

  function OnScalePress(d: Deck, double: bool, accepted: bool): Deck {
    if !Scales(d, double) || !accepted then d
    else
      d.(region := ManualLoop(d, d.loopIn, d.loopIn + Scaled(d.loopOut - d.loopIn, double)),
         activeLoopBeats :=
           if d.activeLoopBeats.Some? then Some(Scaled(d.activeLoopBeats.value, double)) else None)
  }

  function OnExit(d: Deck, accepted: bool): Deck {
    if !d.isRunning
       || (d.activeLoopBars.None? && d.activeLoopBeats.None? && !d.loopActive && d.pendingLoopIn.None?)
    then d
    else d.(region := if accepted then None else d.region, activeLoopBeats := None, activeLoopBars := None,
            loopActive := false, pendingLoopIn := None)
  }

  /** The telemetry of a deck with no loop reads zero. */
  function OnPoll(d: Deck): Deck {
    match d.region
    case Some(r) => d.(loopActive := true, loopIn := r.lin, loopOut := r.lout)
    case None =>
      d.(loopActive := false, loopIn := 0.0, loopOut := 0.0, activeLoopBeats := None, activeLoopBars := None)
  }

  function Do(d: Deck, step: Step): Deck {
    match step
    case Grab(beats, playhead, accepted) => OnGrab(d, beats, playhead, accepted)
    case GrabBars(bars, beatsPerBar, playhead, accepted) => OnGrabBars(d, bars, beatsPerBar, playhead, accepted)
    case LoopIn(elapsed, snap) => OnLoopIn(d, elapsed, snap)
    case LoopOut(elapsed, snap, accepted) => OnLoopOut(d, elapsed, snap, accepted)
    case Scale(double, accepted) => OnScalePress(d, double, accepted)
    case Exit(accepted) => OnExit(d, accepted)
    case Poll => OnPoll(d)
    case Load(grid) => d.(hasTrack := true, region := None, grid := grid)
  }

  function Run(d: Deck, steps: seq<Step>): Deck
    decreases |steps|
  {
    if steps == [] then d else Run(Do(d, steps[0]), steps[1..])
  }

  // ----- What every run keeps -----

  /** The lengths the pads offer. */
  const LADDER: seq<real> := [0.125, 0.25, 0.5, 1.0, 2.0, 4.0, 8.0, 16.0]

  /** A live region has length, and a lit pad is one of the ladder's. */
  predicate Inv(d: Deck) {
    && (d.region.Some? ==> d.region.value.lin < d.region.value.lout)
    && (d.activeLoopBeats.Some? ==> d.activeLoopBeats.value in LADDER)
  }

  predicate FromThePads(steps: seq<Step>) {
    forall i :: 0 <= i < |steps| && steps[i].Grab? ==> steps[i].beats in LADDER
  }

  /** Halving or doubling a ladder length is the neighbouring one, or falls off the end. */
  lemma ScalingWalksTheLadder(k: nat, double: bool)
    requires k < |LADDER|
    ensures OnScale(Scaled(LADDER[k], double)) <==> (if double then k + 1 < |LADDER| else k >= 1)
    ensures double && k + 1 < |LADDER| ==> Scaled(LADDER[k], double) == LADDER[k + 1]
    ensures !double && k >= 1 ==> Scaled(LADDER[k], double) == LADDER[k - 1]
  {
    assert k == 0 || k == 1 || k == 2 || k == 3 || k == 4 || k == 5 || k == 6 || k == 7;
  }

  lemma StepKeepsInv(d: Deck, step: Step)
    requires Inv(d) && FromThePads([step])
    ensures Inv(Do(d, step))
  {
    match step
    case Grab(beats, playhead, accepted) =>
      assert [step][0].beats in LADDER;
      R.RegionHasLength(playhead, d.grid, beats);
    case GrabBars(bars, beatsPerBar, playhead, accepted) =>
      R.RegionHasLength(playhead, d.grid, BeatsIn(bars, beatsPerBar) as real);
    case Scale(double, accepted) =>
      if Scales(d, double) && d.activeLoopBeats.Some? {
        var k :| 0 <= k < |LADDER| && LADDER[k] == d.activeLoopBeats.value;
        ScalingWalksTheLadder(k, double);
      }
    case _ =>
  }

  /** In every run of presses, polls and loads, an engaged loop has positive length and the lit
      length is on the ladder. */
  lemma {:induction false} LoopsHaveLength(d: Deck, steps: seq<Step>)
    requires Inv(d) && FromThePads(steps)
    ensures Inv(Run(d, steps))
    decreases |steps|
  {
    if steps == [] {
    } else {
      assert FromThePads([steps[0]]) by { assert [steps[0]][0] == steps[0]; }
      StepKeepsInv(d, steps[0]);
      assert FromThePads(steps[1..]);
      LoopsHaveLength(Do(d, steps[0]), steps[1..]);
    }
  }

  /** So it is in every state a deck can reach from the launch of the app. */
  lemma ReachableLoopsHaveLength(isRunning: bool, steps: seq<Step>)
    requires FromThePads(steps)
    ensures Inv(Run(Unloaded(isRunning), steps))
    ensures var d := Unloaded(isRunning);
            d.isRunning == isRunning && !d.hasTrack && !d.loopActive && d.region == None && d.pendingLoopIn == None
  {
    LoopsHaveLength(Unloaded(isRunning), steps);
  }

  // ----- What one press comes to -----

  /** The press is not for this deck, or the engine refused what it had to send. */
  predicate Dead(d: Deck, step: Step) {
    match step
    case Grab(beats, playhead, accepted) =>
      || !d.isRunning || !d.hasTrack || beats < 0.0 || beats == 0.0
      || (!accepted && R.ReverseLoopRegion(playhead, d.grid, beats).Some?)
    case GrabBars(bars, beatsPerBar, playhead, accepted) =>
      || !d.isRunning || !d.hasTrack
      || (!accepted && R.ReverseLoopRegion(playhead, d.grid, BeatsIn(bars, beatsPerBar) as real).Some?)
    case LoopIn(elapsed, _) => !d.isRunning || !d.hasTrack || 0.0 > elapsed
    case LoopOut(elapsed, snap, accepted) =>
      || !d.isRunning || d.pendingLoopIn == None
      || d.pendingLoopIn.value >= (if snap then R.SnappedToGrid(d.grid, elapsed) else elapsed)
      || (d.hasTrack && !accepted)
    case Scale(double, accepted) =>
      var beats := if d.activeLoopBeats.Some? then d.activeLoopBeats.value else 1.0;
      var next := if double then beats + beats else beats * 0.5;
      || !d.isRunning || !d.hasTrack || !d.loopActive || d.loopIn >= d.loopOut || !accepted
      || next < SHORTEST - TOLERANCE || next > LONGEST + TOLERANCE
    case Exit(_) =>
      || !d.isRunning
      || (!d.loopActive && d.activeLoopBeats == None && d.activeLoopBars == None && d.pendingLoopIn == None)
    case _ => false
  }

  lemma DeadPressChangesNothing(d: Deck, step: Step)
    requires Dead(d, step)
    ensures Do(d, step) == d
  {
    hide R.ReverseLoopRegion, R.SnappedToGrid, BeatsIn;
  }

  /** A live grab the grid can place loops just that region; after the poll the deck shows it, and its
      length is lit. */
  lemma GrabLands(d: Deck, beats: real, playhead: real)
    requires d.isRunning && d.hasTrack && beats > 0.0 && R.ReverseLoopRegion(playhead, d.grid, beats).Some?
    ensures var (r, n) := (R.ReverseLoopRegion(playhead, d.grid, beats).value, Do(d, Grab(beats, playhead, true)));
            var after := Do(n, Poll);
            && n.loopActive && after.region == Some(r) && after.loopActive
            && after.loopIn == r.lin && after.loopOut == r.lout
            && after.activeLoopBeats == Some(beats) && after.activeLoopBars == d.activeLoopBars
            && after.pendingLoopIn == d.pendingLoopIn
  {
    hide R.ReverseLoopRegion;
  }

  /** A live resize doubles or halves the painted loop from its start, and the lit length with it. */
  lemma ScaleLands(d: Deck, double: bool)
    requires !Dead(d, Scale(double, true))
    ensures var n := Do(d, Scale(double, true));
            var length := d.loopOut - d.loopIn;
            && n.region == Some(R.Region(d.loopIn, d.loopIn + if double then length + length else length * 0.5))
            && (d.activeLoopBeats.None? ==> n.activeLoopBeats == None)
            && (d.activeLoopBeats.Some? ==>
                  var beats := d.activeLoopBeats.value;
                  n.activeLoopBeats == Some(if double then beats + beats else beats * 0.5))
            && n.pendingLoopIn == d.pendingLoopIn && n.loopActive
  {
  }

  /** A live IN arms its point, snapped or raw, and disturbs no loop; an OUT on a deck whose track has
      gone disarms it and sends nothing. */
  lemma ArmedPointIsPlaced(d: Deck, elapsed: real, snap: bool)
    requires !Dead(d, LoopIn(elapsed, snap))
    ensures var n := Do(d, LoopIn(elapsed, snap));
            && n.pendingLoopIn == Some(if snap then R.SnappedToGrid(d.grid, elapsed) else elapsed)
            && n.region == d.region && n.loopActive == d.loopActive
            && n.activeLoopBeats == d.activeLoopBeats && n.activeLoopBars == d.activeLoopBars
  {
  }

  lemma OutWithoutATrack(d: Deck, elapsed: real, snap: bool, accepted: bool)
    requires !d.hasTrack && !Dead(d, LoopOut(elapsed, snap, accepted))
    ensures var n := Do(d, LoopOut(elapsed, snap, accepted));
            n.region == d.region && n.pendingLoopIn == None && n.activeLoopBars == None
  {
  }

  /** A grab in bars is one of the nearest whole number of beats to bars times the meter, and of one
      beat at least; a meter not known yet counts as one. */
  lemma BarsAreBeats(bars: real, beatsPerBar: nat)
    ensures var (n, meter) := (BeatsIn(bars, beatsPerBar), if beatsPerBar == 0 then 1 else beatsPerBar);
            && n >= 1
            && (bars * meter as real >= 0.5 ==> -0.5 < n as real - bars * meter as real <= 0.5)
            && (bars * meter as real < 1.5 ==> n == 1)
  {
  }

  lemma BarGrabLands(d: Deck, bars: real, beatsPerBar: nat, playhead: real, accepted: bool)
    requires d.isRunning && d.hasTrack
    ensures var grabbed := R.ReverseLoopRegion(playhead, d.grid, BeatsIn(bars, beatsPerBar) as real);
            var after := Do(Do(d, GrabBars(bars, beatsPerBar, playhead, accepted)), Poll);
            && (grabbed.Some? && accepted ==>
                  && after.region == grabbed && after.loopActive
                  && after.loopIn == grabbed.value.lin && after.loopOut == grabbed.value.lout
                  && after.activeLoopBars == Some(bars) && after.activeLoopBeats == d.activeLoopBeats)
            && (grabbed.None? ==>
                  after.region == d.region && (after.activeLoopBars == Some(bars) <==> d.region.Some?))
  {
    hide R.ReverseLoopRegion, BeatsIn;
  }

  /** An exit with something to end leaves, after the poll, no loop if and only if the engine took it or
      held none; pads and an armed IN are out either way. */
  lemma ExitExactly(d: Deck, accepted: bool)
    requires d.isRunning
    requires d.loopActive || d.activeLoopBeats.Some? || d.activeLoopBars.Some? || d.pendingLoopIn.Some?
    ensures var n := Do(d, Exit(accepted));
            var after := Do(n, Poll);
            && (after.region == None && !after.loopActive <==> accepted || d.region == None)
            && (!accepted ==> after.region == d.region)
            && !n.loopActive && n.activeLoopBeats == None && n.activeLoopBars == None && n.pendingLoopIn == None
            && after.activeLoopBeats == None && after.activeLoopBars == None && after.pendingLoopIn == None
  {
  }

  /** A load ends the loop of the track before; after the poll nothing of it is shown. */
  lemma LoadEndsTheLoop(d: Deck, grid: seq<real>)
    ensures var after := Do(Do(d, Load(grid)), Poll);
            && after.region == None && !after.loopActive && after.loopIn == 0.0 && after.loopOut == 0.0
            && after.activeLoopBeats == None && after.activeLoopBars == None
            && after.hasTrack && after.grid == grid && after.isRunning == d.isRunning
  {
  }

  // ----- Manual loops -----

  /** An OUT at or after its IN is never inverted by snapping: it engages exactly that region and
      disarms the IN, or, when both fall on one line, changes nothing and leaves the IN armed. */
  lemma OutClosesOrKeepsTheIn(d: Deck, elapsedIn: real, elapsedOut: real, snap: bool)
    requires d.isRunning && d.hasTrack && 0.0 <= elapsedIn <= elapsedOut && R.Sorted(d.grid)
    ensures var armed := Do(d, LoopIn(elapsedIn, snap));
            var after := Do(armed, LoopOut(elapsedOut, snap, true));
            var (lin, lout) := (Placed(d, elapsedIn, snap), Placed(d, elapsedOut, snap));
            && lin <= lout
            && (lin < lout ==> after.region == Some(R.Region(lin, lout)) && after.pendingLoopIn.None?)
            && (lin == lout ==> after == armed && armed.pendingLoopIn == Some(lin))
  {
    R.SnapIsMonotone(d.grid, elapsedIn, elapsedOut);
  }

  /** The comment beside it says a manual region lights no length pad. The bars pad does go out, but
      the beats pad is lit exactly when it was before: closing a manual loop over a running one keeps
      the old length's light, and polls keep it too. */
  lemma ManualLoopLightsExactly(d: Deck, elapsed: real, snap: bool)
    requires d.isRunning && d.hasTrack && d.pendingLoopIn.Some? && d.pendingLoopIn.value < Placed(d, elapsed, snap)
    ensures var after := Do(Do(d, LoopOut(elapsed, snap, true)), Poll);
            && after.loopActive && after.activeLoopBars == None
            && after.activeLoopBeats == d.activeLoopBeats
  {
  }

  /** A load leaves an armed IN armed, so an OUT on the new track closes a loop from the old one's. */
  lemma ArmedInSurvivesALoad(d: Deck, grid: seq<real>, elapsed: real)
    requires d.isRunning && d.pendingLoopIn.Some? && d.pendingLoopIn.value < elapsed
    ensures Do(Do(Do(d, Load(grid)), Poll), LoopOut(elapsed, false, true)).region
            == Some(R.Region(d.pendingLoopIn.value, elapsed))
  {
  }

  // ----- Resizing -----

  /** The app's copy of the region is the engine's. */
  predicate Synced(d: Deck) {
    match d.region
    case Some(r) => d.loopActive && d.loopIn == r.lin && d.loopOut == r.lout
    case None => !d.loopActive && d.activeLoopBeats.None?
  }

  lemma PollSyncs(d: Deck)
    ensures Synced(OnPoll(d))
    ensures Synced(d) && (d.region.None? ==> d.loopIn == 0.0 && d.loopOut == 0.0 && d.activeLoopBars.None?)
            ==> OnPoll(d) == d
  {
  }

  /** `n` live presses of one stepper, with a poll after each. */
  function Resized(d: Deck, doubles: seq<bool>): Deck {
    if doubles == [] then d
    else OnPoll(OnScalePress(Resized(d, doubles[..|doubles| - 1]), doubles[|doubles| - 1], true))
  }

  function Factor(doubles: seq<bool>): real {
    if doubles == [] then 1.0 else Scaled(Factor(doubles[..|doubles| - 1]), doubles[|doubles| - 1])
  }

  predicate EveryPressIsLive(d: Deck, doubles: seq<bool>) {
    forall i :: 0 <= i < |doubles| ==> Scales(Resized(d, doubles[..i]), doubles[i])
  }

  /** The same start, and `factor` times the length. */
  predicate GrownBy(now: Option<R.Region>, was: R.Region, factor: real) {
    now.Some? && now.value.lin == was.lin && now.value.lout == was.lin + (was.lout - was.lin) * factor
  }

  predicate LitBy(now: Option<real>, was: Option<real>, factor: real) {
    && (now.Some? <==> was.Some?)
    && (now.Some? ==> now.value == was.value * factor)
  }

  lemma ScaledTimes(w: real, x: real, factor: real, double: bool)
    requires w == x * factor
    ensures Scaled(w, double) == x * Scaled(factor, double)
    ensures w > 0.0 ==> Scaled(w, double) > 0.0
  {
  }

  lemma ResizeStep(d: Deck, r: R.Region, beats: Option<real>, f: real, double: bool)
    requires Synced(d) && GrownBy(d.region, r, f) && LitBy(d.activeLoopBeats, beats, f)
    requires Scales(d, double)
    ensures var after := OnPoll(OnScalePress(d, double, true));
            && after.isRunning == d.isRunning && after.hasTrack == d.hasTrack && Synced(after)
            && GrownBy(after.region, r, Scaled(f, double))
            && LitBy(after.activeLoopBeats, beats, Scaled(f, double))
  {
    hide Scaled, OnScale;
    ScaledTimes(d.loopOut - d.loopIn, r.lout - r.lin, f, double);
    if beats.Some? { ScaledTimes(d.activeLoopBeats.value, beats.value, f, double); }
  }

  /** Any sequence of halvings and doublings, polled in between, keeps the loop's start and scales its
      region and its lit length by one and the same power of two. */
  lemma {:induction false} ResizingKeepsTheStart(d: Deck, doubles: seq<bool>)
    requires Synced(d) && d.region.Some? && EveryPressIsLive(d, doubles)
    ensures var (after, f) := (Resized(d, doubles), Factor(doubles));
            && after.isRunning == d.isRunning && after.hasTrack == d.hasTrack && Synced(after)
            && GrownBy(after.region, d.region.value, f)
            && LitBy(after.activeLoopBeats, d.activeLoopBeats, f)
  {
    if doubles == [] {
      assert GrownBy(d.region, d.region.value, 1.0);
    } else {
      hide OnPoll, OnScalePress, Scales, GrownBy, LitBy, Scaled, Synced;
      var (before, last) := (doubles[..|doubles| - 1], doubles[|doubles| - 1]);
      assert forall i :: 0 <= i < |before| ==> before[..i] == doubles[..i] && before[i] == doubles[i];
      ResizingKeepsTheStart(d, before);
      assert Scales(Resized(d, before), last);
      ResizeStep(Resized(d, before), d.region.value, d.activeLoopBeats, Factor(before), last);
    }
  }

  lemma PressLeavesBars(d: Deck, double: bool)
    requires Synced(d) && d.region.Some?
    ensures OnPoll(OnScalePress(d, double, true)).activeLoopBars == d.activeLoopBars
  {
  }

  /** The bars pad is not resized with its loop: after any polled resizing it still says the length
      that was grabbed, while the region has grown by the product of the presses. */
  lemma {:induction false} BarsPadStaysPut(d: Deck, doubles: seq<bool>)
    requires Synced(d) && d.region.Some? && EveryPressIsLive(d, doubles)
    ensures Resized(d, doubles).activeLoopBars == d.activeLoopBars
    ensures GrownBy(Resized(d, doubles).region, d.region.value, Factor(doubles))
  {
    ResizingKeepsTheStart(d, doubles);
    if doubles == [] {
    } else {
      var (before, last) := (doubles[..|doubles| - 1], doubles[|doubles| - 1]);
      assert forall i :: 0 <= i < |before| ==> before[..i] == doubles[..i] && before[i] == doubles[i];
      BarsPadStaysPut(d, before);
      ResizingKeepsTheStart(d, before);
      hide Resized, GrownBy, LitBy, Factor, Scaled;
      PressLeavesBars(Resized(d, before), last);
    }
  }

  /** Without a poll in between, a second press resizes the region the first one started from: the
      lit length is scaled twice and the loop once. */
  lemma SecondPressIsStale(d: Deck, first: bool, second: bool)
    requires Synced(d) && d.region.Some? && Scales(d, first) && d.activeLoopBeats.Some?
    requires OnScale(Scaled(Scaled(d.activeLoopBeats.value, first), second))
    ensures var after := OnScalePress(OnScalePress(d, first, true), second, true);
            var r := d.region.value;
            && after.activeLoopBeats == Some(Scaled(Scaled(d.activeLoopBeats.value, first), second))
            && after.region == Some(R.Region(r.lin, r.lin + Scaled(r.lout - r.lin, second)))
            && after.region != Some(R.Region(r.lin, r.lin + Scaled(Scaled(r.lout - r.lin, first), second)))
  {
  }

  // ----- What the pads say -----

  /** A grab the engine cannot place paints its length anyway. The next poll takes the light back
      exactly when no loop was running; over a running one the wrong length stays lit. */
  lemma UnplacedGrabExactly(d: Deck, beats: real, playhead: real)
    requires d.isRunning && d.hasTrack && beats > 0.0 && R.ReverseLoopRegion(playhead, d.grid, beats).None?
    ensures var after := Do(Do(d, Grab(beats, playhead, true)), Poll);
            && after.region == d.region
            && (after.activeLoopBeats == Some(beats) <==> d.region.Some?)
            && (d.region.None? ==> after.activeLoopBeats.None? && !after.loopActive)
  {
  }

  const NINE_LINES: seq<real> := [0.0, 1.0, 2.0, 3.0, 4.0, 5.0, 6.0, 7.0, 8.0]

  /** Nine lines hold four beats and not sixteen. */
  lemma NineLinesHoldFour()
    ensures R.ReverseLoopRegion(8.0, NINE_LINES, 4.0) == Some(R.Region(4.0, 8.0))
    ensures R.ReverseLoopRegion(8.0, NINE_LINES, 16.0).None?
  {
    hide R.ReverseLoopRegion, R.NearestBeatIndex;
    assert R.Ascending(NINE_LINES);
    R.WholeLoopIsOnTheGrid(8.0, NINE_LINES, 4);
    R.WholeLoopIsOnTheGrid(8.0, NINE_LINES, 16);
    var k := R.NearestIsALine(NINE_LINES, 8.0, 9);
    assert !R.Nearer(NINE_LINES[8], NINE_LINES[k], 8.0);
    assert 4.0 == 4 as real && 16.0 == 16 as real;
    var out :| 4 <= out < |NINE_LINES|
               && R.EndsAt(NINE_LINES, 8.0, 4, out, R.ReverseLoopRegion(8.0, NINE_LINES, 4.0).value);
  }

  /** Sixteen beats pressed over a four-beat loop on a nine-line grid: the engine keeps the four beats
      and the pads say sixteen. */
  lemma SixteenOverFour()
    ensures var four := Do(Do(Unloaded(true), Load(NINE_LINES)), Grab(4.0, 8.0, true));
            var after := Do(Do(four, Grab(16.0, 8.0, true)), Poll);
            after.activeLoopBeats == Some(16.0) && after.region == Some(R.Region(4.0, 8.0))
  {
    hide R.ReverseLoopRegion;
    NineLinesHoldFour();
  }

  /** The engine's loop is as long as the lit pad says, at `spacing` a beat. */
  predicate PadsAreTrue(d: Deck, spacing: real) {
    && d.region.Some? && d.activeLoopBeats.Some?
    && d.region.value.lout - d.region.value.lin == d.activeLoopBeats.value * spacing
  }

  lemma StillAsLong(now: Option<R.Region>, r: R.Region, beats: real, spacing: real, f: real)
    requires GrownBy(now, r, f) && r.lout - r.lin == beats * spacing
    ensures now.value.lout - now.value.lin == beats * f * spacing
  {
    assert beats * spacing * f == beats * f * spacing;
  }

  lemma ResizingKeepsPadsTrue(d: Deck, spacing: real, doubles: seq<bool>)
    requires Synced(d) && PadsAreTrue(d, spacing) && EveryPressIsLive(d, doubles)
    ensures PadsAreTrue(Resized(d, doubles), spacing)
  {
    hide GrownBy, EveryPressIsLive, Resized;
    ResizingKeepsTheStart(d, doubles);
    StillAsLong(Resized(d, doubles).region, d.region.value, d.activeLoopBeats.value, spacing, Factor(doubles));
  }

  lemma LadderIsHeld(beats: real)
    requires beats in LADDER
    ensures 0.0 < beats && R.BeatsHeld(beats) == beats
  {
    assert Rounded(beats) as real == beats || !R.IsWhole(beats);
  }

  lemma LadderLength(grid: seq<real>, beats: real, playhead: real, first: real, spacing: real)
    requires beats in LADDER && R.Even(grid, first, spacing)
    requires R.ReverseLoopRegion(playhead, grid, beats).Some?
    ensures 0.0 < beats
    ensures var r := R.ReverseLoopRegion(playhead, grid, beats).value; r.lout - r.lin == beats * spacing
  {
    hide R.ReverseLoopRegion, R.Even, R.BeatsHeld;
    LadderIsHeld(beats);
    R.EvenGridLength(playhead, grid, first, spacing, beats);
    var held := R.BeatsHeld(beats);
    assert held * spacing == beats * spacing;
  }

  lemma GrabbedPadIsTrue(d: Deck, beats: real, playhead: real, first: real, spacing: real)
    requires d.isRunning && d.hasTrack && beats in LADDER && R.Even(d.grid, first, spacing)
    requires R.ReverseLoopRegion(playhead, d.grid, beats).Some?
    ensures Synced(OnPoll(OnGrab(d, beats, playhead, true)))
    ensures PadsAreTrue(OnPoll(OnGrab(d, beats, playhead, true)), spacing)
  {
    hide R.ReverseLoopRegion, R.Even;
    LadderLength(d.grid, beats, playhead, first, spacing);
  }

  /** On an even grid a grab that lands is as long as its pad says, and so are its halvings and
      doublings. */
  lemma PadsTellTheLength(d: Deck, beats: real, playhead: real, first: real, spacing: real, doubles: seq<bool>)
    requires d.isRunning && d.hasTrack && beats in LADDER && R.Even(d.grid, first, spacing)
    requires R.ReverseLoopRegion(playhead, d.grid, beats).Some?
    requires EveryPressIsLive(OnPoll(OnGrab(d, beats, playhead, true)), doubles)
    ensures PadsAreTrue(Resized(OnPoll(OnGrab(d, beats, playhead, true)), doubles), spacing)
  {
    hide *;
    GrabbedPadIsTrue(d, beats, playhead, first, spacing);
    ResizingKeepsPadsTrue(OnPoll(OnGrab(d, beats, playhead, true)), spacing, doubles);
  }

  // ----- The window of four -----

  const WINDOW: nat := 4
  const IDLE_START: nat := 3
  const LAST_START: nat := |LADDER| - WINDOW

  /** The first ladder length within the tolerance, from `k` on. */
  function IndexFrom(beats: real, k: nat): Option<nat>
    requires k <= |LADDER|
    decreases |LADDER| - k
  {
    if k == |LADDER| then None
    else if Abs(LADDER[k] - beats) < TOLERANCE then Some(k) else IndexFrom(beats, k + 1)
  }

  function WindowStart(active: Option<real>, browse: Option<int>): (start: int)
    ensures 0 <= start <= LAST_START
  {
    var idx := if active.Some? then IndexFrom(active.value, 0) else None;
    if idx.None? then ClampIndex(if browse.Some? then browse.value else IDLE_START, 0, LAST_START)
    else ClampIndex(idx.value - WINDOW / 2, 0, LAST_START)
  }

  lemma {:induction false} LadderIndexIsFound(k: nat, from: nat)
    requires from <= k < |LADDER|
    ensures IndexFrom(LADDER[k], from) == Some(k)
    decreases k - from
  {
    if from == k {
    } else {
      assert LADDER[k] - LADDER[from] >= TOLERANCE;
      LadderIndexIsFound(k, from + 1);
    }
  }

  /** A running ladder length is on screen wherever the window was browsed to, and so is every length
      one live stepper press away from it; it stands third of the four where the ladder has room. */
  lemma RunningLengthAndNeighboursShow(k: nat, browse: Option<int>)
    requires k < |LADDER|
    ensures var start := WindowStart(Some(LADDER[k]), browse);
            && start <= k < start + WINDOW
            && (k >= 1 ==> start <= k - 1)
            && (k + 1 < |LADDER| ==> k + 1 < start + WINDOW)
            && (2 <= k && k + 1 < |LADDER| ==> k == start + 2)
  {
    LadderIndexIsFound(k, 0);
  }

  /** With nothing running the window is where it was browsed to, or shows one, two, four and eight. */
  lemma IdleWindow(browse: Option<int>)
    ensures var start := WindowStart(None, browse);
            && (browse.None? ==> start + WINDOW <= |LADDER| && LADDER[start..start + WINDOW] == [1.0, 2.0, 4.0, 8.0])
            && (browse.Some? && 0 <= browse.value && browse.value + WINDOW <= |LADDER| ==> start == browse.value)
  {
  }

  // ----- The model's methods -----

  /** One deck of the app model with its engine deck behind it. */
  class LoopModel {
    var isRunning: bool
    var hasTrack: bool
    var loopActive: bool
    var loopInSecs: real
    var loopOutSecs: real
    var activeLoopBeats: Option<real>
    var activeLoopBars: Option<real>
    var pendingLoopInSecs: Option<real>
    var region: Option<R.Region>
    var grid: seq<real>

    constructor (isRunning: bool)
      ensures State() == Unloaded(isRunning)
    {
      this.isRunning, hasTrack, loopActive := isRunning, false, false;
      loopInSecs, loopOutSecs := 0.0, 0.0;
      activeLoopBeats, activeLoopBars, pendingLoopInSecs, region, grid := None, None, None, None, [];
    }

    ghost function State(): Deck
      reads this
    {
      Deck(isRunning, hasTrack, loopActive, loopInSecs, loopOutSecs, activeLoopBeats, activeLoopBars,
           pendingLoopInSecs, region, grid)
    }

    /** The engine's entry points; an error is reported only for a command that had to be sent. */
    method SetReverseLoop(beats: real, playhead: real, accepted: bool) returns (ok: bool)
      modifies this`region
      ensures var r := R.ReverseLoopRegion(playhead, grid, beats);
              ok == (r.None? || accepted) && region == if r.Some? && accepted then r else old(region)
    {
      var r := R.ReverseLoopRegion(playhead, grid, beats);
      if r.None? { return true; }
      if accepted { region := r; }
      return accepted;
    }

    method SetManualLoop(lin: real, lout: real, accepted: bool) returns (ok: bool)
      modifies this`region
      ensures ok == (lout <= lin || !hasTrack || accepted)
      ensures region == if ok then ManualLoop(old(State()), lin, lout) else old(region)
    {
      if lout <= lin || !hasTrack { return true; }
      if accepted { region := Some(R.Region(lin, lout)); }
      return accepted;
    }

    method HandleLoopBeats(beats: real, playhead: real, accepted: bool)
      modifies this
      ensures State() == OnGrab(old(State()), beats, playhead, accepted)
    {
      if !isRunning || beats <= 0.0 || !hasTrack { return; }
      var ok := SetReverseLoop(beats, playhead, accepted);
      if !ok { return; }
      activeLoopBeats := Some(beats);
      loopActive := true;
    }

    method HandleLoop(bars: real, beatsPerBar: nat, playhead: real, accepted: bool)
      modifies this
      ensures State() == OnGrabBars(old(State()), bars, beatsPerBar, playhead, accepted)
    {
      hide R.ReverseLoopRegion, BeatsIn;
      if !isRunning || !hasTrack { return; }
      var lengthBeats := BeatsIn(bars, beatsPerBar);
      var ok := SetReverseLoop(lengthBeats as real, playhead, accepted);
      if !ok { return; }
      activeLoopBars := Some(bars);
    }

    method SetLoopIn(elapsedSecs: real, cueSnapToGrid: bool)
      modifies this
      ensures State() == OnLoopIn(old(State()), elapsedSecs, cueSnapToGrid)
    {
      if !isRunning || !hasTrack { return; }
      var position := elapsedSecs;
      if position < 0.0 { return; }
      if cueSnapToGrid { position := R.SnappedToGrid(grid, position); }
      pendingLoopInSecs := Some(position);
    }

    method SetLoopOut(elapsedSecs: real, cueSnapToGrid: bool, accepted: bool)
      modifies this
      ensures State() == OnLoopOut(old(State()), elapsedSecs, cueSnapToGrid, accepted)
    {
      if !isRunning || pendingLoopInSecs.None? { return; }
      var (inSecs, outSecs) := (pendingLoopInSecs.value, elapsedSecs);
      if cueSnapToGrid { outSecs := R.SnappedToGrid(grid, outSecs); }
      if outSecs <= inSecs { return; }
      var ok := SetManualLoop(inSecs, outSecs, accepted);
      if !ok { return; }
      pendingLoopInSecs := None;
      activeLoopBars := None;
    }

    method ScaleLoop(double: bool, accepted: bool)
      modifies this
      ensures State() == OnScalePress(old(State()), double, accepted)
    {
      if !isRunning || !hasTrack || !loopActive { return; }
      var (inSecs, length) := (loopInSecs, loopOutSecs - loopInSecs);
      if length <= 0.0 { return; }
      var beats := activeLoopBeats;
      if beats.Some? {
        var next := Scaled(beats.value, double);
        if !OnScale(next) { return; }
        beats := Some(next);
      }
      var ok := SetManualLoop(inSecs, inSecs + Scaled(length, double), accepted);
      if !ok { return; }
      activeLoopBeats := beats;
    }

    method ExitLoop(accepted: bool)
      modifies this
      ensures State() == OnExit(old(State()), accepted)
    {
      if !isRunning
         || (activeLoopBars.None? && activeLoopBeats.None? && !loopActive && pendingLoopInSecs.None?) {
        return;
      }
      if accepted { region := None; }
      activeLoopBars := None;
      activeLoopBeats := None;
      loopActive := false;
      pendingLoopInSecs := None;
    }

    method ReadDeckState()
      modifies this
      ensures State() == OnPoll(old(State()))
    {
      loopActive := region.Some?;
      loopInSecs := if region.Some? then region.value.lin else 0.0;
      loopOutSecs := if region.Some? then region.value.lout else 0.0;
      if !loopActive {
        activeLoopBars := None;
        activeLoopBeats := None;
      }
    }
  }
}
