/**
 The grid a loaded deck ends with (apple/Dub/MainView.swift): the landing writes the tempo of a
 library grid but never an anchor, and the poll asks for a grid only while one of the two is missing.
 */
module LoadedGrid {
  import opened Prelude
  import opened DeckState
  import opened TrackLoad
  import opened QuickScratch

  /** Every poll finds the deck loaded, and the engine's analysis done and the same. */
  predicate Reads(polls: seq<(Telemetry, real)>, g: BeatGrid) {
    forall i :: 0 <= i < |polls| ==> polls[i].0.hasTrack && polls[i].0.grid == g
  }

  /** The polls a deck has waited, of the thirty between two questions. */
  function Waited(m: Decks, side: DeckSide): nat {
    (if side in m.gridTicks then m.gridTicks[side] else 0) % GRID_POLLS
  }

  predicate HasGrid(l: LoadIdentity) {
    l.bpm.Some? && l.gridAnchorSecs.Some?
  }

  lemma CaptureKeepsGrid(l: LoadIdentity, g: BeatGrid)
    ensures var n := WithAutoGrid(l, g);
            && n.bpm == l.bpm && n.bpmConfidence == l.bpmConfidence && n.hasTrack == l.hasTrack
            && n.gridAnchorSecs == l.gridAnchorSecs && n.gridBeatsPerBar == l.gridBeatsPerBar
  {
  }

  /** The grid fields, and nothing the automatic capture touches. */
  predicate SameGrid(l: LoadIdentity, n: LoadIdentity) {
    && n.bpm == l.bpm && n.bpmConfidence == l.bpmConfidence
    && n.gridAnchorSecs == l.gridAnchorSecs && n.gridBeatsPerBar == l.gridBeatsPerBar
  }

  lemma GridIgnoresTheFlag(l: LoadIdentity, g: BeatGrid)
    ensures SameGrid(WithGrid(l, g), WithGrid(l.(hasTrack := true), g))
  {
  }

  lemma PollTicks(m: Decks, side: DeckSide, t: Telemetry, now: real)
    requires m.running
    ensures Poll(m, side, t, now).gridTicks
            == m.gridTicks[side := GridTick(m.gridTicks, side, m.shown.At(side).load.(hasTrack := t.hasTrack))]
    ensures var waited := if side in m.gridTicks then m.gridTicks[side] else 0;
            Poll(m, side, t, now).gridTicks
            == m.gridTicks[side := if t.hasTrack && !HasGrid(m.shown.At(side).load) then waited + 1 else 0]
  {
    hide PolledLoad, Drops, Gridded;
  }

  lemma GriddedGrid(l: LoadIdentity, tick: nat, g: BeatGrid)
    requires l.hasTrack
    ensures var k := Gridded(l, tick, g);
            && (HasGrid(l) || tick % GRID_POLLS != 0 ==> SameGrid(l, k))
            && (!HasGrid(l) && tick % GRID_POLLS == 0 && IsAnalysed(g) ==> SameGrid(WithGrid(l, g), k))
  {
    hide WithAutoGrid, WithGrid;
    CaptureKeepsGrid(l, g);
    CaptureKeepsGrid(WithGrid(l, g), g);
  }

  lemma NextTick(tick: nat)
    ensures (tick + 1) % GRID_POLLS == if tick % GRID_POLLS < GRID_POLLS - 1 then tick % GRID_POLLS + 1 else 0
  {
  }

  lemma GridPoll(m: Decks, side: DeckSide, t: Telemetry, now: real)
    requires m.running && t.hasTrack
    ensures var (l, n) := (m.shown.At(side).load, Poll(m, side, t, now));
            var k := n.shown.At(side).load;
            && n.running
            && (HasGrid(l) ==> SameGrid(l, k))
            && (!HasGrid(l) && Waited(m, side) < GRID_POLLS - 1 ==>
                  SameGrid(l, k) && Waited(n, side) == Waited(m, side) + 1)
            && (!HasGrid(l) && Waited(m, side) == GRID_POLLS - 1 && IsAnalysed(t.grid) ==>
                  SameGrid(WithGrid(l, t.grid), k))
  {
    hide WithGrid, Poll, SameTrack, Gridded;
    var l := m.shown.At(side).load.(hasTrack := t.hasTrack);
    PollEffect(m, side, t, now);
    PollTicks(m, side, t, now);
    GriddedGrid(l, GridTick(m.gridTicks, side, l), t.grid);
    NextTick(if side in m.gridTicks then m.gridTicks[side] else 0);
    GridIgnoresTheFlag(m.shown.At(side).load, t.grid);
  }

  lemma SameGridHolds(l: LoadIdentity, n: LoadIdentity)
    requires SameGrid(l, n)
    ensures HasGrid(l) <==> HasGrid(n)
  {
  }

  lemma SameGridJoins(l: LoadIdentity, k: LoadIdentity, n: LoadIdentity)
    requires SameGrid(l, k) && SameGrid(k, n)
    ensures SameGrid(l, n)
  {
  }

  /** A grid in hand, the deck's own or not, stays whatever the polls read. */
  lemma {:induction false} HeldGridStays(m: Decks, side: DeckSide, polls: seq<(Telemetry, real)>, g: BeatGrid)
    requires m.running && Reads(polls, g) && HasGrid(m.shown.At(side).load)
    ensures SameGrid(m.shown.At(side).load, Run(m, Polls(side, polls)).shown.At(side).load)
    decreases |polls|
  {
    if polls == [] {
      assert Polls(side, polls) == [];
    } else {
      var (t, now) := polls[0];
      hide Poll, SameGrid, HasGrid;
      GridPoll(m, side, t, now);
      assert Polls(side, polls)[1..] == Polls(side, polls[1..]);
      SameGridHolds(m.shown.At(side).load, Poll(m, side, t, now).shown.At(side).load);
      HeldGridStays(Poll(m, side, t, now), side, polls[1..], g);
      SameGridJoins(m.shown.At(side).load, Poll(m, side, t, now).shown.At(side).load,
                    Run(m, Polls(side, polls)).shown.At(side).load);
    }
  }

  lemma {:induction false} MissingGridIsTaken(m: Decks, side: DeckSide, polls: seq<(Telemetry, real)>,
                                              g: BeatGrid)
    requires m.running && Reads(polls, g) && IsAnalysed(g) && g.beats != []
    requires !HasGrid(m.shown.At(side).load) && |polls| >= GRID_POLLS - Waited(m, side)
    ensures SameGrid(WithGrid(m.shown.At(side).load, g), Run(m, Polls(side, polls)).shown.At(side).load)
    decreases |polls|
  {
    var (t, now) := polls[0];
    var (l, n) := (m.shown.At(side).load, Poll(m, side, t, now));
    GridPoll(m, side, t, now);
    assert Polls(side, polls)[1..] == Polls(side, polls[1..]);
    hide Poll;
    if Waited(m, side) < GRID_POLLS - 1 {
      MissingGridIsTaken(n, side, polls[1..], g);
    } else {
      assert HasGrid(WithGrid(l, g));
      HeldGridStays(n, side, polls[1..], g);
    }
  }

  lemma CapturesOnce(l: LoadIdentity, g: BeatGrid)
    ensures var k := WithAutoGrid(l, g);
            var captures := !l.autoGridCaptured && l.hasTrack && l.bpm.Some?
                            && g.confidence > 0.0 && g.bpm > 0.0 && g.beats != [];
            var automatic := l.beatGridLoadSource == None || l.beatGridLoadSource == Some("auto")
                             || l.beatGridLoadSource == Some("pending_auto");
            && k.bpm == l.bpm && (k.autoGridCaptured <==> l.autoGridCaptured || captures)
            && (captures && automatic ==> k.autoGridBpm == Some(g.bpm) && k.autoGridAnchorSecs == Some(g.beats[0]))
            && (!(captures && automatic) ==>
                  k.autoGridBpm == l.autoGridBpm && k.autoGridAnchorSecs == l.autoGridAnchorSecs)
            && k.beatGridLoadSource == (if captures && l.beatGridLoadSource == Some("pending_auto")
                                        then Some("auto") else l.beatGridLoadSource)
  {
  }

  predicate SameCapture(l: LoadIdentity, n: LoadIdentity) {
    && n.autoGridCaptured == l.autoGridCaptured && n.beatGridLoadSource == l.beatGridLoadSource
    && n.autoGridBpm == l.autoGridBpm && n.autoGridAnchorSecs == l.autoGridAnchorSecs
  }

  lemma GridKeepsCapture(l: LoadIdentity, g: BeatGrid)
    ensures SameCapture(l, WithGrid(l, g)) && WithGrid(l, g).hasTrack == l.hasTrack
  {
  }

  /** The first analysed grid a loaded deck with a tempo is polled with is captured, once: its tempo and
      first line are kept as the automatic grid where the load came without one of the library's, and a
      load that was waiting for one is marked as having it. */
  lemma FirstGridIsCaptured(m: Decks, side: DeckSide, t: Telemetry, now: real)
    requires m.running
    ensures var (l, k) := (m.shown.At(side).load, Poll(m, side, t, now).shown.At(side).load);
            var captures := !l.autoGridCaptured && t.hasTrack && k.bpm.Some?
                            && t.grid.confidence > 0.0 && t.grid.bpm > 0.0 && t.grid.beats != [];
            var automatic := l.beatGridLoadSource == None || l.beatGridLoadSource == Some("auto")
                             || l.beatGridLoadSource == Some("pending_auto");
            && (k.autoGridCaptured <==> l.autoGridCaptured || captures)
            && (captures && automatic ==>
                  k.autoGridBpm == Some(t.grid.bpm) && k.autoGridAnchorSecs == Some(t.grid.beats[0]))
            && (!(captures && automatic) ==>
                  k.autoGridBpm == l.autoGridBpm && k.autoGridAnchorSecs == l.autoGridAnchorSecs)
            && k.beatGridLoadSource == (if captures && l.beatGridLoadSource == Some("pending_auto")
                                        then Some("auto") else l.beatGridLoadSource)
  {
    hide WithAutoGrid, WithGrid, GridTick, Poll, SameTrack;
    var l := m.shown.At(side).load.(hasTrack := t.hasTrack);
    PollEffect(m, side, t, now);
    GridKeepsCapture(l, t.grid);
    CapturesOnce(l, t.grid);
    CapturesOnce(WithGrid(l, t.grid), t.grid);
  }

  // ----- Whose grid it is -----

  /** Beats to the bar, one at least. */
  function Meter(g: BeatGrid): nat
    ensures Meter(g) >= 1
  {
    if g.beatsPerBar == 0 then 1 else g.beatsPerBar
  }

  /** Line `i` is the first beat of a bar: the grid's first line is at `barPhase`. */
  predicate StartsBar(g: BeatGrid, i: nat) {
    (g.barPhase + i) % Meter(g) == 0
  }

  /** The first line that starts a bar, or, where the grid is too short to hold one, its first line. */
  ghost predicate IsAnchorOf(anchor: Option<real>, g: BeatGrid) {
    if exists i :: 0 <= i < |g.beats| && StartsBar(g, i) then
      exists i :: 0 <= i < |g.beats| && StartsBar(g, i) && (forall j :: 0 <= j < i ==> !StartsBar(g, j))
                  && anchor == Some(g.beats[i])
    else anchor == if g.beats == [] then None else Some(g.beats[0])
  }

  ghost predicate HasAnchorOf(l: LoadIdentity, g: BeatGrid) {
    IsAnchorOf(l.gridAnchorSecs, g) && l.gridBeatsPerBar == Meter(g)
  }

  ghost predicate HasGridOf(l: LoadIdentity, g: BeatGrid) {
    HasAnchorOf(l, g) && l.bpm == Some(g.bpm) && l.bpmConfidence == g.confidence
  }

  lemma OwnRest(bar: nat, x: nat)
    requires 1 <= x <= bar
    ensures x % bar == if x == bar then 0 else x
  {
  }

  lemma BarsApart(bar: nat, k: int, q: int)
    ensures bar * (q - k) == bar * q - bar * k
  {
  }

  lemma WholeBars(bar: nat, n: int)
    requires n >= 1
    ensures bar * n >= bar
  {
  }

  lemma QuotientIsUnique(bar: nat, k: int, q: int, r: nat, t: nat)
    requires r < bar && t < bar && bar * k + r == bar * q + t
    ensures k == q
  {
    BarsApart(bar, k, q);
    BarsApart(bar, q, k);
    if k < q {
      WholeBars(bar, q - k);
    } else if q < k {
      WholeBars(bar, k - q);
    }
  }

  lemma RestOf(bar: nat, k: nat, r: nat)
    requires r < bar
    ensures (bar * k + r) % bar == r
  {
    var x := bar * k + r;
    assert x == bar * (x / bar) + x % bar;
    QuotientIsUnique(bar, k, x / bar, r, x % bar);
  }

  lemma PhaseIn(phase: nat, bar: nat, j: nat)
    requires bar >= 1 && j < bar
    ensures var p := phase % bar; (phase + j) % bar == if p + j < bar then p + j else p + j - bar
  {
    var (p, k) := (phase % bar, phase / bar);
    assert phase + j == bar * k + (p + j);
    if p + j < bar {
      RestOf(bar, k, p + j);
    } else {
      assert bar * k + (p + j) == bar * (k + 1) + (p + j - bar);
      RestOf(bar, k + 1, p + j - bar);
    }
  }

  /** The line so many past the first that bar and phase make a whole number of bars. */
  lemma DownbeatIndex(g: BeatGrid) returns (i: nat)
    ensures i < Meter(g) && StartsBar(g, i) && forall j :: 0 <= j < i ==> !StartsBar(g, j)
    ensures i == (Meter(g) - g.barPhase % Meter(g)) % Meter(g)
  {
    var (bar, p) := (Meter(g), g.barPhase % Meter(g));
    i := if p == 0 then 0 else bar - p;
    OwnRest(bar, bar - p);
    PhaseIn(g.barPhase, bar, i);
    forall j: nat | j < i ensures !StartsBar(g, j) { PhaseIn(g.barPhase, bar, j); }
  }

  /** The grid a poll takes is the engine's, anchored at its first downbeat. */
  lemma TakenGridIsTheEngines(l: LoadIdentity, g: BeatGrid)
    ensures HasGridOf(WithGrid(l, g), g)
    ensures |g.beats| >= Meter(g) ==> exists i :: 0 <= i < |g.beats| && StartsBar(g, i)
  {
    var i := DownbeatIndex(g);
    if i < |g.beats| {
      assert StartsBar(g, i) && FirstDownbeat(g) == Some(g.beats[i]);
    } else {
      assert forall j :: 0 <= j < |g.beats| ==> !StartsBar(g, j);
    }
  }

  lemma SameGridIsOnes(l: LoadIdentity, n: LoadIdentity, g: BeatGrid)
    requires SameGrid(l, n)
    ensures HasGridOf(l, g) <==> HasGridOf(n, g)
    ensures HasAnchorOf(l, g) <==> HasAnchorOf(n, g)
  {
    hide IsAnchorOf;
  }

  /** A deck that lacks tempo or anchor asks within thirty polls, and then has the engine's tempo and
      meter and the first downbeat of its grid. */
  lemma MissingGridArrives(m: Decks, side: DeckSide, polls: seq<(Telemetry, real)>, g: BeatGrid)
    requires m.running && Reads(polls, g) && g.confidence > 0.0 && g.bpm > 0.0 && g.beats != []
    requires m.shown.At(side).load.bpm == None || m.shown.At(side).load.gridAnchorSecs == None
    requires |polls| >= GRID_POLLS - Waited(m, side)
    ensures HasGridOf(Run(m, Polls(side, polls)).shown.At(side).load, g)
  {
    hide HasGridOf, SameGrid, WithGrid;
    var l := m.shown.At(side).load;
    MissingGridIsTaken(m, side, polls, g);
    TakenGridIsTheEngines(l, g);
    SameGridIsOnes(WithGrid(l, g), Run(m, Polls(side, polls)).shown.At(side).load, g);
  }

  predicate SameAnchor(l: LoadIdentity, n: LoadIdentity) {
    n.gridAnchorSecs == l.gridAnchorSecs && n.gridBeatsPerBar == l.gridBeatsPerBar
  }

  /** A landed load gets its own anchor and meter if and only if it came without a library grid, or
      the deck held no anchor (or held the very same ones). Otherwise the last track's stay for ever,
      beside the new track's tempo. */
  lemma LandedAnchorExactly(m: Decks, side: DeckSide, chip: Option<string>, grid: Option<LibraryGrid>,
                            info: Option<TrackRef>, row: Option<LibraryRow>,
                            polls: seq<(Telemetry, real)>, g: BeatGrid)
    requires m.running && Reads(polls, g) && g.confidence > 0.0 && g.bpm > 0.0 && g.beats != []
    requires |polls| >= GRID_POLLS
    ensures var was := m.shown.At(side);
            var landed := Edit(m, side, LandedDeck(was, chip, grid, info, row));
            var l := Run(landed, Polls(side, polls)).shown.At(side).load;
            && (HasAnchorOf(l, g) <==>
                  grid.None? || was.load.gridAnchorSecs.None? || HasAnchorOf(was.load, g))
            && (if grid.None? || was.load.gridAnchorSecs.None? then HasGridOf(l, g)
                else SameAnchor(was.load, l) && l.bpm == Some(grid.value.bpm))
  {
    hide LandedDeck, IsAnchorOf, Poll;
    var (d, landed) := (m.shown.At(side), Edit(m, side, LandedDeck(m.shown.At(side), chip, grid, info, row)));
    LandingInherits(d, chip, grid, info, row);
    if grid.None? || d.load.gridAnchorSecs.None? {
      MissingGridArrives(landed, side, polls, g);
    } else {
      HeldGridStays(landed, side, polls, g);
    }
  }
}
