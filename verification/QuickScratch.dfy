/**
 Quick Scratch and Instant Doubles as the view-model runs them (apple/Dub/MainView.swift).

 The engine is whatever answers the commands: every reply it could give is a parameter of the
 step, so what is proved here holds for every engine. `QuickScratchEngine` adds the engine.
 */
module QuickScratch {
  import opened Prelude
  import opened DeckState
  import opened TrackLoad

  /** The sampler slot behind a pad, as the sample bank names it. */
  datatype SampleSlot = SampleSlot(slot: nat, title: Option<string>, url: Option<string>)

  /** The engine's answer to an engage or a release: refused, or accepted with the other deck
      the tune went to or came back from. */
  datatype Reply = Refused | Accepted(other: Option<DeckSide>)

  /** The engine's analysis of what a deck holds. */
  datatype BeatGrid = BeatGrid(
    bpm: real, confidence: real, beatsPerBar: nat, barPhase: nat, beats: seq<real>)

  /** What the poll reads for one deck. */
  datatype Telemetry = Telemetry(
    hasTrack: bool, isPlaying: bool, atEnd: bool, loopActive: bool,
    scratchSlot: Option<nat>, parkedSecs: real, grid: BeatGrid)

  datatype Decks = Decks(
    shown: PerDeck<DeckState>,
    parked: map<DeckSide, DeckState>,
    hosts: map<DeckSide, DeckState>,
    engagedAt: map<DeckSide, real>,
    gridTicks: map<DeckSide, nat>,
    running: bool)

  const FRESH: Decks :=
    Decks(PerDeck(EMPTY_DECK, EMPTY_DECK), map[], map[], map[], map[], false)

  /** The poll trusts "nothing engaged" only this long after a press. */
  const ENGAGE_GRACE_SECS: real := 0.25

  function SampleIdentity(s: SampleSlot): LoadIdentity {
    NO_LOAD.(hasTrack := true, displayName := s.title, trackTitle := s.title,
             sourceURL := s.url, formatChip := Some("SAMPLE"))
  }

  function SampleDeck(s: SampleSlot): DeckState {
    EMPTY_DECK.(load := SampleIdentity(s))
  }

  function HeaderTitle(d: DeckState): Option<string> {
    if d.quickScratch.Some? then d.quickScratch.value.parkedTitle
    else if !d.load.hasTrack then None
    else if d.load.trackTitle.Some? then d.load.trackTitle
    else d.load.displayName
  }

  // ----- One press, one release -----

  /** The tune lands on `other`: what that deck showed is set aside in `hosts`. */
  function DoubleOnto(m: Decks, deck: DeckState, other: DeckSide): Decks {
    var host := m.shown.At(other);
    var landed := AdoptLoadedTrack(host, deck).(quickScratch := None,
                                                seekGeneration := Bump(host.seekGeneration));
    m.(shown := Put(m.shown, other, landed), hosts := m.hosts[other := host],
       parked := m.parked - {other})
  }

  function Engage(m: Decks, side: DeckSide, pad: int, s: SampleSlot, now: real,
                  doubledTo: Option<DeckSide>): Decks
  {
    var deck := m.shown.At(side);
    var title := HeaderTitle(deck);
    var m1 := if doubledTo.Some? then DoubleOnto(m, deck, doubledTo.value) else m;
    var parked := if deck.quickScratch == None then m1.parked[side := deck] else m1.parked;
    var to := if doubledTo.Some? then doubledTo
              else if deck.quickScratch.Some? then deck.quickScratch.value.doubledTo
              else None;
    var scratching := AdoptLoadedTrack(deck, SampleDeck(s)).(
      quickScratch := Some(QuickScratchState(pad, s.slot, title, to)),
      atEnd := false, seekGeneration := Bump(deck.seekGeneration));
    m1.(shown := Put(m1.shown, side, scratching), parked := parked,
        engagedAt := m1.engagedAt[side := now])
  }

  function ReleaseAccepted(m: Decks, side: DeckSide, from: Option<DeckSide>): Decks {
    var deck := m.shown.At(side);
    var (adopted, m1) :=
      if from.Some? then
        var other := from.value;
        var was := if other in m.hosts then m.hosts[other] else EMPTY_DECK;
        var host := AdoptLoadedTrack(m.shown.At(other), was);
        (AdoptLoadedTrack(deck, m.shown.At(other)),
         m.(shown := Put(m.shown, other, host.(seekGeneration := Bump(host.seekGeneration))),
            hosts := m.hosts - {other}))
      else
        var tune := if side in m.parked then m.parked[side] else EMPTY_DECK;
        (AdoptLoadedTrack(deck, tune), m.(hosts := m.hosts - {side.Other()}));
    var back := adopted.(quickScratch := None, quickScratchParkedSecs := 0.0, atEnd := false,
                         seekGeneration := Bump(deck.seekGeneration));
    m1.(shown := Put(m1.shown, side, back), parked := m1.parked - {side})
  }

  function Release(m: Decks, side: DeckSide, reply: Reply): Decks {
    if !m.running || m.shown.At(side).quickScratch == None || reply.Refused? then m
    else ReleaseAccepted(m, side, reply.other)
  }

  /** Pressing the lit pad is the release gesture. */
  predicate IsReleasePress(m: Decks, side: DeckSide, pad: int) {
    var current := m.shown.At(side).quickScratch;
    current.Some? && current.value.pad == pad
  }

  function Toggle(m: Decks, side: DeckSide, pad: int, slot: Option<SampleSlot>, now: real,
                  reply: Reply): Decks
  {
    if !m.running || slot == None then m
    else if IsReleasePress(m, side, pad) then Release(m, side, reply)
    else if reply.Refused? then m
    else Engage(m, side, pad, slot.value, now, reply.other)
  }

  // ----- Everything else that touches the two decks -----

  /** The poll gives up on a scratch the engine no longer has. */
  predicate Drops(m: Decks, side: DeckSide, t: Telemetry, now: real) {
    && t.scratchSlot == None
    && m.shown.At(side).quickScratch.Some?
    && (side !in m.engagedAt || now - m.engagedAt[side] > ENGAGE_GRACE_SECS)
  }

  const GRID_POLLS: nat := 30

  predicate IsAnalysed(g: BeatGrid) {
    g.confidence > 0.0 && g.bpm > 0.0
  }

  predicate WantsGrid(l: LoadIdentity) {
    l.hasTrack && (l.bpm == None || l.gridAnchorSecs == None)
  }

  /** Polls since the deck began to wait for a grid. */
  function GridTick(ticks: map<DeckSide, nat>, side: DeckSide, l: LoadIdentity): nat {
    if !WantsGrid(l) then 0 else (if side in ticks then ticks[side] else 0) + 1
  }

  /** The first downbeat: the line at bar position zero, or the first line. */
  function FirstDownbeat(g: BeatGrid): Option<real> {
    var bar := if g.beatsPerBar > 1 then g.beatsPerBar else 1;
    var i := (bar - g.barPhase % bar) % bar;
    if i < |g.beats| then Some(g.beats[i]) else if g.beats != [] then Some(g.beats[0]) else None
  }

  function WithGrid(l: LoadIdentity, g: BeatGrid): LoadIdentity {
    l.(bpm := Some(g.bpm), bpmConfidence := g.confidence,
       gridBeatsPerBar := if g.beatsPerBar > 1 then g.beatsPerBar else 1,
       gridAnchorSecs := FirstDownbeat(g))
  }

  /** The first analysed grid is stamped once, unless the load came with a grid of its own. */
  function WithAutoGrid(l: LoadIdentity, g: BeatGrid): LoadIdentity {
    if !l.hasTrack || l.autoGridCaptured || l.bpm == None || !IsAnalysed(g) || g.beats == [] then l
    else
      var source := if l.beatGridLoadSource.Some? then l.beatGridLoadSource.value else "auto";
      var captured := l.(
        autoGridCaptured := true,
        beatGridLoadSource := if source == "pending_auto" then Some("auto") else l.beatGridLoadSource);
      if source == "auto" || source == "pending_auto"
      then captured.(autoGridBpm := Some(g.bpm), autoGridAnchorSecs := Some(g.beats[0]))
      else captured
  }

  /** The load after a poll that is the `tick`th to wait for its grid. */
  function Gridded(l: LoadIdentity, tick: nat, g: BeatGrid): LoadIdentity {
    WithAutoGrid(if WantsGrid(l) && tick % GRID_POLLS == 0 && IsAnalysed(g) then WithGrid(l, g) else l, g)
  }

  function PolledLoad(m: Decks, side: DeckSide, t: Telemetry): LoadIdentity {
    var l := m.shown.At(side).load.(hasTrack := t.hasTrack);
    Gridded(l, GridTick(m.gridTicks, side, l), t.grid)
  }

  /** What the poll copies from the engine's transport. */
  function Transported(d: DeckState, t: Telemetry): DeckState {
    d.(load := d.load.(hasTrack := t.hasTrack), isPlaying := t.isPlaying, atEnd := t.atEnd,
       quickScratchParkedSecs := t.parkedSecs,
       activeLoopBars := if t.loopActive then d.activeLoopBars else None,
       activeLoopBeats := if t.loopActive then d.activeLoopBeats else None)
  }

  function Polled(m: Decks, side: DeckSide, t: Telemetry): DeckState {
    Transported(m.shown.At(side), t).(load := PolledLoad(m, side, t))
  }

  function Poll(m: Decks, side: DeckSide, t: Telemetry, now: real): Decks {
    if !m.running then m
    else
      var next := Polled(m, side, t);
      var tick := GridTick(m.gridTicks, side, m.shown.At(side).load.(hasTrack := t.hasTrack));
      var m1 := m.(gridTicks := m.gridTicks[side := tick]);
      if Drops(m, side, t, now) then
        m1.(shown := Put(m.shown, side, next.(quickScratch := None)),
            parked := m.parked - {side}, hosts := m.hosts - {side.Other()})
      else m1.(shown := Put(m.shown, side, next))
  }

  function InstantDouble(m: Decks, from: DeckSide, accepted: bool): Decks {
    var source := m.shown.At(from);
    if !m.running || !source.load.hasTrack || !accepted then m
    else
      var to := from.Other();
      var d := AdoptLoadedTrack(m.shown.At(to), source);
      m.(shown := Put(m.shown, to, d.(seekGeneration := Bump(d.seekGeneration))))
  }

  /** Any other write to a deck: cue and grid edits, loads, source switches, loops, seeks.
      They may change every field of the deck but the scratch. */
  function Edit(m: Decks, side: DeckSide, next: DeckState): Decks {
    m.(shown := Put(m.shown, side, next.(quickScratch := m.shown.At(side).quickScratch)))
  }

  predicate StartsLoad(m: Decks, side: DeckSide, allowed: bool) {
    allowed && m.running && !m.shown.At(side).isLoading
  }

  function Stop(m: Decks): Decks {
    m.(shown := PerDeck(EMPTY_DECK, EMPTY_DECK), running := false)
  }

  datatype Step =
    | PressPad(side: DeckSide, pad: int, slot: Option<SampleSlot>, now: real, reply: Reply)
    | ReleasePad(side: DeckSide, reply: Reply)
    | PollDeck(side: DeckSide, telemetry: Telemetry, now: real)
    | Double(from: DeckSide, accepted: bool)
    | EditDeck(side: DeckSide, next: DeckState)
    | StopEngine
    | StartEngine

  function Next(m: Decks, s: Step): Decks {
    match s
    case PressPad(side, pad, slot, now, reply) => Toggle(m, side, pad, slot, now, reply)
    case ReleasePad(side, reply) => Release(m, side, reply)
    case PollDeck(side, t, now) => Poll(m, side, t, now)
    case Double(from, accepted) => InstantDouble(m, from, accepted)
    case EditDeck(side, next) => Edit(m, side, next)
    case StopEngine => Stop(m)
    case StartEngine => m.(running := true)
  }

  function Run(m: Decks, steps: seq<Step>): Decks
    decreases |steps|
  {
    if steps == [] then m else Run(Next(m, steps[0]), steps[1..])
  }

  // ----- The park invariant -----

  /** A released deck has its identity back; what the release resets is exactly this. */
  predicate ReleasedWith(d: DeckState, identity: LoadIdentity) {
    && d.load == identity
    && d.quickScratch == None && d.quickScratchParkedSecs == 0.0 && !d.atEnd && !d.isLoading
    && d.activeLoopBars == None && d.activeLoopBeats == None && d.pendingLoopInSecs == None
  }

  /** The engine only ever doubles a tune onto, or back from, the other deck. */
  predicate NamesTheOtherDeck(s: Step) {
    (s.PressPad? || s.ReleasePad?) && s.reply.Accepted? && s.reply.other.Some?
    ==> s.reply.other.value == s.side.Other()
  }

  /** The title a header shows for a deck without a scratch. */
  predicate Titles(title: Option<string>, l: LoadIdentity) {
    title == if !l.hasTrack then None else if l.trackTitle.Some? then l.trackTitle else l.displayName
  }

  predicate ParkedAt(m: Decks, side: DeckSide) {
    var scratch := m.shown.At(side).quickScratch;
    scratch.Some? ==>
      && side in m.parked && Titles(scratch.value.parkedTitle, m.parked[side].load)
      && (scratch.value.doubledTo.Some? ==>
            scratch.value.doubledTo.value == side.Other() && side.Other() in m.hosts)
  }

  /** A deck showing a scratch has its tune parked, under the title its header shows, and what the
      other deck showed is set aside if the tune was doubled there. The converse is not claimed:
      stopping the engine empties the decks and leaves the parks. */
  predicate ParkInvariant(m: Decks) {
    ParkedAt(m, A) && ParkedAt(m, B)
  }

  /** The scratch a press leaves: the pad's own, still under the title of the tune first parked, and
      still doubled where a swap finds it doubled. The transport plays on. */
  predicate ScratchesWith(d: DeckState, was: DeckState, pad: int, s: SampleSlot, to: Option<DeckSide>) {
    && d.quickScratch.Some?
    && d.quickScratch.value.pad == pad && d.quickScratch.value.slot == s.slot
    && (if was.quickScratch.Some? then d.quickScratch.value.parkedTitle == was.quickScratch.value.parkedTitle
        else Titles(d.quickScratch.value.parkedTitle, was.load))
    && (to.Some? ==> d.quickScratch.value.doubledTo == to)
    && (to == None ==> d.quickScratch.value.doubledTo
                       == if was.quickScratch.Some? then was.quickScratch.value.doubledTo else None)
    && !d.atEnd && !d.isLoading && d.isPlaying == was.isPlaying
    && d.activeLoopBars == None && d.activeLoopBeats == None && d.pendingLoopInSecs == None
    && d.seekGeneration != was.seekGeneration
  }

  /** What an engage leaves, deck by deck and park by park. */
  lemma EngageEffect(m: Decks, side: DeckSide, pad: int, s: SampleSlot, now: real,
                     to: Option<DeckSide>)
    requires to.Some? ==> to.value == side.Other()
    ensures var n := Engage(m, side, pad, s, now, to);
            var host := side.Other();
            && n.running == m.running
            && ScratchesWith(n.shown.At(side), m.shown.At(side), pad, s, to)
            && n.shown.At(side).load == SampleIdentity(s)
            && n.engagedAt == m.engagedAt[side := now]
            && (if to.Some? then
                  && n.shown.At(host).quickScratch == None
                  && n.shown.At(host).load == m.shown.At(side).load
                  && n.shown.At(host).seekGeneration != m.shown.At(host).seekGeneration
                  && n.hosts == m.hosts[host := m.shown.At(host)]
                else
                  && n.shown.At(host) == m.shown.At(host)
                  && n.hosts == m.hosts)
            && n.parked == (var kept := if to.Some? then m.parked - {host} else m.parked;
                            if m.shown.At(side).quickScratch.Some? then kept
                            else kept[side := m.shown.At(side)])
  {
    var host := side.Other();
    assert host != side && host.Other() == side;
  }

  /** What an accepted release leaves. */
  lemma ReleaseEffect(m: Decks, side: DeckSide, from: Option<DeckSide>)
    requires from.Some? ==> from.value == side.Other()
    ensures var n := ReleaseAccepted(m, side, from);
            var host := side.Other();
            && n.running == m.running
            && n.parked == m.parked - {side} && n.hosts == m.hosts - {host}
            && n.shown.At(host).quickScratch == m.shown.At(host).quickScratch
            && n.shown.At(side).seekGeneration != m.shown.At(side).seekGeneration
            && (if from.Some? then
                  && ReleasedWith(n.shown.At(side), m.shown.At(host).load)
                  && n.shown.At(host).seekGeneration != m.shown.At(host).seekGeneration
                  && n.shown.At(host).load == (if host in m.hosts then m.hosts[host].load else NO_LOAD)
                else
                  && ReleasedWith(n.shown.At(side),
                                  if side in m.parked then m.parked[side].load else NO_LOAD)
                  && n.shown.At(host) == m.shown.At(host))
  {
    var host := side.Other();
    assert host != side && host.Other() == side;
  }

  /** Two identities that differ in the track flag and the grid fields at most. */
  predicate SameTrack(l: LoadIdentity, n: LoadIdentity) {
    n == l.(hasTrack := n.hasTrack, bpm := n.bpm, bpmConfidence := n.bpmConfidence,
            gridBeatsPerBar := n.gridBeatsPerBar, gridAnchorSecs := n.gridAnchorSecs,
            autoGridCaptured := n.autoGridCaptured, beatGridLoadSource := n.beatGridLoadSource,
            autoGridBpm := n.autoGridBpm, autoGridAnchorSecs := n.autoGridAnchorSecs)
  }

  lemma CaptureKeepsTrack(l: LoadIdentity, g: BeatGrid)
    ensures SameTrack(l, WithGrid(l, g)) && SameTrack(l, WithAutoGrid(l, g))
    ensures WithGrid(l, g).hasTrack == l.hasTrack && WithAutoGrid(l, g).hasTrack == l.hasTrack
  {
  }

  lemma SameTrackJoins(l: LoadIdentity, m: LoadIdentity, n: LoadIdentity)
    requires SameTrack(l, m) && SameTrack(m, n)
    ensures SameTrack(l, n)
  {
  }

  lemma FlagKeepsTrack(l: LoadIdentity, hasTrack: bool)
    ensures SameTrack(l, l.(hasTrack := hasTrack))
  {
  }

  lemma PollKeepsTrack(m: Decks, side: DeckSide, t: Telemetry)
    ensures SameTrack(m.shown.At(side).load, PolledLoad(m, side, t))
    ensures PolledLoad(m, side, t).hasTrack == t.hasTrack
  {
    hide WithAutoGrid, WithGrid, GridTick, SameTrack;
    var l := m.shown.At(side).load;
    var flagged := l.(hasTrack := t.hasTrack);
    var gridded := WithGrid(flagged, t.grid);
    FlagKeepsTrack(l, t.hasTrack);
    CaptureKeepsTrack(flagged, t.grid);
    CaptureKeepsTrack(gridded, t.grid);
    SameTrackJoins(l, flagged, gridded);
    SameTrackJoins(l, flagged, WithAutoGrid(flagged, t.grid));
    SameTrackJoins(l, gridded, WithAutoGrid(gridded, t.grid));
  }

  /** What one poll of a running deck leaves: the same track, its grid filled in where the engine
      has one, and the scratch dropped where the engine has none. */
  lemma PollEffect(m: Decks, side: DeckSide, t: Telemetry, now: real)
    requires m.running
    ensures var n := Poll(m, side, t, now);
            var host := side.Other();
            && n.running && n.shown.At(host) == m.shown.At(host)
            && n.shown.At(side).load == PolledLoad(m, side, t)
            && SameTrack(m.shown.At(side).load, n.shown.At(side).load)
            && n.shown.At(side).load.hasTrack == t.hasTrack
            && (if Drops(m, side, t, now) then
                  && n.shown.At(side).quickScratch == None
                  && n.parked == m.parked - {side} && n.hosts == m.hosts - {host}
                else
                  && n.shown.At(side).quickScratch == m.shown.At(side).quickScratch
                  && n.parked == m.parked && n.hosts == m.hosts)
  {
    PollKeepsTrack(m, side, t);
    hide PolledLoad, SameTrack;
    assert side.Other() != side;
  }

  function Polls(side: DeckSide, polls: seq<(Telemetry, real)>): seq<Step> {
    seq(|polls|, i requires 0 <= i < |polls| => PollDeck(side, polls[i].0, polls[i].1))
  }

  /** A grid once known latches: with tempo, anchor and first grid in hand, no later poll changes
      anything of the load but its track flag, whatever the engine's analysis says by then. */
  lemma {:induction false} KnownGridLatches(m: Decks, side: DeckSide, polls: seq<(Telemetry, real)>)
    requires m.running
    requires var l := m.shown.At(side).load; l.bpm.Some? && l.gridAnchorSecs.Some? && l.autoGridCaptured
    ensures var (l, n) := (m.shown.At(side).load, Run(m, Polls(side, polls)));
            n.shown.At(side).load == l.(hasTrack := n.shown.At(side).load.hasTrack)
    decreases |polls|
  {
    if polls == [] {
      assert Polls(side, polls) == [];
    } else {
      var (t, now) := polls[0];
      PollEffect(m, side, t, now);
      assert Polls(side, polls)[1..] == Polls(side, polls[1..]);
      KnownGridLatches(Poll(m, side, t, now), side, polls[1..]);
    }
  }

  lemma PressKeepsParkedAt(m: Decks, s: Step, side: DeckSide)
    requires s.PressPad? && ParkInvariant(m) && NamesTheOtherDeck(s)
    ensures ParkedAt(Next(m, s), side)
  {
    hide Engage, ReleaseAccepted;
    var x := s.side;
    assert ParkedAt(m, side) && (x == side || x == side.Other());
    if m.running && s.slot.Some? && s.reply.Accepted? {
      if IsReleasePress(m, x, s.pad) {
        ReleaseEffect(m, x, s.reply.other);
      } else {
        EngageEffect(m, x, s.pad, s.slot.value, s.now, s.reply.other);
      }
    }
  }

  /** What finds no engine, no sample, no scratch to end or no track to double, or is refused. */
  predicate Idle(m: Decks, s: Step) {
    match s
    case PressPad(_, _, slot, _, reply) => !m.running || slot == None || reply.Refused?
    case ReleasePad(side, reply) => !m.running || reply.Refused? || m.shown.At(side).quickScratch == None
    case PollDeck(_, _, _) => !m.running
    case Double(from, accepted) => !m.running || !accepted || !m.shown.At(from).load.hasTrack
    case _ => false
  }

  lemma IdleStepsDoNothing(m: Decks, s: Step)
    requires Idle(m, s)
    ensures Next(m, s) == m
  {
    hide Engage, ReleaseAccepted, Polled;
  }

  lemma PollKeepsParkedAt(m: Decks, s: Step, side: DeckSide)
    requires s.PollDeck? && ParkInvariant(m)
    ensures ParkedAt(Next(m, s), side)
  {
    hide Poll, Drops, SameTrack, PolledLoad;
    assert ParkedAt(m, side);
    if m.running {
      PollEffect(m, s.side, s.telemetry, s.now);
    } else {
      IdleStepsDoNothing(m, s);
    }
  }

  lemma StepKeepsParkedAt(m: Decks, s: Step, side: DeckSide)
    requires ParkInvariant(m) && NamesTheOtherDeck(s)
    ensures ParkedAt(Next(m, s), side)
  {
    hide Toggle, ReleaseAccepted, Poll, Drops, SameTrack, PolledLoad;
    assert ParkedAt(m, side);
    if s.PressPad? {
      PressKeepsParkedAt(m, s, side);
    } else if s.ReleasePad? && Release(m, s.side, s.reply) != m {
      ReleaseEffect(m, s.side, s.reply.other);
    } else if s.PollDeck? {
      PollKeepsParkedAt(m, s, side);
    }
  }

  /** In every run a release finds the parked tune: the empty-deck fallback is never taken. */
  lemma {:induction false} ReleaseAlwaysFindsThePark(m: Decks, steps: seq<Step>)
    requires ParkInvariant(m)
    requires forall i :: 0 <= i < |steps| ==> NamesTheOtherDeck(steps[i])
    ensures ParkInvariant(Run(m, steps))
    decreases |steps|
  {
    if steps == [] {
    } else {
      StepKeepsParkedAt(m, steps[0], A);
      StepKeepsParkedAt(m, steps[0], B);
      ReleaseAlwaysFindsThePark(Next(m, steps[0]), steps[1..]);
    }
  }

  lemma ReachableDecksHaveParks(steps: seq<Step>)
    requires forall i :: 0 <= i < |steps| ==> NamesTheOtherDeck(steps[i])
    ensures ParkInvariant(Run(FRESH, steps))
  {
    ReleaseAlwaysFindsThePark(FRESH, steps);
  }

  // ----- Conservation -----

  /** The step presses a pad that puts a sample on `side`, and the engine takes it. */
  predicate Engages(m: Decks, s: Step, side: DeckSide) {
    && s.PressPad? && s.side == side && m.running && s.slot.Some?
    && !IsReleasePress(m, side, s.pad) && s.reply.Accepted?
  }

  /** The step ends the scratch on `side`: a release, a poll that drops it, a tune doubled
      onto it, a stop. */
  predicate Ends(m: Decks, s: Step, side: DeckSide) {
    || s.StopEngine?
    || (s.ReleasePad? && s.side == side && s.reply.Accepted?)
    || (s.PressPad? && s.side == side && IsReleasePress(m, side, s.pad) && s.reply.Accepted?)
    || (s.PollDeck? && s.side == side && Drops(m, side, s.telemetry, s.now))
    || (Engages(m, s, side.Other()) && s.reply.other == Some(side))
  }

  /** No step of the run ends the scratch on `side`, and no swap on it doubles anything. */
  predicate Undisturbed(m: Decks, steps: seq<Step>, side: DeckSide)
    decreases |steps|
  {
    steps == [] ||
    (&& NamesTheOtherDeck(steps[0])
     && !Ends(m, steps[0], side)
     && (Engages(m, steps[0], side) ==> steps[0].reply.other == None)
     && Undisturbed(Next(m, steps[0]), steps[1..], side))
  }

  /** Everything a later release of `side` reads is still there. */
  predicate ParksKept(m: Decks, n: Decks, side: DeckSide) {
    var host := side.Other();
    && n.running && n.shown.At(side).quickScratch.Some?
    && (side in m.parked ==> side in n.parked && n.parked[side] == m.parked[side])
    && (host in m.hosts ==> host in n.hosts && n.hosts[host] == m.hosts[host])
  }

  lemma UndisturbedPress(m: Decks, s: Step, side: DeckSide)
    requires m.running && m.shown.At(side).quickScratch.Some?
    requires s.PressPad? && NamesTheOtherDeck(s) && !Ends(m, s, side)
    requires Engages(m, s, side) ==> s.reply.other == None
    ensures ParksKept(m, Next(m, s), side)
  {
    hide Engage, ReleaseAccepted;
    var x := s.side;
    assert x == side || x == side.Other();
    if s.slot.Some? && s.reply.Accepted? {
      if IsReleasePress(m, x, s.pad) {
        ReleaseEffect(m, x, s.reply.other);
      } else {
        EngageEffect(m, x, s.pad, s.slot.value, s.now, s.reply.other);
      }
    }
  }

  lemma UndisturbedStep(m: Decks, s: Step, side: DeckSide)
    requires m.running && m.shown.At(side).quickScratch.Some?
    requires NamesTheOtherDeck(s) && !Ends(m, s, side)
    requires Engages(m, s, side) ==> s.reply.other == None
    ensures ParksKept(m, Next(m, s), side)
  {
    hide Engage, ReleaseAccepted, Poll, Drops;
    if s.PressPad? {
      UndisturbedPress(m, s, side);
    } else if s.ReleasePad? && Release(m, s.side, s.reply) != m {
      ReleaseEffect(m, s.side, s.reply.other);
    } else if s.PollDeck? {
      assert s.side == side || s.side == side.Other();
      PollEffect(m, s.side, s.telemetry, s.now);
    }
  }

  lemma {:induction false} UndisturbedRun(m: Decks, steps: seq<Step>, side: DeckSide)
    requires m.running && m.shown.At(side).quickScratch.Some?
    requires Undisturbed(m, steps, side)
    ensures ParksKept(m, Run(m, steps), side)
    decreases |steps|
  {
    if steps == [] {
    } else {
      UndisturbedStep(m, steps[0], side);
      UndisturbedRun(Next(m, steps[0]), steps[1..], side);
    }
  }

  /** Engage without a double, then swaps, polls, edits of either deck, doubles, anything the
      other deck does: the release gives the deck the identity it had at the press, and leaves
      the other deck alone. */
  lemma ScratchRoundTrip(m: Decks, press: Step, steps: seq<Step>, side: DeckSide)
    requires m.shown.At(side).quickScratch == None
    requires Engages(m, press, side) && press.reply.other == None
    requires Undisturbed(Next(m, press), steps, side)
    ensures var before := Run(Next(m, press), steps);
            var after := Next(before, ReleasePad(side, Accepted(None)));
            && ReleasedWith(after.shown.At(side), m.shown.At(side).load)
            && after.shown.At(side.Other()) == before.shown.At(side.Other())
            && side !in after.parked && side.Other() !in after.hosts
  {
    UndisturbedRun(Next(m, press), steps, side);
  }

  /** Engage with the tune doubled across, then anything undisturbed: the doubled-back release
      gives the host the identity it had before the press, and the scratched deck the identity
      the host showed just before the release, edits made there included. */
  lemma DoubledScratchRoundTrip(m: Decks, press: Step, steps: seq<Step>, side: DeckSide)
    requires m.shown.At(side).quickScratch == None
    requires Engages(m, press, side) && press.reply.other == Some(side.Other())
    requires Undisturbed(Next(m, press), steps, side)
    ensures var host := side.Other();
            var before := Run(Next(m, press), steps);
            var after := Next(before, ReleasePad(side, Accepted(Some(host))));
            && after.shown.At(host).load == m.shown.At(host).load
            && ReleasedWith(after.shown.At(side), before.shown.At(host).load)
            && side !in after.parked && host !in after.hosts
  {
    UndisturbedRun(Next(m, press), steps, side);
  }

  /** Why the swap must not double again: a second double sets aside what the host shows at the
      swap, so the release returns the first identity exactly when the two agree. */
  lemma RedoublingForgetsTheHost(m: Decks, swap: Step, side: DeckSide)
    requires m.shown.At(side).quickScratch.Some? && side.Other() in m.hosts
    requires Engages(m, swap, side) && swap.reply.other == Some(side.Other())
    ensures var host := side.Other();
            var after := Next(Next(m, swap), ReleasePad(side, Accepted(Some(host))));
            after.shown.At(host).load == m.hosts[host].load
            <==> m.shown.At(host).load == m.hosts[host].load
  {}

  /** Why no poll may drop the scratch: a drop loses both parks, and the release is then a
      no-op, so the deck goes on showing whatever it showed. */
  lemma DropForgetsBothParks(m: Decks, side: DeckSide, t: Telemetry, now: real, reply: Reply)
    requires m.running && Drops(m, side, t, now)
    ensures var n := Next(m, PollDeck(side, t, now));
            && side !in n.parked && side.Other() !in n.hosts
            && Next(n, ReleasePad(side, reply)) == n
            && n.shown.At(side).load == PolledLoad(m, side, t)
  {}

  // ----- What the decks show after one step -----

  /** The deck shows the sample and nothing of the tune it covers: no tempo, grid, key, cue or row. */
  lemma PressShowsTheSample(m: Decks, press: Step, side: DeckSide)
    requires Engages(m, press, side) && NamesTheOtherDeck(press)
    ensures var (l, s) := (Next(m, press).shown.At(side).load, press.slot.value);
            && l.hasTrack && l.displayName == l.trackTitle == s.title && l.sourceURL == s.url
            && l.formatChip == Some("SAMPLE") && l.trackArtist == None && l.bpm == None && l.key == None
            && l.loadedLibraryTrackId == None && l.gridAnchorSecs == None && !l.autoGridCaptured
            && l.hotCues == NO_CUES
  {
    hide Engage;
    EngageEffect(m, side, press.pad, press.slot.value, press.now, press.reply.other);
  }

  /** An accepted press of the pad that is lit is the release; of any other pad, it lights that one. */
  lemma LitPadReleases(m: Decks, press: Step, side: DeckSide)
    requires press.PressPad? && press.side == side && m.running && press.slot.Some?
    requires press.reply.Accepted? && NamesTheOtherDeck(press)
    ensures var (lit, n) := (m.shown.At(side).quickScratch, Next(m, press));
            var released := lit.Some? && lit.value.pad == press.pad;
            && (n.shown.At(side).quickScratch == None <==> released)
            && (released ==> n == Next(m, ReleasePad(side, press.reply)))
            && (!released ==> n.shown.At(side).quickScratch.value.pad == press.pad)
  {
    hide Engage, ReleaseAccepted;
    ReleaseEffect(m, side, press.reply.other);
    EngageEffect(m, side, press.pad, press.slot.value, press.now, press.reply.other);
  }

  /** An accepted double gives the other deck the whole identity and keeps its transport and its own
      scratch; its loop pads and its wait belonged to the track that left. */
  lemma DoubleCopiesTheIdentity(m: Decks, from: DeckSide)
    requires m.running && m.shown.At(from).load.hasTrack
    ensures var (n, to) := (Next(m, Double(from, true)), from.Other());
            var (d, was) := (n.shown.At(to), m.shown.At(to));
            && n == m.(shown := n.shown) && n.shown.At(from) == m.shown.At(from)
            && d.load == m.shown.At(from).load && !d.isLoading
            && d.activeLoopBars == None && d.activeLoopBeats == None && d.pendingLoopInSecs == None
            && d.isPlaying == was.isPlaying && d.atEnd == was.atEnd && d.quickScratch == was.quickScratch
            && d.seekGeneration != was.seekGeneration
  {
    assert from.Other() != from;
  }

  /** The transport is the engine's, and the pads of a loop the engine no longer runs go out. A point
      armed for one, and a load under way, are none of the poll's business. */
  lemma PollShowsTheTransport(m: Decks, side: DeckSide, t: Telemetry, now: real)
    requires m.running
    ensures var (d, was) := (Poll(m, side, t, now).shown.At(side), m.shown.At(side));
            && d.isPlaying == t.isPlaying && d.atEnd == t.atEnd && d.quickScratchParkedSecs == t.parkedSecs
            && (t.loopActive ==>
                  d.activeLoopBars == was.activeLoopBars && d.activeLoopBeats == was.activeLoopBeats)
            && (!t.loopActive ==> d.activeLoopBars == None && d.activeLoopBeats == None)
            && d.pendingLoopInSecs == was.pendingLoopInSecs && d.isLoading == was.isLoading
            && d.seekGeneration == was.seekGeneration
  {
    hide PolledLoad;
  }

  /** A poll of a deck without a track, or before the analysis is done, moves nothing of the load but
      the flag. */
  lemma UnreadyGridIsNotTaken(m: Decks, side: DeckSide, t: Telemetry, now: real)
    requires m.running && (!t.hasTrack || t.grid.confidence <= 0.0 || t.grid.bpm <= 0.0)
    ensures Poll(m, side, t, now).shown.At(side).load == m.shown.At(side).load.(hasTrack := t.hasTrack)
  {
    PollEffect(m, side, t, now);
    hide Poll;
  }

  /** The poll gives up on a scratch if and only if the engine has none and the last press on the deck
      is more than a quarter of a second old; both parks go with it, and with nothing else. */
  lemma ScratchIsDroppedExactly(m: Decks, side: DeckSide, t: Telemetry, now: real)
    requires m.running
    ensures var (n, was) := (Poll(m, side, t, now), m.shown.At(side).quickScratch);
            var drops := was.Some? && t.scratchSlot == None
                         && (side in m.engagedAt ==> 4.0 * (now - m.engagedAt[side]) > 1.0);
            && n.shown.At(side).quickScratch == (if drops then None else was)
            && n.parked == (if drops then m.parked - {side} else m.parked)
            && n.hosts == (if drops then m.hosts - {side.Other()} else m.hosts)
            && n.engagedAt == m.engagedAt
  {
    PollEffect(m, side, t, now);
    hide PolledLoad;
  }

  lemma {:induction false} GraceHolds(m: Decks, side: DeckSide, polls: seq<(Telemetry, real)>)
    requires m.running && side in m.engagedAt
    requires forall i :: 0 <= i < |polls| ==> 4.0 * (polls[i].1 - m.engagedAt[side]) <= 1.0
    ensures var n := Run(m, Polls(side, polls));
            && n.shown.At(side).quickScratch == m.shown.At(side).quickScratch
            && n.parked == m.parked && n.hosts == m.hosts
    decreases |polls|
  {
    if polls == [] {
      assert Polls(side, polls) == [];
    } else {
      var (t, now) := polls[0];
      ScratchIsDroppedExactly(m, side, t, now);
      assert Polls(side, polls)[1..] == Polls(side, polls[1..]);
      hide Poll;
      assert Next(m, PollDeck(side, t, now)) == Poll(m, side, t, now);
      PollEffect(m, side, t, now);
      GraceHolds(Poll(m, side, t, now), side, polls[1..]);
    }
  }

  /** Whatever the engine says in the first quarter of a second after a press, the deck keeps the
      scratch and both parks. */
  lemma FreshPressIsNotDropped(m: Decks, press: Step, side: DeckSide, polls: seq<(Telemetry, real)>)
    requires Engages(m, press, side) && NamesTheOtherDeck(press)
    requires forall i :: 0 <= i < |polls| ==> 4.0 * (polls[i].1 - press.now) <= 1.0
    ensures var (p, n) := (Next(m, press), Run(Next(m, press), Polls(side, polls)));
            && n.shown.At(side).quickScratch == p.shown.At(side).quickScratch
            && n.shown.At(side).quickScratch.Some? && n.parked == p.parked && n.hosts == p.hosts
  {
    hide Engage, Polls;
    EngageEffect(m, side, press.pad, press.slot.value, press.now, press.reply.other);
    GraceHolds(Next(m, press), side, polls);
  }

  /** Once the engine is off the decks stay empty until it is started again: every command and every
      poll is dead, and only an edit of the view-model's own writes a deck. */
  lemma {:induction false} StoppedDecksStayEmpty(m: Decks, steps: seq<Step>)
    requires forall i :: 0 <= i < |steps| ==> !steps[i].StartEngine? && !steps[i].EditDeck?
    ensures var n := Run(Stop(m), steps);
            && n == Stop(m) && !n.running && n.shown.At(A) == n.shown.At(B) == EMPTY_DECK
            && Next(n, StartEngine).running && Next(n, StartEngine).shown == n.shown
    decreases |steps|
  {
    if steps == [] {
    } else {
      if !steps[0].StopEngine? { IdleStepsDoNothing(Stop(m), steps[0]); }
      StoppedDecksStayEmpty(m, steps[1..]);
    }
  }

  // ----- The view-model itself -----

  /** The view-model's two decks and its park dictionaries, updated in place. */
  class QuickScratchModel {
    var deckA: DeckState
    var deckB: DeckState
    var quickScratchParked: map<DeckSide, DeckState>
    var doubleHostParked: map<DeckSide, DeckState>
    var quickScratchEngagedAt: map<DeckSide, real>
    var bpmPollTick: map<DeckSide, nat>
    var isRunning: bool

    constructor ()
      ensures State() == FRESH
    {
      deckA, deckB := EMPTY_DECK, EMPTY_DECK;
      quickScratchParked, doubleHostParked, quickScratchEngagedAt := map[], map[], map[];
      bpmPollTick := map[];
      isRunning := false;
    }

    ghost function State(): Decks
      reads this
    {
      Decks(PerDeck(deckA, deckB), quickScratchParked, doubleHostParked, quickScratchEngagedAt,
            bpmPollTick, isRunning)
    }

    function StateFor(side: DeckSide): DeckState
      reads this
    {
      if side == A then deckA else deckB
    }

    method SetState(next: DeckState, side: DeckSide)
      modifies this`deckA, this`deckB
      ensures State() == old(State()).(shown := Put(old(State().shown), side, next))
    {
      if side == A { deckA := next; } else { deckB := next; }
    }

    method ToggleQuickScratch(side: DeckSide, pad: int, slot: Option<SampleSlot>, now: real,
                              reply: Reply)
      modifies this
      ensures State() == Toggle(old(State()), side, pad, slot, now, reply)
    {
      if !isRunning || slot == None { return; }
      var deck := StateFor(side);
      if deck.quickScratch.Some? && deck.quickScratch.value.pad == pad {
        ReleaseQuickScratch(side, reply);
        return;
      }
      if reply.Refused? { return; }
      var parkedTitle := HeaderTitle(deck);
      var doubledTo := reply.other;
      if doubledTo.Some? {
        var destination := StateFor(doubledTo.value);
        doubleHostParked := doubleHostParked[doubledTo.value := destination];
        destination := AdoptLoadedTrack(destination, deck);
        destination := destination.(quickScratch := None,
                                    seekGeneration := Bump(destination.seekGeneration));
        SetState(destination, doubledTo.value);
        quickScratchParked := quickScratchParked - {doubledTo.value};
      }
      if deck.quickScratch == None {
        quickScratchParked := quickScratchParked[side := deck];
      }
      quickScratchEngagedAt := quickScratchEngagedAt[side := now];
      if doubledTo == None && deck.quickScratch.Some? {
        doubledTo := deck.quickScratch.value.doubledTo;
      }
      deck := AdoptLoadedTrack(deck, SampleDeck(slot.value));
      deck := deck.(
        quickScratch := Some(QuickScratchState(pad, slot.value.slot, parkedTitle, doubledTo)),
        atEnd := false, seekGeneration := Bump(deck.seekGeneration));
      SetState(deck, side);
    }

    method ReleaseQuickScratch(side: DeckSide, reply: Reply)
      modifies this
      ensures State() == Release(old(State()), side, reply)
    {
      if !isRunning || StateFor(side).quickScratch == None || reply.Refused? { return; }
      var deck := StateFor(side);
      var parked := if side in quickScratchParked then Some(quickScratchParked[side]) else None;
      quickScratchParked := quickScratchParked - {side};
      if reply.other.Some? {
        var other := reply.other.value;
        deck := AdoptLoadedTrack(deck, StateFor(other));
        var host := StateFor(other);
        var was := if other in doubleHostParked then doubleHostParked[other] else EMPTY_DECK;
        doubleHostParked := doubleHostParked - {other};
        host := AdoptLoadedTrack(host, was);
        SetState(host.(seekGeneration := Bump(host.seekGeneration)), other);
      } else {
        doubleHostParked := doubleHostParked - {side.Other()};
        deck := AdoptLoadedTrack(deck, if parked.Some? then parked.value else EMPTY_DECK);
      }
      deck := deck.(quickScratch := None, quickScratchParkedSecs := 0.0, atEnd := false,
                    seekGeneration := Bump(deck.seekGeneration));
      SetState(deck, side);
    }

    /** The asynchronous grid: asked for every so many polls until it is there. */
    method ReadGrid(side: DeckSide, l: LoadIdentity, grid: BeatGrid) returns (gridded: LoadIdentity)
      modifies this`bpmPollTick
      ensures var tick := GridTick(old(bpmPollTick), side, l);
              bpmPollTick == old(bpmPollTick)[side := tick] && gridded == Gridded(l, tick, grid)
    {
      var tick := 0;
      gridded := l;
      if l.hasTrack && (l.bpm == None || l.gridAnchorSecs == None) {
        tick := (if side in bpmPollTick then bpmPollTick[side] else 0) + 1;
        if tick % GRID_POLLS == 0 && IsAnalysed(grid) {
          gridded := WithGrid(l, grid);
        }
      }
      bpmPollTick := bpmPollTick[side := tick];
      gridded := WithAutoGrid(gridded, grid);
    }

    /** The engine is the authority on whether a scratch is still on. */
    method FollowScratch(side: DeckSide, t: Telemetry, now: real) returns (kept: Option<QuickScratchState>)
      modifies this`quickScratchParked, this`doubleHostParked
      ensures var drops := Drops(old(State()), side, t, now);
              && kept == (if drops then None else old(State()).shown.At(side).quickScratch)
              && quickScratchParked == (if drops then old(quickScratchParked) - {side} else old(quickScratchParked))
              && doubleHostParked
                 == (if drops then old(doubleHostParked) - {side.Other()} else old(doubleHostParked))
    {
      kept := StateFor(side).quickScratch;
      if t.scratchSlot == None && kept.Some?
         && (side !in quickScratchEngagedAt
             || now - quickScratchEngagedAt[side] > ENGAGE_GRACE_SECS) {
        kept := None;
        quickScratchParked := quickScratchParked - {side};
        doubleHostParked := doubleHostParked - {side.Other()};
      }
    }

    method ReadDeckState(side: DeckSide, t: Telemetry, now: real)
      modifies this
      ensures State() == Poll(old(State()), side, t, now)
    {
      if !isRunning { return; }
      hide Gridded, GridTick, Drops;
      var next := Transported(StateFor(side), t);
      var kept := FollowScratch(side, t, now);
      var gridded := ReadGrid(side, next.load, t.grid);
      SetState(next.(quickScratch := kept, load := gridded), side);
    }

    /** `recording` says deck A belongs to a recording, which refuses every load. */
    method InstantDoubleTo(toDeckB: bool, recording: bool, accepted: bool)
      modifies this
      ensures State() == InstantDouble(old(State()), if toDeckB then A else B, !recording && accepted)
    {
      if !isRunning || recording { return; }
      var from := if toDeckB then A else B;
      var source := StateFor(from);
      if !source.load.hasTrack || !accepted { return; }
      var destination := AdoptLoadedTrack(StateFor(from.Other()), source);
      SetState(destination.(seekGeneration := Bump(destination.seekGeneration)), from.Other());
    }

    /** `loadTrack` up to its first suspension; `allowed` says neither a recording nor a deck on air
        stands in the way. */
    method LoadTrack(side: DeckSide, file: TrackFile, grid: Option<LibraryGrid>, allowed: bool)
      returns (started: bool)
      modifies this
      ensures started == StartsLoad(old(State()), side, allowed)
      ensures State() == if started then Edit(old(State()), side,
                                              PaintedDeck(old(State()).shown.At(side), file, grid))
                         else old(State())
    {
      var target := StateFor(side);
      if !allowed || !isRunning || target.isLoading { return false; }
      var starting := target.(load := Unknown(target.load).(
        sourceURL := Some(file.url), displayName := Some(file.name),
        beatGridLoadSource := Some("pending_auto")), isLoading := true);
      if grid.Some? {
        starting := starting.(load := starting.load.(beatGridLoadSource := Some(grid.value.source)));
      }
      SetState(starting, side);
      return true;
    }

    /** `loadTrack` after its suspension. `info` is what the engine says of the deck by then and
        `row` the file's row in the library, if it has one. */
    method LoadLanded(side: DeckSide, ok: bool, chip: Option<string>, grid: Option<LibraryGrid>,
                      info: Option<TrackRef>, row: Option<LibraryRow>)
      modifies this
      ensures State() == Edit(old(State()), side,
                              if ok then LandedDeck(old(State()).shown.At(side), chip, grid, info, row)
                              else FailedDeck(old(State()).shown.At(side)))
    {
      var next := StateFor(side).(isLoading := false);
      if !ok {
        SetState(next, side);
        return;
      }
      var l := next.load.(hasTrack := true, hotCues := NO_CUES);
      if info.Some? {
        l := l.(formatChip := chip, trackTitle := info.value.title, trackArtist := info.value.artist);
      }
      l := if grid.Some? then l.(bpm := Some(grid.value.bpm), bpmConfidence := 1.0)
           else l.(bpm := None, bpmConfidence := 0.0);
      SetState(next.(load := Recorded(l, row), atEnd := false, isPlaying := false), side);
    }

    method StopDecks()
      modifies this
      ensures State() == Stop(old(State()))
    {
      isRunning := false;
      deckA, deckB := EMPTY_DECK, EMPTY_DECK;
    }
  }
}
