/**
 The echo-out pad (apple/Dub/MainView.swift) over the engine's delay lines: an engaged echo mutes
 its deck, so the pad must be lit whenever one is engaged.
 */
module Echo {
  import opened Prelude
  import opened Reals
  import Line = EchoLine

  /** `lit` is the division the pad shows; `line` is the deck's echo in the audio engine. */
  datatype Deck = Deck(lit: Option<real>, line: Line.Echo)

  datatype Model = Model(isRunning: bool, echoOutEnabled: bool, decks: PerDeck<Deck>)

  /** One main-actor action, with what the outside contributes: whether the engine's command queue
      had room (`accepted`), the platter's pitch, the byte the telemetry held. A `Render` is the
      audio thread's. */
  datatype Step =
    | Toggle(side: DeckSide, divisionBeats: real, bpm: Option<real>, pitchPercent: Option<real>,
             sampleRate: nat, lpCoeff: real, accepted: bool)
    | Load(side: DeckSide, admitted: bool, accepted: bool)
    | SwitchSource(side: DeckSide, accepted: bool)
    | Poll(side: DeckSide, echoState: nat, accepted: bool)
    | SetEchoOutEnabled(on: bool, acceptedA: bool, acceptedB: bool)
    | Stop
    | Started(line: Line.Echo)
    | Render(side: DeckSide, input: seq<Line.Frame>)

  function WithDeck(m: Model, side: DeckSide, deck: Deck): Model {
    m.(decks := Put(m.decks, side, deck))
  }

  function BaseBpm(bpm: Option<real>): real {
    if bpm.Some? && bpm.value > 0.0 then bpm.value else 120.0
  }

  function Speed(pitchPercent: Option<real>): real {
    1.0 + (if pitchPercent.Some? then pitchPercent.value else 0.0) / 100.0
  }

  /** The tempo the echo is locked to: the deck's, or 120, at the platter's pitch. */
  function EffectiveBpm(bpm: Option<real>, pitchPercent: Option<real>): real {
    BaseBpm(bpm) * Speed(pitchPercent)
  }

  const MAX_DELAY: int := 0xFFFF_FFFF

  /** The echo's length in frames, clamped to the command's 32-bit field. */
  function DelayFrames(divisionBeats: real, bpm: real, sampleRate: nat): nat
    requires bpm > 0.0
  {
    var n := Rounded(divisionBeats * 60.0 / bpm * sampleRate as real);
    if n < 1 then 1 else if n > MAX_DELAY then MAX_DELAY else n
  }

  predicate Valid(m: Model) {
    Line.Valid(m.decks.a.line) && Line.Valid(m.decks.b.line)
  }

  /** Send the engine a press; nothing happens to a deck whose record is held or spun backwards. */
  function EngageEcho(m: Model, deck: Deck, t: Step): (pressed: Deck)
    requires t.Toggle? && Line.Valid(deck.line)
    ensures Line.Valid(pressed.line)
  {
    var bpm := EffectiveBpm(t.bpm, t.pitchPercent);
    if m.isRunning && bpm > 0.0 && t.accepted && t.divisionBeats > 0.0
    then deck.(line := Line.Pressed(deck.line, DelayFrames(t.divisionBeats, bpm, t.sampleRate), 0.6, t.lpCoeff))
    else deck
  }

  function ReleaseEcho(m: Model, deck: Deck, accepted: bool): (released: Deck)
    requires Line.Valid(deck.line)
    ensures Line.Valid(released.line)
  {
    if m.isRunning && accepted then deck.(line := Line.Released(deck.line)) else deck
  }

  function DisengageIfEngaged(m: Model, side: DeckSide, accepted: bool): (m': Model)
    requires Valid(m)
    ensures Valid(m')
  {
    var deck := m.decks.At(side);
    if deck.lit.None? then m
    else WithDeck(m, side, ReleaseEcho(m, deck, accepted).(lit := None))
  }

  function Stopped(deck: Deck): (stopped: Deck)
    requires Line.Valid(deck.line)
    ensures Line.Valid(stopped.line)
  {
    Deck(None, Line.Released(deck.line))
  }

  function Do(m: Model, step: Step): (m': Model)
    requires Valid(m)
    ensures Valid(m')
  {
    match step
    case Toggle(side, beats, _, _, _, _, accepted) =>
      if !m.isRunning || !m.echoOutEnabled then m
      else
        var deck := m.decks.At(side);
        if deck.lit != Some(beats) then WithDeck(m, side, EngageEcho(m, deck.(lit := Some(beats)), step))
        else WithDeck(m, side, ReleaseEcho(m, deck.(lit := None), accepted))
    case Load(side, admitted, accepted) =>
      if m.isRunning && admitted then DisengageIfEngaged(m, side, accepted) else m
    case SwitchSource(side, accepted) => DisengageIfEngaged(m, side, accepted)
    case Poll(side, echoState, accepted) =>
      if m.isRunning && echoState == 2 then DisengageIfEngaged(m, side, accepted) else m
    case SetEchoOutEnabled(on, acceptedA, acceptedB) =>
      var m' := m.(echoOutEnabled := on);
      if on then m' else DisengageIfEngaged(DisengageIfEngaged(m', A, acceptedA), B, acceptedB)
    case Stop =>
      m.(isRunning := false, decks := PerDeck(Stopped(m.decks.a), Stopped(m.decks.b)))
    case Started(line) =>
      if Line.Valid(line) && Line.Dormant(line)
      then m.(isRunning := true, decks := PerDeck(m.decks.a.(line := line), m.decks.b.(line := line)))
      else m
    case Render(side, input) =>
      var deck := m.decks.At(side);
      if m.isRunning then WithDeck(m, side, deck.(line := Line.Run(deck.line, input))) else m
  }

  function Run(m: Model, steps: seq<Step>): (m': Model)
    requires Valid(m)
    ensures Valid(m')
    decreases |steps|
  {
    if steps == [] then m else Run(Do(m, steps[0]), steps[1..])
  }

  /** With the engine stopped neither a press, a load, a poll nor a frame of audio reaches an echo; and with
      the feature off no press does. */
  lemma StoppedEchoIsUntouched(m: Model, step: Step)
    requires Valid(m)
    ensures !m.isRunning && (step.Toggle? || step.Load? || step.Poll? || step.Render?) ==> Do(m, step) == m
    ensures !m.echoOutEnabled && step.Toggle? ==> Do(m, step) == m
    ensures step.Load? && !step.admitted ==> Do(m, step) == m
    ensures step.Poll? && step.echoState != 2 ==> Do(m, step) == m
  {
  }

  /** Stopping puts both pads out and both echoes to their end; a start gives both decks a line of their
      own that does nothing yet; switching the feature off puts both pads out, and on, nothing. */
  lemma SwitchesExactly(m: Model, on: bool, acceptedA: bool, acceptedB: bool, line: Line.Echo)
    requires Valid(m) && Line.Valid(line) && Line.Dormant(line)
    ensures var n := Do(m, Stop);
            && !n.isRunning && n.echoOutEnabled == m.echoOutEnabled
            && n.decks.a.lit == None && n.decks.b.lit == None
            && n.decks.a.line.phase.Idle? && n.decks.b.line.phase.Idle?
    ensures var n := Do(m, Started(line));
            && n.isRunning && n.echoOutEnabled == m.echoOutEnabled && n.decks.a.line == line && n.decks.b.line == line
            && n.decks.a.lit == m.decks.a.lit && n.decks.b.lit == m.decks.b.lit
    ensures var n := Do(m, SetEchoOutEnabled(on, acceptedA, acceptedB));
            && n.echoOutEnabled == on && n.isRunning == m.isRunning && (on ==> n.decks == m.decks)
            && (!on ==> n.decks.a.lit == None && n.decks.b.lit == None)
  {
    hide Line.Valid, Line.Dormant;
  }

  /** A press of the pad that is lit puts it out and releases the echo, if the engine hears it; a length
      of nothing lights its pad and asks for no echo. */
  lemma SecondPressReleases(m: Model, t: Step)
    requires Valid(m) && t.Toggle? && m.isRunning && m.echoOutEnabled
    ensures var (was, n) := (m.decks.At(t.side), Do(m, t).decks.At(t.side));
            && (was.lit == Some(t.divisionBeats) ==>
                  n.lit == None && n.line == if t.accepted then Line.Released(was.line) else was.line)
            && (was.lit != Some(t.divisionBeats) && t.divisionBeats <= 0.0 ==>
                  n == Deck(Some(t.divisionBeats), was.line))
            && Do(m, t).decks.At(t.side.Other()) == m.decks.At(t.side.Other())
  {
    hide Line.Valid, EffectiveBpm, DelayFrames;
  }

  // ----- Never muted in the dark -----

  predicate Engaged(deck: Deck) {
    !deck.line.phase.Idle?
  }

  predicate MutedInTheDark(m: Model, side: DeckSide) {
    Engaged(m.decks.At(side)) && !(m.isRunning && m.decks.At(side).lit.Some?)
  }

  predicate Inv(m: Model) {
    !MutedInTheDark(m, A) && !MutedInTheDark(m, B)
  }

  /** The step turns this deck's echo off and the engine refuses to hear it. */
  predicate LosesRelease(m: Model, step: Step, side: DeckSide) {
    && m.isRunning && m.decks.At(side).lit.Some?
    && match step
       case Toggle(s, beats, _, _, _, _, accepted) =>
         s == side && m.echoOutEnabled && m.decks.At(side).lit == Some(beats) && !accepted
       case Load(s, admitted, accepted) => s == side && admitted && !accepted
       case SwitchSource(s, accepted) => s == side && !accepted
       case Poll(s, echoState, accepted) => s == side && echoState == 2 && !accepted
       case SetEchoOutEnabled(on, acceptedA, acceptedB) => !on && !(if side == A then acceptedA else acceptedB)
       case _ => false
  }

  lemma {:induction false} RenderingKeepsPhase(e: Line.Echo, input: seq<Line.Frame>)
    requires Line.Valid(e)
    ensures Line.Run(e, input).phase.Idle? <==> e.phase.Idle?
    decreases |input|
  {
    if input == [] {
    } else {
      RenderingKeepsPhase(e, input[..|input| - 1]);
    }
  }

  /** One step, exactly: a lit deck goes dark while muted when, and only when, the engine drops the
      release of an engaged echo. */
  lemma DarkExactly(m: Model, step: Step, side: DeckSide)
    requires Valid(m) && Inv(m)
    ensures MutedInTheDark(Do(m, step), side) <==> LosesRelease(m, step, side) && Engaged(m.decks.At(side))
  {
    hide Line.Run, Line.Valid;
    if step.Render? { RenderingKeepsPhase(m.decks.At(step.side).line, step.input); }
  }

  predicate ReleasesAreHeard(m: Model, steps: seq<Step>)
    requires Valid(m)
    decreases |steps|
  {
    steps == []
    || (&& !LosesRelease(m, steps[0], A) && !LosesRelease(m, steps[0], B)
        && ReleasesAreHeard(Do(m, steps[0]), steps[1..]))
  }

  /** In every run whose releases reach the engine, an echo that mutes its deck has its pad lit. */
  lemma {:induction false} NeverMutedInTheDark(m: Model, steps: seq<Step>)
    requires Valid(m) && Inv(m) && ReleasesAreHeard(m, steps)
    ensures Inv(Run(m, steps))
    decreases |steps|
  {
    if steps == [] {
    } else {
      DarkExactly(m, steps[0], A);
      DarkExactly(m, steps[0], B);
      NeverMutedInTheDark(Do(m, steps[0]), steps[1..]);
    }
  }

  /** So it is from launch on, both decks' lines fresh and both pads out. */
  lemma LaunchIsNotDark(lines: PerDeck<Line.Echo>, enabled: bool, steps: seq<Step>)
    requires Line.Valid(lines.a) && Line.Dormant(lines.a) && Line.Valid(lines.b) && Line.Dormant(lines.b)
    requires ReleasesAreHeard(Model(false, enabled, PerDeck(Deck(None, lines.a), Deck(None, lines.b))), steps)
    ensures Inv(Run(Model(false, enabled, PerDeck(Deck(None, lines.a), Deck(None, lines.b))), steps))
  {
    NeverMutedInTheDark(Model(false, enabled, PerDeck(Deck(None, lines.a), Deck(None, lines.b))), steps);
  }

  /** And a lost one stays lost: nothing but a press, a stop or a restart reaches a dark deck. */
  lemma DarkStaysDark(m: Model, step: Step, side: DeckSide)
    requires Valid(m) && MutedInTheDark(m, side) && m.decks.At(side).lit.None?
    requires !step.Stop? && !step.Started? && !(step.Toggle? && step.side == side)
    ensures MutedInTheDark(Do(m, step), side) && Do(m, step).decks.At(side).lit.None?
  {
    hide Line.Run, Line.Valid;
    if step.Render? { RenderingKeepsPhase(m.decks.At(step.side).line, step.input); }
  }

  lemma SameSign(base: real, speed: real)
    requires base > 0.0
    ensures base * speed > 0.0 <==> speed > 0.0
  {
    if speed > 0.0 {
      ProductIsPositive(base, speed);
    } else if speed < 0.0 {
      ProductIsPositive(base, -speed);
      assert base * speed == -(base * -speed);
    }
  }

  lemma TempoIsPositive(bpm: Option<real>, pitchPercent: Option<real>)
    ensures EffectiveBpm(bpm, pitchPercent) > 0.0 <==> (pitchPercent.Some? ==> pitchPercent.value > -100.0)
  {
    assert Speed(pitchPercent) > 0.0 <==> (pitchPercent.Some? ==> pitchPercent.value > -100.0);
    assert BaseBpm(bpm) > 0.0;
    hide BaseBpm, Speed;
    SameSign(BaseBpm(bpm), Speed(pitchPercent));
  }

  /** The pad lights before the engine answers, so it can be lit over an echo that never came:
      exactly when the queue was full or the record was held or ran backwards. */
  lemma DeadPadExactly(m: Model, t: Step)
    requires Valid(m) && Inv(m) && t.Toggle? && t.divisionBeats > 0.0
    requires m.isRunning && m.echoOutEnabled && m.decks.At(t.side).lit.None?
    ensures var deck := Do(m, t).decks.At(t.side);
            && deck.lit == Some(t.divisionBeats)
            && (!Engaged(deck) <==>
                  !t.accepted || (t.pitchPercent.Some? && t.pitchPercent.value <= -100.0))
  {
    hide Line.Valid;
    TempoIsPositive(t.bpm, t.pitchPercent);
  }

  /** So many beats, in seconds at `tempo` a minute, times the frames of a second. */
  function FramesOf(beats: real, tempo: real, sampleRate: nat): real {
    if tempo == 0.0 then 0.0 else beats * 60.0 / tempo * sampleRate as real
  }

  /** The nearest whole number of frames, as far as the command's field can hold. */
  lemma DelayIsNearest(divisionBeats: real, bpm: real, sampleRate: nat) returns (frames: int)
    requires bpm > 0.0
    ensures -0.5 < frames as real - FramesOf(divisionBeats, bpm, sampleRate) <= 0.5
    ensures DelayFrames(divisionBeats, bpm, sampleRate) == ClampIndex(frames, 1, 0xFFFF_FFFF)
  {
    frames := Rounded(divisionBeats * 60.0 / bpm * sampleRate as real);
  }

  lemma TempoIs(bpm: Option<real>, pitchPercent: Option<real>)
    ensures var speed := if pitchPercent.None? then 1.0 else 1.0 + pitchPercent.value / 100.0;
            EffectiveBpm(bpm, pitchPercent) == (if bpm.None? || bpm.value <= 0.0 then 120.0 else bpm.value) * speed
  {
  }

  lemma RingIsThere(e: Line.Echo)
    requires Line.Valid(e)
    ensures |e.ring| >= 1
  {
  }

  /** A live press asks for so many beats of the deck's own tempo at the platter's pitch, 120 where the
      tempo is not known: the nearest whole number of frames, as far as command and ring can hold. */
  lemma EchoLastsItsBeats(m: Model, t: Step) returns (frames: int)
    requires Valid(m) && t.Toggle? && t.divisionBeats > 0.0 && t.accepted
    requires m.isRunning && m.echoOutEnabled && m.decks.At(t.side).lit != Some(t.divisionBeats)
    requires t.pitchPercent.None? || t.pitchPercent.value > -100.0
    ensures var speed := if t.pitchPercent.None? then 1.0 else 1.0 + t.pitchPercent.value / 100.0;
            var tempo := (if t.bpm.None? || t.bpm.value <= 0.0 then 120.0 else t.bpm.value) * speed;
            var line := Do(m, t).decks.At(t.side).line;
            && tempo > 0.0
            && -0.5 < frames as real - FramesOf(t.divisionBeats, tempo, t.sampleRate) <= 0.5
            && line.delay == ClampIndex(ClampIndex(frames, 1, 0xFFFF_FFFF), 1, |line.ring|)
            && line.feedback == Clamp(0.6, 0.0, Line.MAX_FEEDBACK) && line.lpCoeff == Clamp(t.lpCoeff, 0.0, 1.0)
            && !line.phase.Idle?
  {
    hide EffectiveBpm, DelayFrames, FramesOf, Line.Valid;
    var line := m.decks.At(t.side).line;
    assert Line.Valid(line) && |line.ring| >= 1 by { RingIsThere(line); }
    TempoIsPositive(t.bpm, t.pitchPercent);
    TempoIs(t.bpm, t.pitchPercent);
    frames := DelayIsNearest(t.divisionBeats, EffectiveBpm(t.bpm, t.pitchPercent), t.sampleRate);
  }

  /** A muted deck gone silent comes back by itself: some frames after the engine engaged the echo,
      once the input has been silent for the waiting time, the next poll's release turns the pad off
      and the dry on. */
  lemma SilentDeckComesBack(m: Model, side: DeckSide) returns (n: nat)
    requires Valid(m) && Inv(m) && m.decks.At(side).line.phase.Engaged? && m.decks.At(side).line.lpCoeff > 0.0
    ensures forall input: seq<Line.Frame> ::
              |input| >= n + m.decks.At(side).line.ready
              && (forall i :: |input| - m.decks.At(side).line.ready <= i < |input|
                    ==> Line.Within(input[i], Line.INPUT_SILENCE_FLOOR))
              ==> var heard := Do(m, Render(side, input));
                  var after := Do(heard, Poll(side, Line.StateCode(heard.decks.At(side).line), true));
                  after.decks.At(side).lit.None? && !Engaged(after.decks.At(side))
  {
    var e := m.decks.At(side).line;
    n := Line.SilentDeckIsReleased(e);
    hide Line.Run, Line.Valid;
    forall input: seq<Line.Frame> |
      |input| >= n + e.ready
      && (forall i :: |input| - e.ready <= i < |input| ==> Line.Within(input[i], Line.INPUT_SILENCE_FLOOR))
      ensures var heard := Do(m, Render(side, input));
              var after := Do(heard, Poll(side, Line.StateCode(heard.decks.At(side).line), true));
              after.decks.At(side).lit.None? && !Engaged(after.decks.At(side))
    {
      assert Line.StateCode(Line.Run(e, input)) == 2;
    }
  }
}
