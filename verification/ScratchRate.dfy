/**
 The mouse scratch: a cursor sampled at irregular times, smoothed into a deck rate, and a
 watchdog that runs the rate down when the cursor stops (apple/Dub/MainView.swift).

 Times and rates are reals. The filter's `exp(-t/tau)` is any function `E` with the laws of
 `IsDecay`; nothing else about it is used.
 */
module ScratchRate {
  import opened Prelude
  import opened Reals

  const RATE_LIMIT: real := 8.0
  const MIN_GAP: real := 0.001
  const STALL_SECS: real := 0.050
  const STALL_DECAY: real := 0.7
  const STALL_FLOOR: real := 0.01

  function Later(s: real, t: real): real {
    s + t
  }

  ghost predicate IsDecay(E: real -> real) {
    && E(0.0) == 1.0
    && (forall s: real, t: real {:trigger Later(s, t)} ::
          0.0 <= s && 0.0 <= t ==> E(Later(s, t)) == E(s) * E(t))
    && (forall t: real :: 0.0 < t ==> 0.0 < E(t) < 1.0)
  }

  function Limited(rate: real): real {
    Clamp(rate, -RATE_LIMIT, RATE_LIMIT)
  }

  /** One gesture in flight: where and when the cursor was last seen, and the smoothed rate. */
  datatype Scratch = Scratch(lastOffset: real, lastAt: real, rate: real)

  /** The rate one cursor sample asks for, before the clamp. */
  function Smoothed(E: real -> real, rate: real, dt: real, delta: real): real {
    var instant := delta / (if dt < MIN_GAP then MIN_GAP else dt);
    var alpha := 1.0 - E(dt);
    alpha * instant + (1.0 - alpha) * rate
  }

  function Pointer(E: real -> real, s: Scratch, now: real, offset: real): Scratch {
    var dt := now - s.lastAt;
    var delta := offset - s.lastOffset;
    var seen := s.(lastOffset := offset, lastAt := now);
    if dt <= 0.0 || delta == 0.0 then seen
    else seen.(rate := Limited(Smoothed(E, s.rate, dt, delta)))
  }

  /** What one stalled tick leaves of a rate. */
  function RunDown(rate: real): real {
    var next := rate * STALL_DECAY;
    if rate == 0.0 then rate else if Abs(next) < STALL_FLOOR then 0.0 else next
  }

  function Watchdog(s: Scratch, now: real): Scratch {
    if now - s.lastAt <= STALL_SECS then s else s.(rate := RunDown(s.rate))
  }

  // ----- Partition invariance -----

  /** What happens while the cursor moves at one speed: a sample `gap` after the last, or a
      watchdog tick `after` it. */
  datatype Beat = Moved(gap: real) | Ticked(after: real)

  /** Samples 1 to 50 ms apart, and therefore no tick later than 50 ms after one. */
  predicate Prompt(b: Beat) {
    match b
    case Moved(gap) => MIN_GAP <= gap <= STALL_SECS
    case Ticked(after) => after <= STALL_SECS
  }

  function OnBeat(E: real -> real, s: Scratch, speed: real, b: Beat): Scratch {
    match b
    case Moved(gap) => Pointer(E, s, s.lastAt + gap, s.lastOffset + speed * gap)
    case Ticked(after) => Watchdog(s, s.lastAt + after)
  }

  function OnBeats(E: real -> real, s: Scratch, speed: real, beats: seq<Beat>): Scratch
    decreases |beats|
  {
    if beats == [] then s else OnBeats(E, OnBeat(E, s, speed, beats[0]), speed, beats[1..])
  }

  function Elapsed(beats: seq<Beat>): real {
    if beats == [] then 0.0
    else (match beats[0] case Moved(gap) => gap case Ticked(_) => 0.0) + Elapsed(beats[1..])
  }

  lemma ProductIsZero(a: real, b: real)
    requires a * b == 0.0
    ensures a == 0.0 || b == 0.0
  {}

  function Blend(w: real, x: real, y: real): real {
    (1.0 - w) * x + w * y
  }

  /** Where a rate gets on its way to `speed` when `w` of the distance is left. */
  function Approach(speed: real, rate: real, w: real): real {
    speed + (rate - speed) * w
  }

  lemma BlendApproaches(w: real, x: real, y: real)
    ensures Blend(w, x, y) == Approach(x, y, w)
  {}

  lemma ApproachTwice(speed: real, rate: real, v: real, w: real)
    ensures Approach(speed, Approach(speed, rate, v), w) == Approach(speed, rate, v * w)
  {
    Regroup(rate - speed, v, w);
  }

  lemma SmoothedBlends(E: real -> real, rate: real, dt: real, delta: real)
    ensures Smoothed(E, rate, dt, delta)
         == Blend(E(dt), delta / (if dt < MIN_GAP then MIN_GAP else dt), rate)
  {
    var alpha := 1.0 - E(dt);
    assert 1.0 - alpha == E(dt);
  }

  /** A weighted mean of two rates in range is in range. */
  lemma BlendInRange(w: real, x: real, y: real)
    requires 0.0 <= w <= 1.0 && Abs(x) <= RATE_LIMIT && Abs(y) <= RATE_LIMIT
    ensures Abs(Blend(w, x, y)) <= RATE_LIMIT
  {
    ProductNotNegative(1.0 - w, RATE_LIMIT - x);
    ProductNotNegative(w, RATE_LIMIT - y);
    ProductNotNegative(1.0 - w, RATE_LIMIT + x);
    ProductNotNegative(w, RATE_LIMIT + y);
  }

  /** One sample of a cursor moving at `speed` blends the rate with what the sample asks for. */
  lemma SampleBlends(E: real -> real, s: Scratch, speed: real, gap: real)
    requires speed != 0.0 && 0.0 < gap
    ensures var asked := speed * gap / (if gap < MIN_GAP then MIN_GAP else gap);
            && Smoothed(E, s.rate, gap, speed * gap) == Blend(E(gap), asked, s.rate)
            && OnBeat(E, s, speed, Moved(gap)).rate == Limited(Blend(E(gap), asked, s.rate))
  {
    var delta := (s.lastOffset + speed * gap) - s.lastOffset;
    assert delta == speed * gap;
    if delta == 0.0 { ProductIsZero(speed, gap); }
    var dt := (s.lastAt + gap) - s.lastAt;
    assert dt == gap;
    var n := Pointer(E, s, s.lastAt + gap, s.lastOffset + speed * gap);
    assert n.rate == Limited(Smoothed(E, s.rate, dt, delta));
    assert Smoothed(E, s.rate, dt, delta) == Smoothed(E, s.rate, gap, speed * gap);
    SmoothedBlends(E, s.rate, gap, speed * gap);
    assert OnBeat(E, s, speed, Moved(gap)) == n;
  }

  /** One prompt sample moves the rate along the exponential, and the clamp does not fire. */
  lemma SampleFollowsTheExponential(E: real -> real, s: Scratch, speed: real, gap: real)
    requires IsDecay(E) && speed != 0.0 && Abs(speed) <= RATE_LIMIT && Abs(s.rate) <= RATE_LIMIT
    requires MIN_GAP <= gap
    ensures var r := OnBeat(E, s, speed, Moved(gap)).rate;
            && r == Approach(speed, s.rate, E(gap))
            && r == Smoothed(E, s.rate, gap, speed * gap)
            && Abs(r) <= RATE_LIMIT
  {
    SampleBlends(E, s, speed, gap);
    assert speed * gap / gap == speed;
    BlendInRange(E(gap), speed, s.rate);
    BlendApproaches(E(gap), speed, s.rate);
  }

  lemma {:induction false} ElapsedIsNotNegative(beats: seq<Beat>)
    requires forall i :: 0 <= i < |beats| ==> Prompt(beats[i])
    ensures Elapsed(beats) >= 0.0
  {
    if beats == [] {
    } else {
      assert Prompt(beats[0]);
      ElapsedIsNotNegative(beats[1..]);
    }
  }

  /** A prompt sample and then `t` of smooth motion are `gap + t` of smooth motion. */
  lemma SampleThenMotion(E: real -> real, s: Scratch, speed: real, gap: real, t: real)
    requires IsDecay(E) && speed != 0.0 && Abs(speed) <= RATE_LIMIT && Abs(s.rate) <= RATE_LIMIT
    requires MIN_GAP <= gap && 0.0 <= t
    ensures Approach(speed, OnBeat(E, s, speed, Moved(gap)).rate, E(t))
         == Approach(speed, s.rate, E(gap + t))
  {
    SampleFollowsTheExponential(E, s, speed, gap);
    assert E(Later(gap, t)) == E(gap) * E(t);
    ApproachTwice(speed, s.rate, E(gap), E(t));
  }

  /** However many samples carry the motion, and wherever the ticks fall, the smoothed rate
      ends where the continuous filter would. */
  lemma {:induction false} PartitionInvariance(E: real -> real, s: Scratch, speed: real,
                                               beats: seq<Beat>)
    requires IsDecay(E) && speed != 0.0 && Abs(speed) <= RATE_LIMIT && Abs(s.rate) <= RATE_LIMIT
    requires forall i :: 0 <= i < |beats| ==> Prompt(beats[i])
    ensures OnBeats(E, s, speed, beats).rate == Approach(speed, s.rate, E(Elapsed(beats)))
    decreases |beats|
  {
    if beats == [] {
    } else {
      var (b, rest) := (beats[0], beats[1..]);
      assert Prompt(b);
      ElapsedIsNotNegative(rest);
      if b.Moved? { SampleFollowsTheExponential(E, s, speed, b.gap); }
      var next := OnBeat(E, s, speed, b);
      PartitionInvariance(E, next, speed, rest);
      if b.Moved? {
        SampleThenMotion(E, s, speed, b.gap, Elapsed(rest));
      } else {
        assert next == s && 0.0 + Elapsed(rest) == Elapsed(beats);
      }
    }
  }

  lemma {:induction false} StillCursorHoldsTheRate(E: real -> real, s: Scratch, beats: seq<Beat>)
    requires forall i :: 0 <= i < |beats| ==> Prompt(beats[i])
    ensures OnBeats(E, s, 0.0, beats).rate == s.rate
    decreases |beats|
  {
    if beats == [] {
    } else {
      assert Prompt(beats[0]);
      StillCursorHoldsTheRate(E, OnBeat(E, s, 0.0, beats[0]), beats[1..]);
    }
  }

  lemma StillApproach(rate: real, w: real)
    requires w < 1.0
    ensures rate == Approach(0.0, rate, w) <==> rate == 0.0
  {
    if rate == Approach(0.0, rate, w) { ProductIsZero(rate, 1.0 - w); }
  }

  /** The speed must not be zero: samples that do not move leave the rate alone and keep the
      watchdog quiet, so a cursor reported still holds the last rate for as long as it is
      reported. The filter's formula survives only if the rate was zero already. */
  lemma StillCursorExactly(E: real -> real, s: Scratch, speed: real, beats: seq<Beat>)
    requires IsDecay(E) && Abs(speed) <= RATE_LIMIT && Abs(s.rate) <= RATE_LIMIT
    requires (forall i :: 0 <= i < |beats| ==> Prompt(beats[i])) && Elapsed(beats) > 0.0
    ensures OnBeats(E, s, speed, beats).rate == Approach(speed, s.rate, E(Elapsed(beats)))
       <==> speed != 0.0 || s.rate == 0.0
  {
    if speed != 0.0 {
      PartitionInvariance(E, s, speed, beats);
    } else {
      StillCursorHoldsTheRate(E, s, beats);
      StillApproach(s.rate, E(Elapsed(beats)));
    }
  }

  lemma ShortGapIsSlower(speed: real, gap: real, asked: real)
    requires speed != 0.0 && 0.0 < gap < MIN_GAP && asked * MIN_GAP == speed * gap
    ensures asked != speed && Abs(asked) <= Abs(speed)
  {
    var slack := MIN_GAP - gap;
    assert (speed - asked) * MIN_GAP == speed * slack;
    if speed > 0.0 {
      ProductIsPositive(speed, slack);
      ProductIsPositive(speed, gap);
    } else {
      ProductIsPositive(-speed, slack);
      ProductIsPositive(-speed, gap);
    }
  }

  lemma BlendsDiffer(w: real, x: real, y: real, z: real)
    requires x != y && w < 1.0
    ensures Blend(w, x, z) != Blend(w, y, z)
  {
    if Blend(w, x, z) == Blend(w, y, z) { ProductIsZero(1.0 - w, x - y); }
  }

  /** And the gap must reach the floor: a single sample lands on the exponential exactly when it
      came at least 1 ms after the last. A closer one lands short. */
  lemma ShortGapExactly(E: real -> real, s: Scratch, speed: real, gap: real)
    requires IsDecay(E) && speed != 0.0 && Abs(speed) <= RATE_LIMIT && Abs(s.rate) <= RATE_LIMIT
    requires 0.0 < gap
    ensures OnBeat(E, s, speed, Moved(gap)).rate == Approach(speed, s.rate, E(gap))
       <==> MIN_GAP <= gap
  {
    if MIN_GAP <= gap {
      SampleFollowsTheExponential(E, s, speed, gap);
    } else {
      SampleBlends(E, s, speed, gap);
      var asked := speed * gap / MIN_GAP;
      ShortGapIsSlower(speed, gap, asked);
      BlendInRange(E(gap), asked, s.rate);
      BlendApproaches(E(gap), speed, s.rate);
      BlendsDiffer(E(gap), asked, speed, s.rate);
    }
  }

  // ----- The watchdog's bound -----

  function RunDownFor(rate: real, ticks: nat): real {
    if ticks == 0 then rate else RunDown(RunDownFor(rate, ticks - 1))
  }

  function Power(b: real, n: nat): real {
    if n == 0 then 1.0 else b * Power(b, n - 1)
  }

  lemma {:induction false} PowerSum(b: real, m: nat, n: nat)
    ensures Power(b, m + n) == Power(b, m) * Power(b, n)
  {
    if m == 0 {
    } else {
      var (p, q) := (Power(b, m - 1), Power(b, n));
      calc {
        Power(b, m + n);
        b * Power(b, m - 1 + n);
        { PowerSum(b, m - 1, n); }
        b * (p * q);
        { Regroup(b, p, q); }
        (b * p) * q;
      }
    }
  }

  lemma EighteenTicks()
    ensures Power(STALL_DECAY, 18) == 0.001628413597910449
  {
    assert Power(STALL_DECAY, 2) == 0.49 by { assert Power(STALL_DECAY, 1) == 0.7; }
    PowerSum(STALL_DECAY, 2, 2);
    PowerSum(STALL_DECAY, 4, 4);
    PowerSum(STALL_DECAY, 8, 8);
    PowerSum(STALL_DECAY, 16, 2);
  }

  lemma PowerStep(x: real, n: nat)
    requires 0 < n
    ensures x * Power(STALL_DECAY, n) == (x * Power(STALL_DECAY, n - 1)) * STALL_DECAY
  {
    var p := Power(STALL_DECAY, n - 1);
    assert Power(STALL_DECAY, n) == p * STALL_DECAY;
    Regroup(x, p, STALL_DECAY);
  }

  lemma RunDownScales(rate: real, bound: real)
    requires Abs(rate) <= bound
    ensures Abs(RunDown(rate)) <= bound * STALL_DECAY
  {}

  lemma {:induction false} RunDownShrinks(rate: real, ticks: nat)
    ensures Abs(RunDownFor(rate, ticks)) <= Abs(rate) * Power(STALL_DECAY, ticks)
  {
    if ticks == 0 {
    } else {
      RunDownShrinks(rate, ticks - 1);
      RunDownScales(RunDownFor(rate, ticks - 1), Abs(rate) * Power(STALL_DECAY, ticks - 1));
      PowerStep(Abs(rate), ticks);
    }
  }

  /** From any rate in range, nineteen decays in a row bring the smoothed rate to exactly zero. */
  lemma NineteenTicksStop(rate: real, ticks: nat)
    requires Abs(rate) <= RATE_LIMIT && 19 <= ticks
    ensures RunDownFor(rate, ticks) == 0.0
    decreases ticks
  {
    if ticks == 19 {
      RunDownShrinks(rate, 18);
      EighteenTicks();
      assert Abs(rate) * Power(STALL_DECAY, 18) <= 8.0 * 0.001628413597910449;
    } else {
      NineteenTicksStop(rate, ticks - 1);
    }
  }

  lemma {:induction false} PowerAtMostOne(n: nat)
    ensures 0.0 < Power(STALL_DECAY, n) <= 1.0
  {
    if n == 0 {
    } else {
      PowerAtMostOne(n - 1);
    }
  }

  lemma {:induction false} FullSpeedRunsDownGeometrically(ticks: nat)
    requires ticks <= 18
    ensures RunDownFor(8.0, ticks) == 8.0 * Power(STALL_DECAY, ticks)
  {
    if ticks == 0 {
    } else {
      FullSpeedRunsDownGeometrically(ticks - 1);
      PowerSum(STALL_DECAY, ticks, 18 - ticks);
      EighteenTicks();
      PowerAtMostOne(18 - ticks);
      var p := Power(STALL_DECAY, ticks);
      assert p * Power(STALL_DECAY, 18 - ticks) <= p;
    }
  }

  /** Eighteen are not enough from full speed. */
  lemma EighteenTicksDoNotStop()
    ensures RunDownFor(RATE_LIMIT, 18) != 0.0
  {
    FullSpeedRunsDownGeometrically(18);
    PowerAtMostOne(18);
  }

  // ----- Whole runs -----

  /** A deck's transport as the app shows it. */
  datatype Transport = Transport(playing: bool, panic: bool)

  /** A gesture object: `id` is its identity, never used twice; the rest of it is what the press
      found. */
  datatype Gesture = Gesture(id: nat, s: Scratch, prior: bool, engagedPanic: bool)

  /** `deckRate` is the last rate each deck's engine took. */
  datatype Mixer = Mixer(
    timecode: bool, active: map<DeckSide, Gesture>, deckRate: PerDeck<real>,
    transport: PerDeck<Transport>, nextId: nat)

  const STILL: Transport := Transport(false, false)

  function Fresh(timecode: bool): Mixer {
    Mixer(timecode, map[], PerDeck(1.0, 1.0), PerDeck(STILL, STILL), 0)
  }

  /** Whether the engine takes each command of a press, a sample, a tick or a release. */
  datatype Replies = Replies(rate: bool, panic: bool, transport: bool)

  /** `admitted` says the engine runs and the deck holds a track. A tick carries the gesture it
      captured, and may run after that gesture ended. `Elsewhere` is any other control, or the
      poll, writing the deck's transport. */
  datatype Move =
    | Begin(side: DeckSide, now: real, admitted: bool, replies: Replies)
    | Cursor(side: DeckSide, now: real, offset: real, accepted: bool)
    | Tick(side: DeckSide, captured: nat, now: real, accepted: bool)
    | End(side: DeckSide, replies: Replies)
    | Elsewhere(side: DeckSide, transport: Transport)

  function SetRate(m: Mixer, side: DeckSide, rate: real, accepted: bool): Mixer {
    if accepted then m.(deckRate := Put(m.deckRate, side, rate)) else m
  }

  function SetTransport(m: Mixer, side: DeckSide, t: Transport): Mixer {
    m.(transport := Put(m.transport, side, t))
  }

  function Hold(m: Mixer, side: DeckSide, s: Scratch): Mixer
    requires side in m.active
  {
    m.(active := m.active[side := m.active[side].(s := s)])
  }

  /** Whether the press takes the deck off the platter, so that its own rate sticks. */
  predicate EngagesPanic(m: Mixer, side: DeckSide) {
    m.timecode && !m.transport.At(side).panic
  }

  function Pressed(m: Mixer, side: DeckSide, replies: Replies): Mixer {
    if EngagesPanic(m, side) && replies.panic then SetTransport(m, side, Transport(true, true)) else m
  }

  function OnBegin(m: Mixer, side: DeckSide, now: real, admitted: bool, replies: Replies): Mixer {
    var pressed := Pressed(m, side, replies);
    if side in m.active || !admitted then m
    else if !replies.rate then pressed
    else
      var (prior, t) := (m.transport.At(side).playing, pressed.transport.At(side));
      var started := if !t.playing && replies.transport then SetTransport(pressed, side, t.(playing := true))
                     else pressed;
      var g := Gesture(m.nextId, Scratch(0.0, now, 0.0), prior, EngagesPanic(m, side));
      SetRate(started.(active := started.active[side := g], nextId := m.nextId + 1), side, 0.0, true)
  }

  /** The transport after a release: playing on, off the platter in timecode mode, if the deck was
      playing at the press; paused otherwise. */
  function Resumed(timecode: bool, g: Gesture, t: Transport, replies: Replies): Transport {
    if g.prior then (if replies.transport then Transport(true, timecode) else t)
    else
      var t1 := if g.engagedPanic && replies.panic then t.(panic := false) else t;
      if replies.transport then STILL else t1
  }

  function OnCursor(E: real -> real, m: Mixer, side: DeckSide, now: real, offset: real, accepted: bool): Mixer {
    if side !in m.active then m
    else
      var s := m.active[side].s;
      var next := Pointer(E, s, now, offset);
      if now - s.lastAt <= 0.0 || offset - s.lastOffset == 0.0 then Hold(m, side, next)
      else SetRate(Hold(m, side, next), side, next.rate, accepted)
  }

  function OnTick(m: Mixer, side: DeckSide, captured: nat, now: real, accepted: bool): Mixer {
    if side !in m.active || m.active[side].id != captured then m
    else
      var s := m.active[side].s;
      if now - s.lastAt <= STALL_SECS || s.rate == 0.0 then m
      else SetRate(Hold(m, side, Watchdog(s, now)), side, RunDown(s.rate), accepted)
  }

  function OnEnd(m: Mixer, side: DeckSide, replies: Replies): Mixer {
    if side !in m.active then m
    else
      var ended := SetRate(m.(active := m.active - {side}), side, 1.0, replies.rate);
      SetTransport(ended, side, Resumed(m.timecode, m.active[side], m.transport.At(side), replies))
  }

  function Do(E: real -> real, m: Mixer, v: Move): Mixer {
    match v
    case Begin(side, now, admitted, replies) => OnBegin(m, side, now, admitted, replies)
    case Cursor(side, now, offset, accepted) => OnCursor(E, m, side, now, offset, accepted)
    case Tick(side, captured, now, accepted) => OnTick(m, side, captured, now, accepted)
    case End(side, replies) => OnEnd(m, side, replies)
    case Elsewhere(side, transport) => SetTransport(m, side, transport)
  }

  function DoAll(E: real -> real, m: Mixer, moves: seq<Move>): Mixer
    decreases |moves|
  {
    if moves == [] then m else DoAll(E, Do(E, m, moves[0]), moves[1..])
  }

  /** The deck's rate and its gesture's are in range, and ids are not reused. */
  predicate InRangeAt(m: Mixer, side: DeckSide) {
    && Abs(m.deckRate.At(side)) <= RATE_LIMIT
    && (side in m.active ==> Abs(m.active[side].s.rate) <= RATE_LIMIT && m.active[side].id < m.nextId)
  }

  predicate InRange(m: Mixer) {
    InRangeAt(m, A) && InRangeAt(m, B)
  }

  lemma RunDownInRange(rate: real)
    requires Abs(rate) <= RATE_LIMIT
    ensures Abs(RunDown(rate)) <= RATE_LIMIT
  {
  }

  lemma PointerInRange(E: real -> real, s: Scratch, now: real, offset: real)
    requires Abs(s.rate) <= RATE_LIMIT
    ensures Abs(Pointer(E, s, now, offset).rate) <= RATE_LIMIT
  {
    hide Smoothed;
  }

  lemma MoveKeepsRangeAt(E: real -> real, m: Mixer, v: Move, side: DeckSide)
    requires InRangeAt(m, side)
    ensures InRangeAt(Do(E, m, v), side)
  {
    hide Pointer, RunDown, Resumed;
    assert v.side == side || v.side == side.Other();
    if v.side == side && side in m.active {
      var s := m.active[side].s;
      RunDownInRange(s.rate);
      if v.Cursor? { PointerInRange(E, s, v.now, v.offset); }
    }
  }

  lemma MoveKeepsRange(E: real -> real, m: Mixer, v: Move)
    requires InRange(m)
    ensures InRange(Do(E, m, v))
  {
    hide Do, InRangeAt;
    MoveKeepsRangeAt(E, m, v, A);
    MoveKeepsRangeAt(E, m, v, B);
  }

  /** In every run of gestures, samples, ticks and releases, whatever the filter, no deck is ever
      told to spin past the limit. */
  lemma {:induction false} RatesStayInRange(E: real -> real, m: Mixer, moves: seq<Move>)
    requires InRange(m)
    ensures InRange(DoAll(E, m, moves))
    decreases |moves|
  {
    if moves == [] {
    } else {
      MoveKeepsRange(E, m, moves[0]);
      RatesStayInRange(E, Do(E, m, moves[0]), moves[1..]);
    }
  }

  lemma ReachableRatesAreInRange(E: real -> real, timecode: bool, moves: seq<Move>)
    ensures InRange(DoAll(E, Fresh(timecode), moves))
  {
    RatesStayInRange(E, Fresh(timecode), moves);
  }

  // ----- One move -----

  /** The press: what it finds it keeps; in timecode mode it takes the deck off the platter; and once the
      engine has the deck standing, the deck is set playing. It is over at the first refusal that
      matters, and a deck that is held, empty or stopped is left alone. */
  lemma PressExactly(E: real -> real, m: Mixer, side: DeckSide, now: real, admitted: bool, replies: Replies)
    ensures var (was, n) := (m.transport.At(side), Do(E, m, Begin(side, now, admitted, replies)));
            var offPlatter := m.timecode && !was.panic;
            if !admitted || side in m.active then n == m
            else
              && n.transport.At(side.Other()) == m.transport.At(side.Other())
              && n.deckRate.At(side.Other()) == m.deckRate.At(side.Other())
              && n.transport.At(side).panic == (was.panic || (offPlatter && replies.panic))
              && n.transport.At(side).playing
                 == (was.playing || (offPlatter && replies.panic) || (replies.rate && replies.transport))
              && (!replies.rate ==> n.active == m.active && n.deckRate == m.deckRate && n.nextId == m.nextId)
              && (replies.rate ==>
                    && n.deckRate.At(side) == 0.0 && n.nextId == m.nextId + 1
                    && n.active == m.active[side := Gesture(m.nextId, Scratch(0.0, now, 0.0), was.playing, offPlatter)])
  {
  }

  /** The release, both ways: a deck that was playing plays on, off the platter in timecode mode; any
      other gives back the panic it took and is paused. */
  lemma ReleaseExactly(E: real -> real, m: Mixer, side: DeckSide, replies: Replies)
    requires side in m.active
    ensures var (g, was, n) := (m.active[side], m.transport.At(side), Do(E, m, End(side, replies)));
            && n.active == m.active - {side}
            && n.transport.At(side.Other()) == m.transport.At(side.Other())
            && n.deckRate == (if replies.rate then Put(m.deckRate, side, 1.0) else m.deckRate)
            && (g.prior ==> n.transport.At(side)
                            == if replies.transport then Transport(true, m.timecode) else was)
            && (!g.prior && replies.transport ==> n.transport.At(side) == Transport(false, false))
            && (!g.prior && !replies.transport ==>
                  n.transport.At(side) == Transport(was.playing, was.panic && !(g.engagedPanic && replies.panic)))
  {
  }

  /** A sample is remembered whether it moved or not; only one that moved, and came later than the last,
      sends a rate. */
  lemma SampleExactly(E: real -> real, m: Mixer, side: DeckSide, now: real, offset: real, accepted: bool)
    requires side in m.active
    ensures var (s, n) := (m.active[side].s, Do(E, m, Cursor(side, now, offset, accepted)));
            && side in n.active && n.active[side].id == m.active[side].id
            && n.active[side].s.lastOffset == offset && n.active[side].s.lastAt == now
            && (now <= s.lastAt || offset == s.lastOffset ==>
                  n.active[side].s.rate == s.rate && n.deckRate == m.deckRate)
            && (now > s.lastAt && offset != s.lastOffset ==>
                  n.deckRate.At(side) == if accepted then n.active[side].s.rate else m.deckRate.At(side))
            && n.deckRate.At(side.Other()) == m.deckRate.At(side.Other()) && n.transport == m.transport
  {
    hide Smoothed;
  }

  /** A tick of a gesture still held takes three tenths off a stalled rate, or all of one that would come
      under a hundredth, and sends what is left; any other tick does nothing. */
  lemma TickExactly(E: real -> real, m: Mixer, side: DeckSide, captured: nat, now: real, accepted: bool)
    ensures var n := Do(E, m, Tick(side, captured, now, accepted));
            if side !in m.active || m.active[side].id != captured || now <= m.active[side].s.lastAt + STALL_SECS
               || m.active[side].s.rate == 0.0
            then n == m
            else
              var (rate, left) := (m.active[side].s.rate, m.active[side].s.rate * 0.7);
              && side in n.active && n.active[side].s.lastAt == m.active[side].s.lastAt
              && n.active[side].s.rate == (if -0.01 < left < 0.01 then 0.0 else left)
              && n.deckRate.At(side) == (if accepted then n.active[side].s.rate else m.deckRate.At(side))
              && n.deckRate.At(side.Other()) == m.deckRate.At(side.Other())
  {
  }

  // ----- The deck follows the gesture -----

  /** The deck turns at its gesture's smoothed rate. */
  predicate Follows(m: Mixer, side: DeckSide) {
    side in m.active && m.deckRate.At(side) == m.active[side].s.rate
  }

  /** Only samples and ticks, whose commands the engine takes, move the gesture of `side`. */
  predicate Heard(side: DeckSide, v: Move) {
    v.side == side ==>
      match v
      case Cursor(_, _, _, accepted) => accepted
      case Tick(_, _, _, accepted) => accepted
      case Elsewhere(_, _) => true
      case _ => false
  }

  lemma HeardMoveFollows(E: real -> real, m: Mixer, side: DeckSide, v: Move)
    requires Follows(m, side) && Heard(side, v)
    ensures Follows(Do(E, m, v), side) && Do(E, m, v).active[side].id == m.active[side].id
  {
    hide Smoothed, RunDown, Resumed;
    assert v.side == side || v.side == side.Other();
  }

  lemma {:induction false} HeardMovesFollow(E: real -> real, m: Mixer, side: DeckSide, moves: seq<Move>)
    requires Follows(m, side) && forall i :: 0 <= i < |moves| ==> Heard(side, moves[i])
    ensures Follows(DoAll(E, m, moves), side)
    decreases |moves|
  {
    if moves == [] {
    } else {
      hide Do, Follows, Heard;
      HeardMoveFollows(E, m, side, moves[0]);
      HeardMovesFollow(E, Do(E, m, moves[0]), side, moves[1..]);
    }
  }

  /** From a press the engine takes, the deck stands still, and then turns at the smoothed rate itself,
      forwards for a forward drag, through every run of samples and ticks the engine takes, whatever
      happens to the other deck. */
  lemma DeckFollowsTheGesture(E: real -> real, m: Mixer, side: DeckSide, now: real, replies: Replies,
                              moves: seq<Move>)
    requires side !in m.active && replies.rate && forall i :: 0 <= i < |moves| ==> Heard(side, moves[i])
    ensures var pressed := Do(E, m, Begin(side, now, true, replies));
            && side in pressed.active && pressed.deckRate.At(side) == 0.0
            && pressed.active[side].s == Scratch(0.0, now, 0.0)
            && Follows(DoAll(E, pressed, moves), side)
  {
    HeardMovesFollow(E, Do(E, m, Begin(side, now, true, replies)), side, moves);
  }

  /** The moves of a cursor at one speed, and of the ticks between its samples. */
  function Drag(E: real -> real, side: DeckSide, id: nat, s: Scratch, speed: real, beats: seq<Beat>): seq<Move>
    decreases |beats|
  {
    if beats == [] then []
    else
      var b := beats[0];
      var v := match b
               case Moved(gap) => Cursor(side, s.lastAt + gap, s.lastOffset + speed * gap, true)
               case Ticked(after) => Tick(side, id, s.lastAt + after, true);
      [v] + Drag(E, side, id, OnBeat(E, s, speed, b), speed, beats[1..])
  }

  lemma DragIsBeats(E: real -> real, m: Mixer, side: DeckSide, speed: real, b: Beat)
    requires Follows(m, side)
    ensures var (g, v) := (m.active[side], Drag(E, side, m.active[side].id, m.active[side].s, speed, [b])[0]);
            && Follows(Do(E, m, v), side)
            && Do(E, m, v).active[side] == g.(s := OnBeat(E, g.s, speed, b))
  {
    hide Smoothed;
  }

  lemma {:induction false} DragTurnsTheDeck(E: real -> real, m: Mixer, side: DeckSide, speed: real,
                                            beats: seq<Beat>)
    requires Follows(m, side)
    ensures var g := m.active[side];
            var n := DoAll(E, m, Drag(E, side, g.id, g.s, speed, beats));
            Follows(n, side) && n.active[side].s == OnBeats(E, g.s, speed, beats)
    decreases |beats|
  {
    if beats == [] {
    } else {
      var g := m.active[side];
      var drag := Drag(E, side, g.id, g.s, speed, beats);
      assert Drag(E, side, g.id, g.s, speed, [beats[0]])[0] == drag[0];
      DragIsBeats(E, m, side, speed, beats[0]);
      assert drag[1..] == Drag(E, side, g.id, OnBeat(E, g.s, speed, beats[0]), speed, beats[1..]);
      hide Do, OnBeat, Follows;
      DragTurnsTheDeck(E, Do(E, m, drag[0]), side, speed, beats[1..]);
    }
  }

  /** So a steady drag turns the deck as the continuous filter would, however many samples carry it:
      from rest towards the cursor's own speed. */
  lemma SteadyDragTurnsTheDeck(E: real -> real, m: Mixer, side: DeckSide, now: real, replies: Replies,
                               speed: real, beats: seq<Beat>)
    requires side !in m.active && replies.rate
    requires IsDecay(E) && speed != 0.0 && Abs(speed) <= RATE_LIMIT
    requires forall i :: 0 <= i < |beats| ==> Prompt(beats[i])
    ensures var pressed := Do(E, m, Begin(side, now, true, replies));
            var g := pressed.active[side];
            DoAll(E, pressed, Drag(E, side, g.id, g.s, speed, beats)).deckRate.At(side)
            == speed - speed * E(Elapsed(beats))
  {
    var pressed := Do(E, m, Begin(side, now, true, replies));
    var g := pressed.active[side];
    assert Follows(pressed, side) && g.s.rate == 0.0;
    hide Do;
    DragTurnsTheDeck(E, pressed, side, speed, beats);
    PartitionInvariance(E, g.s, speed, beats);
    assert Approach(speed, 0.0, E(Elapsed(beats))) == speed - speed * E(Elapsed(beats));
  }

  // ----- The watchdog on a deck -----

  /** Nothing but stalled ticks of gesture `g` touches `side`. */
  predicate OnlyStalls(g: Gesture, side: DeckSide, moves: seq<Move>) {
    forall i :: 0 <= i < |moves| && moves[i].side == side ==>
      moves[i].Tick? && moves[i].captured == g.id && moves[i].now - g.s.lastAt > STALL_SECS
  }

  function Stalls(side: DeckSide, moves: seq<Move>): nat {
    if moves == [] then 0
    else (if moves[0].side == side then 1 else 0) + Stalls(side, moves[1..])
  }

  lemma {:induction false} RunDownFirst(rate: real, ticks: nat)
    ensures RunDownFor(RunDown(rate), ticks) == RunDownFor(rate, ticks + 1)
  {
    if ticks == 0 {
      assert RunDownFor(rate, 1) == RunDown(RunDownFor(rate, 0));
    } else {
      RunDownFirst(rate, ticks - 1);
    }
  }

  /** One move of such a stretch: another deck's, or a tick that decays the rate and tells the
      engine, unless the rate is zero already. */
  lemma StallStep(E: real -> real, m: Mixer, side: DeckSide, v: Move)
    requires side in m.active && OnlyStalls(m.active[side], side, [v])
    ensures var (n, g) := (Do(E, m, v), m.active[side]);
            && side in n.active
            && n.active[side] == (if v.side == side then g.(s := g.s.(rate := RunDown(g.s.rate))) else g)
            && n.deckRate.At(side) == (if v.side == side && g.s.rate != 0.0 && v.accepted
                                       then RunDown(g.s.rate) else m.deckRate.At(side))
  {
    assert v == [v][0] && (v.side == side || v.side == side.Other());
  }

  /** Stalled ticks run the gesture's rate down, whatever the other deck does and whatever the engine
      answers; from any rate in range the nineteenth has brought it to zero. */
  lemma {:induction false} StalledTicksRunDown(E: real -> real, m: Mixer, side: DeckSide, moves: seq<Move>)
    requires side in m.active && OnlyStalls(m.active[side], side, moves)
    ensures var (n, g) := (DoAll(E, m, moves), m.active[side]);
            && side in n.active
            && n.active[side] == g.(s := g.s.(rate := RunDownFor(g.s.rate, Stalls(side, moves))))
            && (Abs(g.s.rate) <= RATE_LIMIT && Stalls(side, moves) >= 19 ==> n.active[side].s.rate == 0.0)
    decreases |moves|
  {
    var rate := m.active[side].s.rate;
    if moves == [] {
      assert RunDownFor(rate, 0) == rate;
    } else {
      var v := moves[0];
      assert OnlyStalls(m.active[side], side, [v]) by { assert [v][0] == v; }
      StallStep(E, m, side, v);
      StalledTicksRunDown(E, Do(E, m, v), side, moves[1..]);
      RunDownFirst(rate, Stalls(side, moves[1..]));
    }
    if Abs(rate) <= RATE_LIMIT && Stalls(side, moves) >= 19 { NineteenTicksStop(rate, Stalls(side, moves)); }
  }

  /** A gesture at zero is left alone: no later tick sends anything. */
  lemma {:induction false} ZeroIsSentOnce(E: real -> real, m: Mixer, side: DeckSide, moves: seq<Move>)
    requires side in m.active && m.active[side].s.rate == 0.0 && OnlyStalls(m.active[side], side, moves)
    ensures DoAll(E, m, moves).deckRate.At(side) == m.deckRate.At(side)
    decreases |moves|
  {
    if moves == [] {
    } else {
      var v := moves[0];
      assert OnlyStalls(m.active[side], side, [v]) by { assert [v][0] == v; }
      StallStep(E, m, side, v);
      ZeroIsSentOnce(E, Do(E, m, v), side, moves[1..]);
    }
  }

  lemma {:induction false} DeckStopsAt(E: real -> real, m: Mixer, side: DeckSide, moves: seq<Move>)
    returns (k: nat)
    requires side in m.active && OnlyStalls(m.active[side], side, moves)
    requires m.active[side].s.rate != 0.0
    requires side in DoAll(E, m, moves).active && DoAll(E, m, moves).active[side].s.rate == 0.0
    ensures k < |moves| && moves[k].Tick? && moves[k].side == side
    ensures var (before, n) := (DoAll(E, m, moves[..k]), DoAll(E, m, moves));
            && side in before.active && before.active[side].s.rate != 0.0
            && n.deckRate.At(side) == (if moves[k].accepted then 0.0 else before.deckRate.At(side))
            && (m.deckRate.At(side) != 0.0 ==> before.deckRate.At(side) != 0.0)
    decreases |moves|
  {
    var v := moves[0];
    assert OnlyStalls(m.active[side], side, [v]) by { assert [v][0] == v; }
    StallStep(E, m, side, v);
    var next := Do(E, m, v);
    if next.active[side].s.rate == 0.0 {
      k := 0;
      assert moves[..0] == [];
      ZeroIsSentOnce(E, next, side, moves[1..]);
    } else {
      k := DeckStopsAt(E, next, side, moves[1..]);
      k := k + 1;
      assert moves[..k][1..] == moves[1..][..k - 1];
    }
  }

  /** The gesture reaches zero at one tick, `k`, and that tick is the only one that sends zero. If
      the engine refused it, the deck keeps the rate it had, through every later tick: a moving deck
      is stopped if and only if that one command was taken. */
  lemma {:induction false} DeckStopsExactly(E: real -> real, m: Mixer, side: DeckSide, moves: seq<Move>)
    returns (k: nat)
    requires side in m.active && OnlyStalls(m.active[side], side, moves)
    requires Abs(m.active[side].s.rate) <= RATE_LIMIT && m.active[side].s.rate != 0.0
    requires Stalls(side, moves) >= 19
    ensures k < |moves| && moves[k].Tick? && moves[k].side == side
    ensures var (before, n) := (DoAll(E, m, moves[..k]), DoAll(E, m, moves));
            && side in before.active && before.active[side].s.rate != 0.0
            && n.deckRate.At(side) == (if moves[k].accepted then 0.0 else before.deckRate.At(side))
            && (m.deckRate.At(side) != 0.0 ==> (n.deckRate.At(side) == 0.0 <==> moves[k].accepted))
  {
    StalledTicksRunDown(E, m, side, moves);
    k := DeckStopsAt(E, m, side, moves);
  }

  // ----- Ticks that outlive their gesture -----

  /** The gesture is over: its id has been used, and no deck is held by it. */
  predicate Retired(m: Mixer, side: DeckSide, id: nat) {
    id < m.nextId && (side in m.active ==> m.active[side].id != id)
  }

  lemma RetiredStays(E: real -> real, m: Mixer, side: DeckSide, id: nat, v: Move)
    requires Retired(m, side, id)
    ensures Retired(Do(E, m, v), side, id)
  {
    hide Pointer, RunDown, Resumed;
    assert v.side == side || v.side == side.Other();
  }

  /** Once a gesture has ended, a tick that captured it changes nothing, in every later state:
      not even after a new gesture has taken the same deck. */
  lemma {:induction false} StaleTicksDoNothing(E: real -> real, m: Mixer, side: DeckSide, id: nat,
                                               moves: seq<Move>, now: real, accepted: bool)
    requires Retired(m, side, id)
    ensures var n := DoAll(E, m, moves);
            Retired(n, side, id) && Do(E, n, Tick(side, id, now, accepted)) == n
    decreases |moves|
  {
    if moves == [] {
    } else {
      hide Do;
      RetiredStays(E, m, side, id, moves[0]);
      StaleTicksDoNothing(E, Do(E, m, moves[0]), side, id, moves[1..], now, accepted);
    }
  }

  predicate NoneBegins(side: DeckSide, moves: seq<Move>) {
    forall i :: 0 <= i < |moves| ==> !(moves[i].Begin? && moves[i].side == side)
  }

  lemma {:induction false} IdleDeckKeepsItsRate(E: real -> real, m: Mixer, side: DeckSide, moves: seq<Move>)
    requires side !in m.active && NoneBegins(side, moves)
    ensures var n := DoAll(E, m, moves);
            side !in n.active && n.deckRate.At(side) == m.deckRate.At(side)
    decreases |moves|
  {
    if moves == [] {
    } else {
      var v := moves[0];
      assert v.side == side || v.side == side.Other();
      IdleDeckKeepsItsRate(E, Do(E, m, v), side, moves[1..]);
    }
  }

  /** Ending a gesture retires it, whatever the engine answers. The deck is at unity, and stays there
      until a new gesture begins on it, exactly when the engine takes the rate, or had unity
      already. */
  lemma EndRestoresUnityExactly(E: real -> real, m: Mixer, side: DeckSide, replies: Replies, moves: seq<Move>)
    requires InRange(m) && side in m.active && NoneBegins(side, moves)
    ensures var ended := Do(E, m, End(side, replies));
            var n := DoAll(E, ended, moves);
            && Retired(ended, side, m.active[side].id) && side !in n.active
            && (n.deckRate.At(side) == 1.0 <==> replies.rate || m.deckRate.At(side) == 1.0)
  {
    IdleDeckKeepsItsRate(E, Do(E, m, End(side, replies)), side, moves);
  }

  // ----- The transport around a gesture -----

  predicate AllTaken(r: Replies) {
    r.rate && r.panic && r.transport
  }

  /** The press's record of `side` and the deck's transport are as they were. */
  predicate Remembers(m: Mixer, n: Mixer, side: DeckSide) {
    && n.timecode == m.timecode && side in m.active && side in n.active
    && n.active[side].prior == m.active[side].prior
    && n.active[side].engagedPanic == m.active[side].engagedPanic
    && n.transport.At(side) == m.transport.At(side)
  }

  predicate LeavesTransport(side: DeckSide, v: Move) {
    v.side == side ==> v.Cursor? || v.Tick?
  }

  lemma MoveRemembers(E: real -> real, m: Mixer, side: DeckSide, v: Move)
    requires side in m.active && LeavesTransport(side, v)
    ensures Remembers(m, Do(E, m, v), side)
  {
    hide Pointer, Watchdog, RunDown;
    assert v.side == side || v.side == side.Other();
  }

  lemma {:induction false} GestureRemembers(E: real -> real, m: Mixer, side: DeckSide, moves: seq<Move>)
    requires side in m.active && forall i :: 0 <= i < |moves| ==> LeavesTransport(side, moves[i])
    ensures Remembers(m, DoAll(E, m, moves), side)
    decreases |moves|
  {
    if moves == [] {
    } else {
      hide Do;
      MoveRemembers(E, m, side, moves[0]);
      GestureRemembers(E, Do(E, m, moves[0]), side, moves[1..]);
    }
  }

  /** Press, any samples and ticks, release, every command taken: the deck plays or pauses as it did
      before. The documentation adds that a panic the gesture engaged is cancelled; the transport is
      wholly as it was exactly when panic was on for a deck playing in timecode mode, and off for any
      other. In particular a deck that played from the platter is left in panic. */
  lemma GestureRestoresTransportExactly(E: real -> real, m: Mixer, side: DeckSide, now: real,
                                        moves: seq<Move>, begin: Replies, end: Replies)
    requires side !in m.active && AllTaken(begin) && AllTaken(end)
    requires forall i :: 0 <= i < |moves| ==> LeavesTransport(side, moves[i])
    ensures var (was, n) := (m.transport.At(side),
                             DoAll(E, Do(E, m, Begin(side, now, true, begin)), moves));
            var after := Do(E, n, End(side, end)).transport.At(side);
            && after.playing == was.playing
            && (after == was <==> was.panic == (m.timecode && was.playing))
  {
    GestureRemembers(E, Do(E, m, Begin(side, now, true, begin)), side, moves);
  }

  /** A press the engine refuses after taking the panic leaves the deck playing in panic, with no
      gesture to release. */
  lemma RefusedPressLeavesPanic(E: real -> real, m: Mixer, side: DeckSide, now: real, replies: Replies)
    requires side !in m.active && EngagesPanic(m, side) && replies.panic && !replies.rate
    ensures var n := Do(E, m, Begin(side, now, true, replies));
            side !in n.active && n.transport.At(side) == Transport(true, true)
  {
  }

  // ----- The objects -----

  class ScratchState {
    const side: DeckSide
    const priorIsPlaying: bool
    const engagedPanic: bool
    ghost const id: nat
    var lastEventOffsetSecs: real
    var lastEventAt: real
    var smoothedRate: real

    constructor (side: DeckSide, priorIsPlaying: bool, engagedPanic: bool, startedAt: real, ghost id: nat)
      ensures this.side == side && this.id == id
      ensures Value() == Gesture(id, Scratch(0.0, startedAt, 0.0), priorIsPlaying, engagedPanic)
    {
      this.side, this.priorIsPlaying, this.engagedPanic, this.id := side, priorIsPlaying, engagedPanic, id;
      lastEventOffsetSecs, lastEventAt, smoothedRate := 0.0, startedAt, 0.0;
    }

    ghost function Value(): Gesture
      reads this
    {
      Gesture(id, Scratch(lastEventOffsetSecs, lastEventAt, smoothedRate), priorIsPlaying, engagedPanic)
    }

    /** Take one cursor sample; `moved` says a rate came of it. */
    method Sample(E: real -> real, now: real, offsetSecs: real) returns (moved: bool)
      modifies this
      ensures Value() == old(Value()).(s := Pointer(E, old(Value()).s, now, offsetSecs))
      ensures moved <==> now - old(lastEventAt) > 0.0 && offsetSecs - old(lastEventOffsetSecs) != 0.0
    {
      var dt := now - lastEventAt;
      var delta := offsetSecs - lastEventOffsetSecs;
      lastEventOffsetSecs := offsetSecs;
      lastEventAt := now;
      if dt <= 0.0 || delta == 0.0 { return false; }
      ghost var rate := smoothedRate;
      var effectiveDt := if dt < MIN_GAP then MIN_GAP else dt;
      var instantRate := delta / effectiveDt;
      var alpha := 1.0 - E(dt);
      var smoothed := alpha * instantRate + (1.0 - alpha) * smoothedRate;
      assert smoothed == Smoothed(E, rate, dt, delta);
      smoothedRate := Limited(smoothed);
      return true;
    }
  }

  /** The app model's gesture dictionary, its decks' transport and the last rate each deck's engine
      took. `issued` is every gesture object there has been, in order; a gesture's id is its place. */
  class ScratchModel {
    const timecode: bool
    var scratchStates: map<DeckSide, ScratchState>
    var deckRate: PerDeck<real>
    var transport: PerDeck<Transport>
    ghost var active: map<DeckSide, Gesture>
    ghost var issued: seq<ScratchState>

    ghost predicate Issued(state: ScratchState)
      reads this`issued
    {
      state.id < |issued| && issued[state.id] == state
    }

    ghost predicate Held(side: DeckSide)
      reads this`active, this`scratchStates, this`issued, if side in scratchStates then {scratchStates[side]} else {}
    {
      && (side in active <==> side in scratchStates)
      && (side in scratchStates ==>
            && Issued(scratchStates[side]) && scratchStates[side].side == side
            && active[side] == scratchStates[side].Value())
    }

    ghost predicate Valid()
      reads this`active, this`scratchStates, this`issued, scratchStates.Values
    {
      Held(A) && Held(B)
    }

    ghost function State(): Mixer
      reads this
    {
      Mixer(timecode, active, deckRate, transport, |issued|)
    }

    constructor (timecode: bool)
      ensures Valid() && State() == Fresh(timecode)
    {
      this.timecode := timecode;
      scratchStates, deckRate := map[], PerDeck(1.0, 1.0);
      transport := PerDeck(STILL, STILL);
      active, issued := map[], [];
    }

    /** Take the deck off the platter, in timecode mode, so that its own rate sticks. */
    method Decouple(side: DeckSide, replies: Replies) returns (engagedPanic: bool)
      modifies this`transport
      ensures State() == Pressed(old(State()), side, replies) && engagedPanic == EngagesPanic(old(State()), side)
    {
      engagedPanic := timecode && !transport.At(side).panic;
      if engagedPanic && replies.panic { transport := Put(transport, side, Transport(true, true)); }
    }

    method SetDeckRate(side: DeckSide, rate: real, accepted: bool)
      modifies this`deckRate
      ensures State() == SetRate(old(State()), side, rate, accepted)
    {
      if accepted { deckRate := Put(deckRate, side, rate); }
    }

    method Play(side: DeckSide, accepted: bool)
      modifies this`transport
      ensures transport == if accepted then Put(old(transport), side, old(transport).At(side).(playing := true))
                           else old(transport)
    {
      if accepted { transport := Put(transport, side, transport.At(side).(playing := true)); }
    }

    /** A new gesture object takes the side. */
    method Keep(side: DeckSide, state: ScratchState)
      requires Valid() && side !in scratchStates && state.id == |issued| && state.side == side
      modifies this`scratchStates, this`active, this`issued
      ensures Valid() && issued == old(issued) + [state] && active == old(active)[side := state.Value()]
    {
      scratchStates := scratchStates[side := state];
      active, issued := active[side := state.Value()], issued + [state];
      assert Held(side) && Held(side.Other());
    }

    method ScratchBegin(side: DeckSide, now: real, admitted: bool, replies: Replies)
      requires Valid()
      modifies this
      ensures Valid() && State() == OnBegin(old(State()), side, now, admitted, replies)
      ensures old(issued) <= issued
    {
      hide Put;
      if !admitted || side in scratchStates { return; }
      var prior := transport.At(side).playing;
      var engagedPanic := Decouple(side, replies);
      hide Pressed, EngagesPanic;
      if !replies.rate { return; }
      deckRate := Put(deckRate, side, 0.0);
      if !transport.At(side).playing {
        Play(side, replies.transport);
      }
      var state := new ScratchState(side, prior, engagedPanic, now, |issued|);
      Keep(side, state);
    }

    /** The gesture takes the sample, and `active` with it. */
    method Sampled(E: real -> real, side: DeckSide, now: real, offsetSecs: real)
      returns (moved: bool, rate: real)
      requires Valid() && side in scratchStates
      modifies this`active, scratchStates[side]
      ensures Valid()
      ensures var s := old(State()).active[side].s;
              && State() == Hold(old(State()), side, Pointer(E, s, now, offsetSecs))
              && (moved <==> now - s.lastAt > 0.0 && offsetSecs - s.lastOffset != 0.0)
              && rate == Pointer(E, s, now, offsetSecs).rate
    {
      var state := scratchStates[side];
      assert side.Other() in scratchStates ==> scratchStates[side.Other()] != state;
      hide Pointer;
      moved := state.Sample(E, now, offsetSecs);
      active := active[side := state.Value()];
      rate := state.smoothedRate;
    }

    method ScratchPointerOffset(E: real -> real, side: DeckSide, now: real, offsetSecs: real, accepted: bool)
      requires Valid()
      modifies this`deckRate, this`active, if side in scratchStates then {scratchStates[side]} else {}
      ensures Valid() && State() == OnCursor(E, old(State()), side, now, offsetSecs, accepted)
    {
      if side !in scratchStates { return; }
      assert side in active;
      hide Pointer, Hold, SetRate;
      var moved, rate := Sampled(E, side, now, offsetSecs);
      if moved { SetDeckRate(side, rate, accepted); }
    }

    /** One side's turn of the watchdog, for the gesture it captured. */
    method ScratchTick(side: DeckSide, captured: ScratchState, now: real, accepted: bool)
      requires Valid() && Issued(captured)
      modifies this`deckRate, this`active, captured
      ensures Valid() && State() == OnTick(old(State()), side, captured.id, now, accepted)
    {
      if now - captured.lastEventAt <= STALL_SECS { return; }
      if captured.smoothedRate == 0.0 { return; }
      var next := captured.smoothedRate * STALL_DECAY;
      if Abs(next) < STALL_FLOOR { next := 0.0; }
      if side !in scratchStates || scratchStates[side] != captured { return; }
      captured.smoothedRate := next;
      active := active[side := captured.Value()];
      SetDeckRate(side, next, accepted);
      assert side.Other() in scratchStates ==> scratchStates[side.Other()] != captured;
    }

    method Resume(side: DeckSide, ended: ScratchState, replies: Replies)
      modifies this`transport
      ensures State() == SetTransport(old(State()), side,
                                      Resumed(timecode, old(ended.Value()), old(transport).At(side), replies))
    {
      var t := transport.At(side);
      if ended.priorIsPlaying {
        if replies.transport { t := Transport(true, timecode); }
      } else {
        if ended.engagedPanic && replies.panic { t := t.(panic := false); }
        if replies.transport { t := STILL; }
      }
      transport := Put(transport, side, t);
    }

    method ScratchEnd(side: DeckSide, replies: Replies)
      requires Valid()
      modifies this
      ensures Valid() && State() == OnEnd(old(State()), side, replies) && issued == old(issued)
    {
      if side !in scratchStates { return; }
      var ended := scratchStates[side];
      assert ended.Value() == active[side];
      hide Resumed, Put;
      scratchStates, active := scratchStates - {side}, active - {side};
      SetDeckRate(side, 1.0, replies.rate);
      Resume(side, ended, replies);
    }
  }
}
