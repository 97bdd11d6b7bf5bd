/**
 The echo-out delay line (crates/dub-dsp/src/echo.rs): one write head over a ring, a beat of
 capture, then a filtered feedback loop with the dry signal muted. Samples and gains are reals.
 */
module EchoLine {
  import opened Prelude
  import opened Reals

  const MAX_FEEDBACK: real := 0.95
  const DENORMAL_FLOOR: real := 0.00000000000000000001
  const INPUT_SILENCE_FLOOR: real := 0.003
  const WET_SILENCE_FLOOR: real := 0.0001

  /** One stereo sample pair of the deck's output bus. */
  datatype Frame = Frame(l: real, r: real)

  const SILENCE := Frame(0.0, 0.0)

  datatype Phase = Idle | Capturing | Engaged

  datatype Echo = Echo(
    ring: seq<Frame>, write: nat, delay: nat, feedback: real, lpCoeff: real, lp: Frame,
    phase: Phase, wetGain: real, dryGain: real, wetTarget: real, rampInc: real,
    quiet: nat, ready: nat, captureLeft: nat)

  /** The louder channel's magnitude is at most `m`. */
  predicate Within(f: Frame, m: real) {
    Abs(f.l) <= m && Abs(f.r) <= m
  }

  function Flush(x: real): real {
    if Abs(x) < DENORMAL_FLOOR then 0.0 else x
  }

  function FlushFrame(f: Frame): Frame {
    Frame(Flush(f.l), Flush(f.r))
  }

  function Toward(from: real, to: real, c: real): real {
    from + c * (to - from)
  }

  function LowPass(lp: Frame, f: Frame, c: real): Frame {
    Frame(Toward(lp.l, f.l, c), Toward(lp.r, f.r, c))
  }

  function Scale(f: Frame, gain: real): Frame {
    Frame(f.l * gain, f.r * gain)
  }

  function Blend(dry: real, dryGain: real, wet: real, wetGain: real): real {
    dry * dryGain + wet * wetGain
  }

  function Mix(dry: Frame, dryGain: real, wet: Frame, wetGain: real): Frame {
    Frame(Blend(dry.l, dryGain, wet.l, wetGain), Blend(dry.r, dryGain, wet.r, wetGain))
  }

  function Ramp(current: real, target: real, step: real): real {
    if current < target then (if current + step < target then current + step else target)
    else if current > target then (if current - step > target then current - step else target)
    else current
  }

  /** The counters' largest value, where they stay. */
  const MOST_FRAMES: nat := 0xFFFF_FFFF_FFFF_FFFF

  function OneMore(quiet: nat): nat {
    if quiet < MOST_FRAMES then quiet + 1 else quiet
  }

  /** An index below twice the ring's power-of-two size, under the ring's bit mask. */
  function Masked(i: nat, n: nat): nat
    requires i < 2 * n
  {
    if i < n then i else i - n
  }

  /** What every reachable echo satisfies. The last two lines say the dry and wet gains always
      cross-fade: together they make one, and they head for the side the phase asks for. */
  predicate Valid(e: Echo) {
    && e.write < |e.ring| && 1 <= e.delay <= |e.ring| && 1 <= e.ready <= MOST_FRAMES
    && 0.0 <= e.feedback <= MAX_FEEDBACK && 0.0 <= e.lpCoeff <= 1.0 && 0.0 < e.rampInc <= 1.0
    && (e.phase.Capturing? ==> 1 <= e.captureLeft <= e.delay)
    && 0.0 <= e.wetGain <= 1.0 && e.dryGain == 1.0 - e.wetGain
    && e.wetTarget == (if e.phase.Engaged? then 1.0 else 0.0)
  }

  // ---- the commands ----

  /** From off, a press starts the capture; over an echo it only swaps the length. */
  function Pressed(e: Echo, delayFrames: nat, feedback: real, lpCoeff: real): (pressed: Echo)
    requires Valid(e)
    ensures Valid(pressed)
  {
    var e' := e.(delay := ClampIndex(delayFrames, 1, |e.ring|), feedback := Clamp(feedback, 0.0, MAX_FEEDBACK),
                 lpCoeff := Clamp(lpCoeff, 0.0, 1.0), quiet := 0);
    if e.phase.Engaged? then e'
    else e'.(lp := SILENCE, phase := Capturing, captureLeft := e'.delay)
  }

  function Released(e: Echo): (released: Echo)
    requires Valid(e)
    ensures Valid(released)
  {
    e.(phase := Idle, wetTarget := 0.0)
  }

  /** The telemetry byte: 2 asks the model to turn the echo off. */
  function StateCode(e: Echo): nat {
    match e.phase
    case Idle => 0
    case Capturing => 1
    case Engaged => if e.quiet >= e.ready then 2 else 1
  }

  // ---- one frame ----

  /** The wet sample: the line's content one echo length ago. */
  function Heard(e: Echo): Frame
    requires Valid(e)
  {
    e.ring[Masked(e.write + |e.ring| - e.delay, |e.ring|)]
  }

  function Filtered(e: Echo): Frame
    requires Valid(e)
  {
    LowPass(e.lp, Heard(e), e.lpCoeff)
  }

  function Written(e: Echo, input: Frame): Frame
    requires Valid(e)
  {
    if e.phase.Engaged? then FlushFrame(Scale(Filtered(e), e.feedback)) else input
  }

  predicate IsQuiet(e: Echo, input: Frame)
    requires Valid(e)
  {
    Within(input, INPUT_SILENCE_FLOOR) && Within(Heard(e), WET_SILENCE_FLOOR)
  }

  function Advance(e: Echo, input: Frame): Echo
    requires Valid(e)
  {
    var e' := e.(ring := e.ring[e.write := Written(e, input)], write := Masked(e.write + 1, |e.ring|),
                 wetGain := Ramp(e.wetGain, e.wetTarget, e.rampInc),
                 dryGain := Ramp(e.dryGain, if e.phase.Engaged? then 0.0 else 1.0, e.rampInc));
    match e.phase
    case Idle => e'
    case Capturing =>
      if e.captureLeft == 1 then e'.(captureLeft := 0, phase := Engaged, wetTarget := 1.0)
      else e'.(captureLeft := e.captureLeft - 1)
    case Engaged =>
      e'.(lp := FlushFrame(Filtered(e)), quiet := if IsQuiet(e, input) then OneMore(e.quiet) else 0)
  }

  /** The frame the bus carries on: the gains are the ones this frame ramped to. */
  function Played(e: Echo, input: Frame): Frame
    requires Valid(e)
  {
    var e' := Advance(e, input);
    Mix(input, e'.dryGain, Heard(e), e'.wetGain)
  }

  lemma StepKeepsValid(e: Echo, input: Frame)
    requires Valid(e)
    ensures Valid(Advance(e, input))
  {
  }

  /** A point part of the way from one value to another is as loud as their magnitudes allow. */
  lemma PartWay(a: real, b: real, c: real, ma: real, mb: real)
    requires Abs(a) <= ma && Abs(b) <= mb && 0.0 <= c <= 1.0
    ensures Abs(Toward(a, b, c)) <= Toward(ma, mb, c)
  {
    ProductNotNegative(1.0 - c, ma - a);
    ProductNotNegative(c, mb - b);
    ProductNotNegative(1.0 - c, ma + a);
    ProductNotNegative(c, mb + b);
    assert (1.0 - c) * (ma - a) + c * (mb - b) == Toward(ma, mb, c) - Toward(a, b, c);
    assert (1.0 - c) * (ma + a) + c * (mb + b) == Toward(ma, mb, c) + Toward(a, b, c);
  }

  lemma Between(a: real, b: real, c: real, m: real)
    requires Abs(a) <= m && Abs(b) <= m && 0.0 <= c <= 1.0
    ensures Abs(Toward(a, b, c)) <= m
  {
    PartWay(a, b, c, m, m);
  }

  lemma CrossFade(x: real, dry: real, y: real, wet: real, m: real)
    requires Abs(x) <= m && Abs(y) <= m && 0.0 <= wet <= 1.0 && dry == 1.0 - wet
    ensures Abs(Blend(x, dry, y, wet)) <= m
  {
    Between(x, y, wet, m);
    assert x * dry == x * (1.0 - wet);
    assert x * (1.0 - wet) + y * wet == Toward(x, y, wet);
  }

  lemma MixIsBetween(input: Frame, dry: real, heard: Frame, wet: real, m: real)
    requires Within(input, m) && Within(heard, m) && 0.0 <= wet <= 1.0 && dry == 1.0 - wet
    ensures Within(Mix(input, dry, heard, wet), m)
  {
    CrossFade(input.l, dry, heard.l, wet, m);
    CrossFade(input.r, dry, heard.r, wet, m);
  }

  /** The bus never gets louder than the louder of what came in and what the line plays. */
  lemma OutputIsACrossFade(e: Echo, input: Frame, m: real)
    requires Valid(e) && Within(input, m) && Within(Heard(e), m)
    ensures Within(Played(e, input), m)
  {
    StepKeepsValid(e, input);
    var e' := Advance(e, input);
    MixIsBetween(input, e'.dryGain, Heard(e), e'.wetGain, m);
  }

  // ---- runs between commands ----

  function Run(e: Echo, inputs: seq<Frame>): (e': Echo)
    requires Valid(e)
    ensures Valid(e')
    decreases |inputs|
  {
    if inputs == [] then e
    else
      var before := Run(e, inputs[..|inputs| - 1]);
      StepKeepsValid(before, inputs[|inputs| - 1]);
      Advance(before, inputs[|inputs| - 1])
  }

  /** What the line was given `j` frames ago. */
  function Ago(e: Echo, j: nat): Frame
    requires Valid(e) && 1 <= j <= |e.ring|
  {
    e.ring[Masked(e.write + |e.ring| - j, |e.ring|)]
  }

  /** The ring with its wrapping heads is a delay line: every frame ages each entry by one, and the
      newest is what was written. */
  lemma RingIsADelayLine(e: Echo, input: Frame, j: nat)
    requires Valid(e) && 1 <= j <= |e.ring|
    ensures Ago(Advance(e, input), j) == if j == 1 then Written(e, input) else Ago(e, j - 1)
  {
    StepKeepsValid(e, input);
  }

  lemma RunStep(e: Echo, xs: seq<Frame>, t: nat)
    requires Valid(e) && t < |xs|
    ensures Run(e, xs[..t + 1]) == Advance(Run(e, xs[..t]), xs[t])
  {
    assert xs[..t + 1][..t] == xs[..t];
  }

  lemma {:induction false} RunInTwo(e: Echo, xs: seq<Frame>, ys: seq<Frame>)
    requires Valid(e)
    ensures Run(e, xs + ys) == Run(Run(e, xs), ys)
    decreases |ys|
  {
    if ys == [] {
      assert xs + ys == xs;
    } else {
      var all := xs + ys;
      assert all[..|all| - 1] == xs + ys[..|ys| - 1];
      RunInTwo(e, xs, ys[..|ys| - 1]);
    }
  }

  // ---- the echo of the next beat ----

  /** What the line holds for frame `t` after the press, with no ring in sight: the captured beat
      first, then each frame the filtered frame one beat earlier, quieter. */
  function Loop(xs: seq<Frame>, d: nat, feedback: real, c: real, t: nat): Frame
    requires 1 <= d && t < |xs|
    decreases t, 1
  {
    if t < d then xs[t] else FlushFrame(Scale(Tone(xs, d, feedback, c, t), feedback))
  }

  function Tone(xs: seq<Frame>, d: nat, feedback: real, c: real, t: nat): Frame
    requires 1 <= d <= t < |xs|
    decreases t, 0
  {
    LowPass(if t == d then SILENCE else FlushFrame(Tone(xs, d, feedback, c, t - 1)),
            Loop(xs, d, feedback, c, t - d), c)
  }

  predicate SameSettings(p: Echo, s: Echo) {
    && s.delay == p.delay && s.feedback == p.feedback && s.lpCoeff == p.lpCoeff
    && s.rampInc == p.rampInc && s.ready == p.ready && |s.ring| == |p.ring|
  }

  /** Frame `t` after a press from off: capturing until the beat is in, echoing from then on. */
  predicate Echoing(p: Echo, s: Echo, xs: seq<Frame>, t: nat)
    requires Valid(p) && Valid(s) && t <= |xs|
  {
    var (d, fb, c) := (p.delay, p.feedback, p.lpCoeff);
    && SameSettings(p, s)
    && s.phase == (if t < d then Capturing else Engaged)
    && (t < d ==> s.captureLeft == d - t)
    && (p.wetGain == 0.0 && t <= d ==> s.wetGain == 0.0)
    && s.lp == (if t <= d then SILENCE else FlushFrame(Tone(xs, d, fb, c, t - 1)))
    && forall j :: 1 <= j <= t && j <= |s.ring| ==> Ago(s, j) == Loop(xs, d, fb, c, t - j)
  }

  lemma EchoingFilters(p: Echo, s: Echo, xs: seq<Frame>, t: nat)
    requires Valid(p) && Valid(s) && p.delay <= t < |xs| && Echoing(p, s, xs, t)
    ensures Filtered(s) == Tone(xs, p.delay, p.feedback, p.lpCoeff, t)
  {
    assert Heard(s) == Ago(s, p.delay) == Loop(xs, p.delay, p.feedback, p.lpCoeff, t - p.delay);
  }

  lemma EchoingWrites(p: Echo, s: Echo, xs: seq<Frame>, t: nat)
    requires Valid(p) && Valid(s) && t < |xs| && Echoing(p, s, xs, t)
    ensures Written(s, xs[t]) == Loop(xs, p.delay, p.feedback, p.lpCoeff, t)
  {
    if t >= p.delay { EchoingFilters(p, s, xs, t); }
  }

  lemma EchoingStep(p: Echo, s: Echo, xs: seq<Frame>, t: nat)
    requires Valid(p) && Valid(s) && t < |xs| && Echoing(p, s, xs, t)
    ensures Valid(Advance(s, xs[t])) && Echoing(p, Advance(s, xs[t]), xs, t + 1)
  {
    StepKeepsValid(s, xs[t]);
    var (s', n, d) := (Advance(s, xs[t]), |s.ring|, p.delay);
    if t >= d { EchoingFilters(p, s, xs, t); }
    EchoingWrites(p, s, xs, t);
    forall j | 1 <= j <= t + 1 && j <= n
      ensures Ago(s', j) == Loop(xs, d, p.feedback, p.lpCoeff, t + 1 - j)
    {
      RingIsADelayLine(s, xs[t], j);
    }
  }

  lemma {:induction false} EchoingFromThePress(p: Echo, xs: seq<Frame>, t: nat)
    requires Valid(p) && p.phase.Capturing? && p.captureLeft == p.delay && p.lp == SILENCE
    requires t <= |xs|
    ensures Echoing(p, Run(p, xs[..t]), xs, t)
  {
    if t == 0 {
      assert xs[..0] == [];
    } else {
      hide Advance;
      EchoingFromThePress(p, xs, t - 1);
      EchoingStep(p, Run(p, xs[..t - 1]), xs, t - 1);
      RunStep(p, xs, t - 1);
    }
  }

  lemma DryIsItself(input: Frame, heard: Frame)
    ensures Mix(input, 1.0, heard, 0.0) == input && Mix(input, 0.0, heard, 1.0) == heard
  {
  }

  /** A press from off plays the next beat as it comes in and captures it; from then on the wet
      sample is that beat looping, its first lap exactly the beat itself. */
  lemma PressEchoesTheNextBeat(e: Echo, delayFrames: nat, feedback: real, lpCoeff: real,
                               xs: seq<Frame>, t: nat)
    requires Valid(e) && !e.phase.Engaged? && t < |xs|
    ensures var p := Pressed(e, delayFrames, feedback, lpCoeff);
            var s := Run(p, xs[..t]);
            && (t < p.delay ==> s.phase.Capturing? && (e.wetGain == 0.0 ==> Played(s, xs[t]) == xs[t]))
            && (t >= p.delay ==>
                  s.phase.Engaged? && Heard(s) == Loop(xs, p.delay, p.feedback, p.lpCoeff, t - p.delay))
            && (p.delay <= t < 2 * p.delay ==> Heard(s) == xs[t - p.delay])
            && p.delay == ClampIndex(delayFrames, 1, |e.ring|) && p.lpCoeff == Clamp(lpCoeff, 0.0, 1.0)
            && p.feedback == Clamp(feedback, 0.0, MAX_FEEDBACK)
  {
    var p := Pressed(e, delayFrames, feedback, lpCoeff);
    EchoingFromThePress(p, xs, t);
    var s := Run(p, xs[..t]);
    if t >= p.delay { assert Heard(s) == Ago(s, p.delay); }
    if t < p.delay && e.wetGain == 0.0 { DryIsItself(xs[t], Heard(s)); }
  }

  function Times(k: nat, x: real): real {
    if k == 0 then 0.0 else Times(k - 1, x) + x
  }

  lemma {:induction false} TimesIsProduct(k: nat, x: real)
    ensures Times(k, x) == k as real * x
  {
    if k == 0 {
    } else {
      TimesIsProduct(k - 1, x);
      assert k as real * x == (k - 1) as real * x + x;
    }
  }

  lemma {:induction false} EngagedFades(e: Echo, xs: seq<Frame>)
    requires Valid(e) && e.phase.Engaged?
    ensures var (e', ramped) := (Run(e, xs), Times(|xs|, e.rampInc));
            && SameSettings(e, e') && e'.phase.Engaged?
            && e'.dryGain == (if ramped >= e.dryGain then 0.0 else e.dryGain - ramped)
    decreases |xs|
  {
    if xs == [] {
    } else {
      EngagedFades(e, xs[..|xs| - 1]);
    }
  }

  lemma MutedPlaysTheWet(e: Echo, input: Frame)
    requires Valid(e) && e.phase.Engaged? && e.dryGain == 0.0
    ensures Played(e, input) == Heard(e)
  {
    DryIsItself(input, Heard(e));
  }

  lemma RampedIsMuted(e: Echo, xs: seq<Frame>, input: Frame)
    requires Valid(e) && e.phase.Engaged? && Times(|xs|, e.rampInc) >= e.dryGain
    ensures Played(Run(e, xs), input) == Heard(Run(e, xs))
  {
    hide Advance, Played;
    EngagedFades(e, xs);
    MutedPlaysTheWet(Run(e, xs), input);
  }

  /** Once engaged for the length of the ramp, the deck is all wet. */
  lemma EngagedIsMuted(e: Echo, xs: seq<Frame>, input: Frame)
    requires Valid(e) && e.phase.Engaged? && |xs| as real * e.rampInc >= e.dryGain
    ensures Played(Run(e, xs), input) == Heard(Run(e, xs))
  {
    hide Advance, Played;
    TimesIsProduct(|xs|, e.rampInc);
    RampedIsMuted(e, xs, input);
  }

  // ---- the echo dies away ----

  /** The filter's memory is within `lp`, and the last beat of the line within `m`, its newest `k`
      frames within `newest`. */
  predicate Loudness(e: Echo, lp: real, m: real, k: nat, newest: real)
    requires Valid(e)
  {
    && e.phase.Engaged? && Within(e.lp, lp)
    && forall j :: 1 <= j <= e.delay ==> Within(Ago(e, j), if j <= k then newest else m)
  }

  lemma FlushIsQuieter(f: Frame, m: real)
    requires Within(f, m)
    ensures Within(FlushFrame(f), m)
  {
  }

  lemma LowPassIsWithin(lp: Frame, f: Frame, c: real, mLp: real, mF: real, m: real)
    requires Within(lp, mLp) && Within(f, mF) && 0.0 <= c <= 1.0 && m == Toward(mLp, mF, c)
    ensures Within(LowPass(lp, f, c), m)
  {
    PartWay(lp.l, f.l, c, mLp, mF);
    PartWay(lp.r, f.r, c, mLp, mF);
  }

  lemma Scaled(x: real, gain: real, m: real)
    requires Abs(x) <= m && 0.0 <= gain
    ensures Abs(x * gain) <= gain * m
  {
    ProductNotNegative(gain, m - x);
    ProductNotNegative(gain, m + x);
  }

  lemma ScaleIsWithin(f: Frame, gain: real, m: real)
    requires Within(f, m) && 0.0 <= gain
    ensures Within(Scale(f, gain), gain * m)
  {
    Scaled(f.l, gain, m);
    Scaled(f.r, gain, m);
  }

  /** A bound on what is fed back after a frame within `m`: the feedback's share, or nothing once
      that is below the floor where samples are flushed. */
  predicate Cuts(feedback: real, m: real, cut: real) {
    0.0 <= feedback <= 1.0 && (cut == feedback * m || (m < DENORMAL_FLOOR && cut == 0.0))
  }

  lemma FlushedAway(f: Frame, m: real)
    requires Within(f, m) && m < DENORMAL_FLOOR
    ensures FlushFrame(f) == SILENCE
  {
  }

  lemma FedBackIsWithin(f: Frame, feedback: real, m: real, cut: real)
    requires Within(f, m) && Cuts(feedback, m, cut)
    ensures Within(FlushFrame(Scale(f, feedback)), cut)
  {
    var share := feedback * m;
    ScaleIsWithin(f, feedback, m);
    ShareIsLess(feedback, m);
    if cut == share { FlushIsQuieter(Scale(f, feedback), share); } else { FlushedAway(Scale(f, feedback), share); }
  }

  lemma FilteredIsWithin(e: Echo, mLp: real, mF: real, m: real)
    requires Valid(e) && Within(e.lp, mLp) && Within(Heard(e), mF) && m == Toward(mLp, mF, e.lpCoeff)
    ensures Within(Filtered(e), m)
  {
    LowPassIsWithin(e.lp, Heard(e), e.lpCoeff, mLp, mF, m);
  }

  lemma WrittenIsWithin(e: Echo, input: Frame, m: real, cut: real)
    requires Valid(e) && e.phase.Engaged? && Within(Filtered(e), m) && Cuts(e.feedback, m, cut)
    ensures Within(Written(e, input), cut)
  {
    FedBackIsWithin(Filtered(e), e.feedback, m, cut);
  }

  lemma LoudnessStep(e: Echo, input: Frame, m: real, k: nat, cut: real)
    requires Valid(e) && k < e.delay && Loudness(e, m, m, k, cut) && Cuts(e.feedback, m, cut)
    ensures Valid(Advance(e, input)) && SameSettings(e, Advance(e, input))
    ensures Loudness(Advance(e, input), m, m, k + 1, cut)
  {
    StepKeepsValid(e, input);
    assert Heard(e) == Ago(e, e.delay);
    FilteredIsWithin(e, m, m, m);
    WrittenIsWithin(e, input, m, cut);
    FlushIsQuieter(Filtered(e), m);
    var e' := Advance(e, input);
    forall j | 1 <= j <= e.delay ensures Within(Ago(e', j), if j <= k + 1 then cut else m) {
      RingIsADelayLine(e, input, j);
    }
  }

  lemma {:induction false} LoudnessOverABeat(e: Echo, xs: seq<Frame>, m: real, cut: real)
    requires Valid(e) && |xs| <= e.delay && Loudness(e, m, m, 0, cut) && Cuts(e.feedback, m, cut)
    ensures SameSettings(e, Run(e, xs)) && Loudness(Run(e, xs), m, m, |xs|, cut)
    decreases |xs|
  {
    if xs == [] {
    } else {
      var t := |xs| - 1;
      LoudnessOverABeat(e, xs[..t], m, cut);
      LoudnessStep(Run(e, xs[..t]), xs[t], m, t, cut);
    }
  }

  /** How much of the loudness a lap takes away. */
  function Loss(e: Echo): real {
    e.lpCoeff * (1.0 - e.feedback)
  }

  lemma Complement(x: real, m: real)
    ensures (1.0 - x) * m == m - x * m
  {
  }

  lemma PartOfTheWay(c: real, m: real, cut: real)
    requires 0.0 <= c <= 1.0 && 0.0 <= cut <= m
    ensures cut <= Toward(m, cut, c) <= m && Toward(m, cut, c) == m - c * (m - cut)
  {
    ShareIsLess(c, m - cut);
  }

  lemma LossIsAShare(c: real, feedback: real, m: real, cut: real, less: real)
    requires 0.0 <= c <= 1.0 && 0.0 <= feedback <= 1.0 && 0.0 <= m
    requires cut == feedback * m && less == m - c * (1.0 - feedback) * m
    ensures 0.0 <= cut <= less <= m && less == Toward(m, cut, c)
  {
    hide Toward;
    ShareIsLess(feedback, m);
    PartOfTheWay(c, m, cut);
    Regroup(c, 1.0 - feedback, m);
    Complement(feedback, m);
    assert (1.0 - feedback) * m == m - cut;
  }

  /** The filter's memory and the last beat of the line are all within `m`. */
  predicate LoudAtMost(e: Echo, m: real)
    requires Valid(e)
  {
    Loudness(e, m, m, 0, m)
  }

  lemma LoudnessSettles(e: Echo, m: real, k: nat, cut: real, top: real)
    requires Valid(e) && Loudness(e, m, m, k, cut) && cut <= top && m <= top
    ensures LoudAtMost(e, top)
  {
    forall j | 1 <= j <= e.delay ensures Within(Ago(e, j), top) {
    }
  }

  lemma LoudnessStaysStep(e: Echo, input: Frame, m: real)
    requires Valid(e) && LoudAtMost(e, m)
    ensures Valid(Advance(e, input)) && SameSettings(e, Advance(e, input))
    ensures LoudAtMost(Advance(e, input), m)
  {
    assert Within(e.lp, m);
    var cut := e.feedback * m;
    assert cut <= m by { ShareIsLess(e.feedback, m); }
    LoudnessStep(e, input, m, 0, cut);
    LoudnessSettles(Advance(e, input), m, 1, cut, m);
  }

  lemma {:induction false} LoudnessStays(e: Echo, xs: seq<Frame>, m: real)
    requires Valid(e) && LoudAtMost(e, m)
    ensures SameSettings(e, Run(e, xs)) && LoudAtMost(Run(e, xs), m)
    decreases |xs|
  {
    if xs == [] {
    } else {
      var t := |xs| - 1;
      LoudnessStays(e, xs[..t], m);
      LoudnessStaysStep(Run(e, xs[..t]), xs[t], m);
    }
  }

  /** One more frame after a beat whose echo was all within `cut`. */
  lemma LapEnds(e: Echo, input: Frame, m: real, cut: real, less: real)
    requires Valid(e) && Loudness(e, m, m, e.delay, cut) && Cuts(e.feedback, m, cut)
    requires less == Toward(m, cut, e.lpCoeff) && cut <= less <= m
    ensures Valid(Advance(e, input)) && SameSettings(e, Advance(e, input))
    ensures LoudAtMost(Advance(e, input), less)
  {
    StepKeepsValid(e, input);
    assert Heard(e) == Ago(e, e.delay);
    FilteredIsWithin(e, m, cut, less);
    FlushIsQuieter(Filtered(e), less);
    WrittenIsWithin(e, input, m, cut);
    var e' := Advance(e, input);
    forall j | 1 <= j <= e.delay ensures Within(Ago(e', j), less) {
      RingIsADelayLine(e, input, j);
    }
  }

  lemma Lap(e: Echo, xs: seq<Frame>, m: real, cut: real, less: real)
    requires Valid(e) && |xs| == e.delay + 1 && LoudAtMost(e, m) && Cuts(e.feedback, m, cut)
    requires less == Toward(m, cut, e.lpCoeff) && cut <= less <= m
    ensures SameSettings(e, Run(e, xs)) && LoudAtMost(Run(e, xs), less)
  {
    var d := e.delay;
    LoudnessOverABeat(e, xs[..d], m, cut);
    LapEnds(Run(e, xs[..d]), xs[d], m, cut, less);
  }

  lemma LossOfALap(e: Echo, m: real, less: real) returns (cut: real)
    requires Valid(e) && 0.0 <= m && less == m - Loss(e) * m
    ensures Cuts(e.feedback, m, cut) && cut <= less <= m && less == Toward(m, cut, e.lpCoeff)
  {
    hide Toward;
    cut := e.feedback * m;
    LossIsAShare(e.lpCoeff, e.feedback, m, cut, less);
  }

  /** A lap of the echo takes a fixed share of its loudness away. */
  lemma LapIsQuieter(e: Echo, xs: seq<Frame>, m: real, less: real)
    requires Valid(e) && |xs| == e.delay + 1 && LoudAtMost(e, m) && 0.0 <= m && less == m - Loss(e) * m
    ensures SameSettings(e, Run(e, xs)) && LoudAtMost(Run(e, xs), less)
  {
    hide *;
    var cut := LossOfALap(e, m, less);
    Lap(e, xs, m, cut, less);
  }

  lemma {:induction false} Loudest(fs: seq<Frame>) returns (m: real)
    ensures 0.0 <= m && forall f :: f in fs ==> Within(f, m)
  {
    m := 0.0;
    if fs == [] {
    } else {
      var rest := Loudest(fs[1..]);
      m := Abs(fs[0].l) + Abs(fs[0].r) + rest;
      forall f | f in fs ensures Within(f, m) {
        assert f == fs[0] || f in fs[1..];
      }
    }
  }

  /** A lap of an echo louder than `eps` takes away at least `step`. */
  predicate LapTakes(e: Echo, eps: real, step: real) {
    0.0 < eps && 0.0 < step && step == Loss(e) * eps
  }

  lemma LossGrows(loss: real, eps: real, m: real, step: real)
    requires 0.0 < eps < m && step == loss * eps && 0.0 < step
    ensures step <= loss * m
  {
    if loss < 0.0 { ProductNotNegative(-loss, eps); }
    ProductNotNegative(loss, m - eps);
  }

  lemma LapTakesItsStep(e: Echo, xs: seq<Frame>, m: real, eps: real, step: real) returns (less: real)
    requires Valid(e) && |xs| == e.delay + 1 && LoudAtMost(e, m) && eps < m && LapTakes(e, eps, step)
    ensures SameSettings(e, Run(e, xs)) && LapTakes(Run(e, xs), eps, step)
    ensures LoudAtMost(Run(e, xs), less) && less <= m - step
  {
    hide Advance;
    var loss := Loss(e);
    less := m - loss * m;
    assert less <= m - step by { LossGrows(loss, eps, m, step); }
    LapIsQuieter(e, xs, m, less);
  }

  function Frames(laps: nat, delay: nat): nat {
    if laps == 0 then 0 else delay + 1 + Frames(laps - 1, delay)
  }

  /** Enough laps bring the echo within `eps`, whatever comes in meanwhile. */
  lemma {:induction false} LapsBring(e: Echo, xs: seq<Frame>, m: real, eps: real, step: real, k: nat)
    requires Valid(e) && LoudAtMost(e, m) && LapTakes(e, eps, step)
    requires m <= eps + Times(k, step) && |xs| >= Frames(k, e.delay)
    ensures SameSettings(e, Run(e, xs)) && LoudAtMost(Run(e, xs), eps)
    decreases k
  {
    hide Advance, LapTakes;
    if m <= eps {
      LoudnessSettles(e, m, 0, m, eps);
      LoudnessStays(e, xs, eps);
    } else {
      var (lap, rest) := (xs[..e.delay + 1], xs[e.delay + 1..]);
      var less := LapTakesItsStep(e, lap, m, eps, step);
      LapsBring(Run(e, lap), rest, less, eps, step, k - 1);
      RunInTwo(e, lap, rest);
      assert lap + rest == xs;
    }
  }

  lemma ClearedFilter(e: Echo, input: Frame, m: real)
    requires Valid(e) && Loudness(e, m, m, e.delay, 0.0) && 0.0 <= m < DENORMAL_FLOOR
    ensures Valid(Advance(e, input)) && LoudAtMost(Advance(e, input), 0.0)
  {
    StepKeepsValid(e, input);
    assert Heard(e) == Ago(e, e.delay);
    var low := Toward(m, 0.0, e.lpCoeff);
    assert low <= m by { ShareIsLess(e.lpCoeff, m); }
    FilteredIsWithin(e, m, 0.0, low);
    FlushedAway(Filtered(e), low);
    WrittenIsWithin(e, input, low, 0.0);
    var e' := Advance(e, input);
    forall j | 1 <= j <= e.delay ensures Within(Ago(e', j), 0.0) {
      RingIsADelayLine(e, input, j);
    }
  }

  lemma BeatClears(e: Echo, xs: seq<Frame>, m: real)
    requires Valid(e) && LoudAtMost(e, m) && 0.0 <= m < DENORMAL_FLOOR && |xs| == e.delay + 1
    ensures LoudAtMost(Run(e, xs), 0.0)
  {
    LoudnessOverABeat(e, xs[..e.delay], m, 0.0);
    ClearedFilter(Run(e, xs[..e.delay]), xs[e.delay], m);
  }

  /** Below the floor every sample is flushed, and one more beat leaves the line exactly silent. */
  lemma LineClears(e: Echo, xs: seq<Frame>, m: real)
    requires Valid(e) && LoudAtMost(e, m) && 0.0 <= m < DENORMAL_FLOOR && |xs| >= e.delay + 1
    ensures LoudAtMost(Run(e, xs), 0.0)
  {
    hide Run, Advance, LoudAtMost;
    var (beat, rest) := (xs[..e.delay + 1], xs[e.delay + 1..]);
    BeatClears(e, beat, m);
    LoudnessStays(Run(e, beat), rest, 0.0);
    RunInTwo(e, beat, rest);
    assert beat + rest == xs;
  }

  lemma LapsToCover(m: real, step: real) returns (k: nat)
    requires 0.0 <= m && 0.0 < step
    ensures m <= Times(k, step)
  {
    var q := m / step;
    k := q.Floor + 1;
    TimesIsProduct(k, step);
    ProductNotNegative(k as real - q, step);
    assert q * step == m;
  }

  lemma SilentHeard(e: Echo)
    requires Valid(e) && LoudAtMost(e, 0.0)
    ensures Heard(e) == SILENCE
  {
    assert Heard(e) == Ago(e, e.delay);
  }

  lemma EverythingIsBounded(e: Echo) returns (m: real)
    requires Valid(e) && e.phase.Engaged?
    ensures 0.0 <= m && LoudAtMost(e, m)
  {
    m := Loudest(e.ring + [e.lp]);
    assert e.lp in e.ring + [e.lp];
    forall j | 1 <= j <= e.delay ensures Within(Ago(e, j), m) {
      assert Ago(e, j) in e.ring + [e.lp];
    }
  }

  lemma StepIsPositive(e: Echo, eps: real)
    requires Valid(e) && e.lpCoeff > 0.0 && eps > 0.0
    ensures LapTakes(e, eps, Loss(e) * eps)
  {
    var kept := 1.0 - e.feedback;
    ProductIsPositive(e.lpCoeff, kept);
    var loss := Loss(e);
    assert loss == e.lpCoeff * kept;
    ProductIsPositive(loss, eps);
  }

  lemma LapTakesPositive(e: Echo, eps: real, step: real)
    requires LapTakes(e, eps, step)
    ensures 0.0 < eps
  {
  }

  lemma FadedBy(e: Echo, xs: seq<Frame>, m: real, eps: real, step: real, k: nat)
    requires Valid(e) && LoudAtMost(e, m) && LapTakes(e, eps, step) && eps < DENORMAL_FLOOR
    requires m <= eps + Times(k, step) && |xs| >= Frames(k, e.delay) + e.delay + 1
    ensures Heard(Run(e, xs)) == SILENCE
  {
    hide Run, Advance, LoudAtMost, LapTakes, Heard;
    var laps := Frames(k, e.delay);
    LapsBring(e, xs[..laps], m, eps, step, k);
    var faded := Run(e, xs[..laps]);
    assert 0.0 < eps by { LapTakesPositive(e, eps, step); }
    LineClears(faded, xs[laps..], eps);
    SilentHeard(Run(faded, xs[laps..]));
    RunInTwo(e, xs[..laps], xs[laps..]);
    assert xs[..laps] + xs[laps..] == xs;
  }

  /** The engaged loop dies away to exact silence in bounded time, whatever it captured and whatever
      comes in meanwhile, as long as its filter passes anything at all. */
  lemma EchoFadesToSilence(e: Echo) returns (n: nat)
    requires Valid(e) && e.phase.Engaged? && e.lpCoeff > 0.0
    ensures forall xs: seq<Frame> :: |xs| >= n ==> Heard(Run(e, xs)) == SILENCE
  {
    hide Run, Advance, LoudAtMost, LapTakes, Heard;
    var m := EverythingIsBounded(e);
    var eps := DENORMAL_FLOOR / 2.0;
    var step := Loss(e) * eps;
    StepIsPositive(e, eps);
    var k := LapsToCover(m, step);
    var laps := Frames(k, e.delay);
    n := laps + e.delay + 1;
    forall xs: seq<Frame> | |xs| >= n ensures Heard(Run(e, xs)) == SILENCE {
      FadedBy(e, xs, m, eps, step, k);
    }
  }

  // ---- auto-off ----

  lemma QuietStep(e: Echo, input: Frame)
    requires Valid(e) && e.phase.Engaged?
    ensures var e' := Advance(e, input);
            && Valid(e') && e'.phase.Engaged? && e'.ready == e.ready
            && e'.quiet == if IsQuiet(e, input) then OneMore(e.quiet) else 0
  {
    StepKeepsValid(e, input);
  }

  /** Frame `i` of the run found both the input and the wet silent. */
  predicate QuietAt(e: Echo, xs: seq<Frame>, i: nat)
    requires Valid(e) && i < |xs|
  {
    && Abs(xs[i].l) <= INPUT_SILENCE_FLOOR && Abs(xs[i].r) <= INPUT_SILENCE_FLOOR
    && var wet := Heard(Run(e, xs[..i]));
       Abs(wet.l) <= WET_SILENCE_FLOOR && Abs(wet.r) <= WET_SILENCE_FLOOR
  }

  lemma QuietAtCounts(e: Echo, xs: seq<Frame>, i: nat)
    requires Valid(e) && i < |xs|
    ensures QuietAt(e, xs, i) <==> IsQuiet(Run(e, xs[..i]), xs[i])
  {
    hide Run, Heard;
  }

  predicate QuietForLast(e: Echo, xs: seq<Frame>, m: nat)
    requires Valid(e) && m <= |xs|
  {
    forall i :: |xs| - m <= i < |xs| ==> QuietAt(e, xs, i)
  }

  lemma QuietForOneMore(e: Echo, xs: seq<Frame>, m: nat)
    requires Valid(e) && 0 < m <= |xs|
    ensures var t := |xs| - 1;
            QuietForLast(e, xs, m) <==> QuietAt(e, xs, t) && QuietForLast(e, xs[..t], m - 1)
  {
    hide Run, IsQuiet;
    var front := xs[..|xs| - 1];
    forall i | 0 <= i < |front| ensures QuietAt(e, front, i) <==> QuietAt(e, xs, i) {
      assert front[..i] == xs[..i];
    }
    if QuietForLast(e, front, m - 1) && QuietAt(e, xs, |xs| - 1) {
      forall i | |xs| - m <= i < |xs| ensures QuietAt(e, xs, i) {
        if i < |front| { assert QuietAt(e, front, i); }
      }
    }
  }

  /** The quiet counter is the length of the quiet run the echo is in, as far as it can count. */
  lemma {:induction false} QuietIsARun(e: Echo, xs: seq<Frame>, m: nat)
    requires Valid(e) && e.phase.Engaged? && m <= |xs| && m <= MOST_FRAMES
    ensures Run(e, xs).phase.Engaged? && Run(e, xs).ready == e.ready
    ensures Run(e, xs).quiet >= m <==> QuietForLast(e, xs, m)
    decreases |xs|
  {
    hide Advance, IsQuiet;
    if xs == [] {
    } else {
      var t := |xs| - 1;
      QuietIsARun(e, xs[..t], if m == 0 then 0 else m - 1);
      QuietStep(Run(e, xs[..t]), xs[t]);
      QuietAtCounts(e, xs, t);
      if m > 0 { QuietForOneMore(e, xs, m); }
    }
  }

  lemma {:induction false} QuietGrowsSlowly(e: Echo, xs: seq<Frame>)
    requires Valid(e) && !e.phase.Idle?
    ensures var n := Run(e, xs);
            && !n.phase.Idle? && n.ready == e.ready && n.quiet <= e.quiet + |xs|
    decreases |xs|
  {
    if xs == [] {
    } else {
      QuietGrowsSlowly(e, xs[..|xs| - 1]);
    }
  }

  /** A press is not undone before the waiting time is over, however quiet the deck, and a press over
      an echo starts that time anew. There it swaps length and filter, and the loop plays on. */
  lemma PressIsHeardOut(e: Echo, delayFrames: nat, feedback: real, lpCoeff: real, xs: seq<Frame>)
    requires Valid(e) && |xs| < e.ready
    ensures var p := Pressed(e, delayFrames, feedback, lpCoeff);
            && StateCode(Run(p, xs)) == 1
            && p.ring == e.ring && p.write == e.write && p.wetGain == e.wetGain && p.dryGain == e.dryGain
            && (e.phase.Engaged? ==>
                  && p.phase.Engaged? && p.lp == e.lp && p.delay == ClampIndex(delayFrames, 1, |e.ring|)
                  && p.feedback == Clamp(feedback, 0.0, MAX_FEEDBACK) && p.lpCoeff == Clamp(lpCoeff, 0.0, 1.0))
  {
    hide Run;
    QuietGrowsSlowly(Pressed(e, delayFrames, feedback, lpCoeff), xs);
  }

  /** The engine asks for the echo to be turned off exactly when the input and the wet have both
      been silent for the whole waiting time: never over a ringing echo, never late. */
  lemma AutoOffExactly(e: Echo, xs: seq<Frame>)
    requires Valid(e) && e.phase.Engaged? && |xs| >= e.ready
    ensures StateCode(Run(e, xs)) == 2 <==> QuietForLast(e, xs, e.ready)
  {
    hide Run;
    QuietIsARun(e, xs, e.ready);
  }

  /** So a muted deck is never left silent: once the loop has died, the engine asks exactly when
      the input alone has been silent for the waiting time. */
  lemma SilentDeckIsReleased(e: Echo) returns (n: nat)
    requires Valid(e) && e.phase.Engaged? && e.lpCoeff > 0.0
    ensures forall xs: seq<Frame> :: |xs| >= n + e.ready ==>
              (StateCode(Run(e, xs)) == 2 <==>
                 forall i :: |xs| - e.ready <= i < |xs| ==> Within(xs[i], INPUT_SILENCE_FLOOR))
  {
    n := EchoFadesToSilence(e);
    forall xs: seq<Frame> | |xs| >= n + e.ready
      ensures StateCode(Run(e, xs)) == 2 <==>
              forall i :: |xs| - e.ready <= i < |xs| ==> Within(xs[i], INPUT_SILENCE_FLOOR)
    {
      hide Run;
      AutoOffExactly(e, xs);
      forall i | |xs| - e.ready <= i < |xs|
        ensures QuietAt(e, xs, i) <==> Within(xs[i], INPUT_SILENCE_FLOOR)
      {
        assert Heard(Run(e, xs[..i])) == SILENCE;
      }
    }
  }

  // ---- the processor ----

  /** What the bus carries over a run. */
  function Plays(e: Echo, xs: seq<Frame>): (ys: seq<Frame>)
    requires Valid(e)
    ensures |ys| == |xs|
    decreases |xs|
  {
    if xs == [] then []
    else Plays(e, xs[..|xs| - 1]) + [Played(Run(e, xs[..|xs| - 1]), xs[|xs| - 1])]
  }

  lemma RunStart(e: Echo, xs: seq<Frame>)
    requires Valid(e)
    ensures Run(e, xs[..0]) == e && Run(e, xs[..|xs|]) == Run(e, xs)
  {
    assert xs[..|xs|] == xs;
  }

  /** The bus after `t` frames of a block: played so far, then not yet reached. */
  function Bus(e: Echo, xs: seq<Frame>, t: nat): (bus: seq<Frame>)
    requires Valid(e) && t <= |xs|
    ensures |bus| == |xs| && (t < |xs| ==> bus[t] == xs[t])
  {
    Plays(e, xs[..t]) + xs[t..]
  }

  lemma BusStart(e: Echo, xs: seq<Frame>)
    requires Valid(e)
    ensures Bus(e, xs, 0) == xs && Bus(e, xs, |xs|) == Plays(e, xs)
  {
    assert xs[..0] == [] && xs[..|xs|] == xs;
  }

  lemma Splice(front: seq<Frame>, x: Frame, y: Frame, rest: seq<Frame>)
    ensures (front + ([x] + rest))[|front| := y] == front + [y] + rest
  {
  }

  lemma BusStep(e: Echo, xs: seq<Frame>, t: nat)
    requires Valid(e) && t < |xs|
    ensures Bus(e, xs, t + 1) == Bus(e, xs, t)[t := Played(Run(e, xs[..t]), xs[t])]
  {
    hide Run, Played;
    var (done, y) := (Plays(e, xs[..t]), Played(Run(e, xs[..t]), xs[t]));
    assert xs[..t + 1][..t] == xs[..t];
    assert Plays(e, xs[..t + 1]) == done + [y];
    assert xs[t..] == [xs[t]] + xs[t + 1..];
    Splice(done, xs[t], y, xs[t + 1..]);
  }

  // ---- one stereo pair of an interleaved bus ----

  predicate IsPair(stride: nat, offset: nat) {
    offset + 2 <= stride
  }

  /** Where frame `f`'s left sample is; the right one follows it. */
  function Left(f: nat, stride: nat, offset: nat): nat {
    f * stride + offset
  }

  lemma FrameFits(n: nat, stride: nat, offset: nat, f: nat)
    requires IsPair(stride, offset) && f < n / stride
    ensures Left(f, stride, offset) + 1 < n
  {
    assert (f + 1) * stride <= n / stride * stride <= n;
  }

  lemma FramesAreApart(f: nat, g: nat, stride: nat, offset: nat)
    requires IsPair(stride, offset) && f < g
    ensures Left(f, stride, offset) + 1 < Left(g, stride, offset)
  {
    assert (f + 1) * stride <= g * stride;
  }

  function PairAt(bus: seq<real>, stride: nat, offset: nat, f: nat): Frame
    requires IsPair(stride, offset) && f < |bus| / stride
  {
    FrameFits(|bus|, stride, offset, f);
    Frame(bus[Left(f, stride, offset)], bus[Left(f, stride, offset) + 1])
  }

  /** The deck's own frames of the bus; a trailing part of a frame is no frame. */
  function Pairs(bus: seq<real>, stride: nat, offset: nat): (xs: seq<Frame>)
    requires IsPair(stride, offset)
    ensures |xs| == |bus| / stride
    ensures forall f :: 0 <= f < |xs| ==> xs[f] == PairAt(bus, stride, offset, f)
  {
    seq(|bus| / stride, f requires 0 <= f < |bus| / stride => PairAt(bus, stride, offset, f))
  }

  /** Sample `i` belongs to the deck's pair. */
  ghost predicate InPair(i: nat, n: nat, stride: nat, offset: nat)
    requires IsPair(stride, offset)
  {
    exists f :: 0 <= f < n / stride && Left(f, stride, offset) <= i <= Left(f, stride, offset) + 1
  }

  ghost predicate SameElsewhere(was: seq<real>, now: seq<real>, stride: nat, offset: nat)
    requires IsPair(stride, offset)
  {
    && |now| == |was|
    && forall i :: 0 <= i < |was| && !InPair(i, |was|, stride, offset) ==> now[i] == was[i]
  }

  lemma SameElsewhereOnward(was: seq<real>, between: seq<real>, now: seq<real>, stride: nat, offset: nat)
    requires IsPair(stride, offset)
    requires SameElsewhere(was, between, stride, offset) && SameElsewhere(between, now, stride, offset)
    ensures SameElsewhere(was, now, stride, offset)
  {
  }

  lemma ReadPair(bus: seq<real>, stride: nat, offset: nat, f: nat)
    requires IsPair(stride, offset) && f < |bus| / stride
    ensures Left(f, stride, offset) + 1 < |bus|
    ensures Pairs(bus, stride, offset)[f] == Frame(bus[Left(f, stride, offset)], bus[Left(f, stride, offset) + 1])
  {
    FrameFits(|bus|, stride, offset, f);
  }

  lemma WritePair(bus: seq<real>, stride: nat, offset: nat, f: nat, y: Frame) returns (now: seq<real>)
    requires IsPair(stride, offset) && f < |bus| / stride
    ensures Left(f, stride, offset) + 1 < |bus|
    ensures now == bus[Left(f, stride, offset) := y.l][Left(f, stride, offset) + 1 := y.r]
    ensures Pairs(now, stride, offset) == Pairs(bus, stride, offset)[f := y]
    ensures SameElsewhere(bus, now, stride, offset)
  {
    FrameFits(|bus|, stride, offset, f);
    var at := Left(f, stride, offset);
    now := bus[at := y.l][at + 1 := y.r];
    hide Left;
    forall g: nat | g < |bus| / stride
      ensures PairAt(now, stride, offset, g) == if g == f then y else PairAt(bus, stride, offset, g)
    {
      FrameFits(|bus|, stride, offset, g);
      if g < f { FramesAreApart(g, f, stride, offset); }
      if f < g { FramesAreApart(f, g, stride, offset); }
    }
  }

  predicate Dormant(e: Echo) {
    e.phase.Idle? && e.wetGain <= 0.0 && e.dryGain >= 1.0
  }

  /** Off and faded out, the processor passes the bus through, which is what lets it skip the mix. */
  lemma DormantIsTransparent(e: Echo, input: Frame)
    requires Valid(e) && Dormant(e)
    ensures Played(e, input) == input && Dormant(Advance(e, input))
  {
    DryIsItself(input, Heard(e));
  }

  lemma {:induction false} ReleasedFades(e: Echo, xs: seq<Frame>)
    requires Valid(e) && e.phase.Idle?
    ensures var (n, ramped) := (Run(e, xs), Times(|xs|, e.rampInc));
            && n.phase.Idle? && n.rampInc == e.rampInc
            && n.wetGain == (if ramped >= e.wetGain then 0.0 else e.wetGain - ramped)
    decreases |xs|
  {
    if xs == [] {
    } else {
      ReleasedFades(e, xs[..|xs| - 1]);
    }
  }

  /** A released echo is gone once the ramp is over: the bus carries the deck alone. */
  lemma ReleasedIsDry(e: Echo, xs: seq<Frame>, input: Frame)
    requires Valid(e) && |xs| as real * e.rampInc >= e.wetGain
    ensures var n := Run(Released(e), xs);
            Played(n, input) == input && StateCode(n) == 0
  {
    hide Advance, Played, Run;
    TimesIsProduct(|xs|, e.rampInc);
    ReleasedFades(Released(e), xs);
    DormantIsTransparent(Run(Released(e), xs), input);
  }

  /** The ring's size: a power of two with room for a second of frames. */
  function RingCapacity(sampleRate: nat, size: nat): (capacity: nat)
    requires size >= 1
    ensures capacity >= size && capacity >= sampleRate
    decreases if size < sampleRate then sampleRate - size else 0
  {
    if size >= sampleRate then size else RingCapacity(sampleRate, 2 * size)
  }

  const SMALLEST_RING: nat := 1024

  predicate IsPowerOfTwo(n: nat) {
    n == 1 || (n > 1 && n % 2 == 0 && IsPowerOfTwo(n / 2))
  }

  lemma {:induction false} CapacityIsAPowerOfTwo(sampleRate: nat, size: nat)
    requires IsPowerOfTwo(size)
    ensures IsPowerOfTwo(RingCapacity(sampleRate, size))
    decreases if size < sampleRate then sampleRate - size else 0
  {
    if size >= sampleRate {
    } else {
      assert 2 * size / 2 == size;
      CapacityIsAPowerOfTwo(sampleRate, 2 * size);
    }
  }

  /** At every rate the bit mask is sound: the ring's size is a power of two. */
  lemma RingIsAPowerOfTwo(sampleRate: nat)
    ensures IsPowerOfTwo(RingCapacity(sampleRate, SMALLEST_RING))
  {
    assert IsPowerOfTwo(16);
    assert IsPowerOfTwo(128);
    assert IsPowerOfTwo(1024);
    CapacityIsAPowerOfTwo(sampleRate, SMALLEST_RING);
  }

  /** An echo of one beat at a minute's worth of beats or more is never cut short by the ring. */
  lemma RingHoldsABeat(sampleRate: nat, bpm: real, e: Echo)
    requires Valid(e) && |e.ring| == RingCapacity(sampleRate, SMALLEST_RING) && bpm >= 60.0
    requires 1 <= Rounded(60.0 / bpm * sampleRate as real)
    ensures Pressed(e, Rounded(60.0 / bpm * sampleRate as real), 0.6, 1.0).delay
            == Rounded(60.0 / bpm * sampleRate as real)
  {
    var (share, sr) := (60.0 / bpm, sampleRate as real);
    assert share <= 1.0;
    ProductNotNegative(1.0 - share, sr);
    assert (1.0 - share) * sr == sr - share * sr;
  }

  /** The cross-fade's length in frames, three milliseconds, and the wait before auto-off, three
      hundred; each at least a frame. */
  function RampFrames(sampleRate: nat): (frames: real)
    ensures frames >= 1.0
  {
    var ramp := sampleRate as real * 3.0 / 1000.0;
    if ramp > 1.0 then ramp else 1.0
  }

  /** The cast to a machine word saturates. */
  function WaitFrames(sampleRate: nat): (frames: nat)
    ensures 1 <= frames <= MOST_FRAMES
  {
    var wait := sampleRate as real * 300.0 / 1000.0;
    ClampIndex(wait.Floor, 1, MOST_FRAMES)
  }

  lemma RampCovers(k: nat, ramp: real)
    requires ramp >= 1.0
    ensures k as real * (1.0 / ramp) >= 1.0 <==> k as real >= ramp
  {
    var inc := 1.0 / ramp;
    assert inc * ramp == 1.0;
    if k as real >= ramp {
      ProductNotNegative(k as real - ramp, inc);
    } else {
      ProductIsPositive(ramp - k as real, inc);
      assert (ramp - k as real) * inc == 1.0 - k as real * inc;
    }
  }

  /** Three milliseconds after the captured beat ends, and a frame at least, nothing of the deck is
      heard but its echo, and not before: the deck is faded, not cut. */
  lemma MutedWithinTheRamp(sampleRate: nat, e: Echo, xs: seq<Frame>, input: Frame)
    requires Valid(e) && e.phase.Engaged? && e.rampInc == 1.0 / RampFrames(sampleRate)
    ensures |xs| >= 1 && 1000 * |xs| >= 3 * sampleRate ==> Played(Run(e, xs), input) == Heard(Run(e, xs))
    ensures e.dryGain == 1.0 && (xs == [] || 1000 * |xs| < 3 * sampleRate) ==> Run(e, xs).dryGain > 0.0
  {
    hide Run, Played, Heard;
    var ramp := RampFrames(sampleRate);
    assert |xs| as real >= ramp <==> |xs| >= 1 && 1000 * |xs| >= 3 * sampleRate;
    hide RampFrames;
    RampCovers(|xs|, ramp);
    TimesIsProduct(|xs|, e.rampInc);
    EngagedFades(e, xs);
    if |xs| as real >= ramp { EngagedIsMuted(e, xs, input); }
  }

  /** The wait before auto-off is three tenths of a second, to the frame. */
  lemma WaitIsThreeTenths(sampleRate: nat)
    requires 4 <= sampleRate <= MOST_FRAMES
    ensures 10 * WaitFrames(sampleRate) <= 3 * sampleRate < 10 * (WaitFrames(sampleRate) + 1)
  {
    var wait := sampleRate as real * 300.0 / 1000.0;
    assert wait.Floor as real <= wait < wait.Floor as real + 1.0;
    assert 10 * wait.Floor <= 3 * sampleRate;
  }

  class EchoOut {
    const ring: array<Frame>
    const rampInc: real
    const ready: nat
    var write: nat
    var delay: nat
    var feedback: real
    var lpCoeff: real
    var lp: Frame
    var phase: Phase
    var wetGain: real
    var dryGain: real
    var wetTarget: real
    var quiet: nat
    var captureLeft: nat

    ghost function State(): Echo
      reads this, ring
    {
      Echo(ring[..], write, delay, feedback, lpCoeff, lp, phase, wetGain, dryGain, wetTarget, rampInc,
           quiet, ready, captureLeft)
    }

    constructor (sampleRate: nat, lpCoeff: real)
      requires 0.0 <= lpCoeff <= 1.0
      ensures fresh(ring) && Valid(State()) && Dormant(State())
      ensures ring.Length == RingCapacity(sampleRate, SMALLEST_RING)
      ensures rampInc == 1.0 / RampFrames(sampleRate) && ready == WaitFrames(sampleRate)
      ensures State().lpCoeff == lpCoeff && forall f :: f in State().ring ==> f == SILENCE
    {
      rampInc := 1.0 / RampFrames(sampleRate);
      ready := WaitFrames(sampleRate);
      ring := new Frame[RingCapacity(sampleRate, SMALLEST_RING)](_ => SILENCE);
      write, delay, feedback, quiet, captureLeft := 0, 1, 0.6, 0, 0;
      this.lpCoeff := lpCoeff;
      lp, phase, wetGain, dryGain, wetTarget := SILENCE, Idle, 0.0, 1.0, 0.0;
    }

    method Engage(delayFrames: nat, feedback: real, lpCoeff: real)
      requires Valid(State())
      modifies this
      ensures State() == Pressed(old(State()), delayFrames, feedback, lpCoeff) && Valid(State())
    {
      delay := ClampIndex(delayFrames, 1, ring.Length);
      this.feedback := Clamp(feedback, 0.0, MAX_FEEDBACK);
      this.lpCoeff := Clamp(lpCoeff, 0.0, 1.0);
      quiet := 0;
      if phase == Engaged {
        return;
      }
      lp := SILENCE;
      phase := Capturing;
      captureLeft := delay;
    }

    method Release()
      requires Valid(State())
      modifies this
      ensures State() == Released(old(State())) && Valid(State())
    {
      phase := Idle;
      wetTarget := 0.0;
    }

    /** One frame of the bus: the line, the auto-off watch and the gains all move, and the mix is
        skipped while there is nothing to do. */
    method ProcessFrame(input: Frame, active: bool) returns (output: Frame)
      requires Valid(State()) && (active || Dormant(State()))
      modifies this, ring
      ensures State() == Advance(old(State()), input) && (active || Dormant(State()))
      ensures output == Played(old(State()), input)
    {
      hide LowPass, Scale, FlushFrame, Mix, Ramp, Within;
      ghost var e := State();
      if !active { DormantIsTransparent(e, input); }
      var dryTarget := if phase == Engaged then 0.0 else 1.0;
      var target := wetTarget;
      var heard := ring[Masked(write + ring.Length - delay, ring.Length)];
      assert heard == Heard(e);
      hide Heard, Masked;
      match phase {
        case Idle => ring[write] := input;
        case Capturing =>
          ring[write] := input;
          captureLeft := captureLeft - 1;
          if captureLeft == 0 {
            phase := Engaged;
            wetTarget := 1.0;
          }
        case Engaged =>
          var filtered := LowPass(lp, heard, lpCoeff);
          lp := FlushFrame(filtered);
          ring[write] := FlushFrame(Scale(filtered, feedback));
          quiet := if Within(input, INPUT_SILENCE_FLOOR) && Within(heard, WET_SILENCE_FLOOR) then OneMore(quiet)
                   else 0;
      }
      assert ring[..] == e.ring[e.write := Written(e, input)];
      hide Written, Filtered;
      write := Masked(write + 1, ring.Length);
      wetGain := Ramp(wetGain, target, rampInc);
      dryGain := Ramp(dryGain, dryTarget, rampInc);
      output := if active then Mix(input, dryGain, heard, wetGain) else input;
    }

    /** One frame of the block, on its pair of samples. */
    method ProcessPair(out: array<real>, stride: nat, offset: nat, f: nat, active: bool)
      requires Valid(State()) && (active || Dormant(State()))
      requires IsPair(stride, offset) && f < out.Length / stride
      modifies this, ring, out
      ensures var xs := Pairs(old(out[..]), stride, offset);
              && State() == Advance(old(State()), xs[f]) && (active || Dormant(State()))
              && Pairs(out[..], stride, offset) == xs[f := Played(old(State()), xs[f])]
      ensures SameElsewhere(old(out[..]), out[..], stride, offset)
    {
      hide *;
      ghost var was := out[..];
      ReadPair(was, stride, offset, f);
      var left := Left(f, stride, offset);
      var output := ProcessFrame(Frame(out[left], out[left + 1]), active);
      assert out[..] == was;
      ghost var now := WritePair(was, stride, offset, f, output);
      out[left], out[left + 1] := output.l, output.r;
      assert out[..] == now;
    }

    /** A block in place, on the deck's pair of the interleaved bus: the same as mixing every frame,
        though the mix is skipped while there is nothing to do, and no other sample moves. */
    method ProcessBlock(out: array<real>, stride: nat, offset: nat)
      requires Valid(State()) && IsPair(stride, offset)
      modifies this, ring, out
      ensures State() == Run(old(State()), Pairs(old(out[..]), stride, offset)) && Valid(State())
      ensures Pairs(out[..], stride, offset) == Plays(old(State()), Pairs(old(out[..]), stride, offset))
      ensures SameElsewhere(old(out[..]), out[..], stride, offset)
    {
      var active := phase != Idle || wetGain > 0.0 || dryGain < 1.0;
      ghost var (e, was) := (State(), out[..]);
      ghost var xs := Pairs(was, stride, offset);
      var frames := out.Length / stride;
      assert (active || Dormant(e)) && SameElsewhere(was, was, stride, offset);
      hide *;
      RunStart(e, xs);
      BusStart(e, xs);
      for f := 0 to frames
        invariant State() == Run(e, xs[..f]) && Pairs(out[..], stride, offset) == Bus(e, xs, f)
        invariant SameElsewhere(was, out[..], stride, offset)
        invariant active || Dormant(State())
      {
        ghost var before := out[..];
        RunStep(e, xs, f);
        BusStep(e, xs, f);
        ProcessPair(out, stride, offset, f, active);
        SameElsewhereOnward(was, before, out[..], stride, offset);
      }
    }
  }
}
