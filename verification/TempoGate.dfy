/**
 The settled tempo (apple/Dub/MainView.swift, `readDeckState`): the tempo readouts adopt the
 platter's pitch only after it has sat still, so a spin-up or a scratch sweeping through the
 fader's range never moves them.
 */
module TempoGate {
  import opened Prelude
  import opened Reals

  const LIMIT: real := 50.0
  const STILLNESS: real := 0.2
  const STEADY_POLLS: nat := 10
  const READOUT_STEP: real := 0.1

  /** What one poll reads of the platter. */
  datatype Reading = Reading(playing: bool, pitch: real)

  predicate Believable(r: Reading) {
    r.playing && Abs(r.pitch) <= LIMIT
  }

  /** The candidate and how many polls it has held, and the settled tempo. */
  datatype Candidate = Candidate(pitch: real, polls: nat)
  datatype Gate = Gate(steady: Option<Candidate>, settled: Option<real>)

  const OPEN: Gate := Gate(None, None)

  /** The settled value moves by a readout step or not at all. */
  function HeldPitch(live: real, prev: Option<real>): real {
    if prev.Some? && Abs(live - prev.value) < READOUT_STEP then prev.value else live
  }

  function Poll(g: Gate, r: Reading): Gate {
    if !Believable(r) then g.(steady := None)
    else if g.steady.Some? && Abs(r.pitch - g.steady.value.pitch) <= STILLNESS then
      var held := Candidate(g.steady.value.pitch, g.steady.value.polls + 1);
      Gate(Some(held), if held.polls >= STEADY_POLLS then Some(HeldPitch(held.pitch, g.settled))
                       else g.settled)
    else g.(steady := Some(Candidate(r.pitch, 0)))
  }

  /** Stopping the engine empties the deck; the candidate, kept outside the deck, stays. */
  datatype Event = Polled(reading: Reading) | Stopped

  function On(g: Gate, e: Event): Gate {
    if e.Polled? then Poll(g, e.reading) else g.(settled := None)
  }

  function After(events: seq<Event>): Gate {
    if events == [] then OPEN else On(After(events[..|events| - 1]), events[|events| - 1])
  }

  function Readings(events: seq<Event>): seq<Reading> {
    if events == [] then []
    else
      var e := events[|events| - 1];
      Readings(events[..|events| - 1]) + (if e.Polled? then [e.reading] else [])
  }

  /** From reading `j` to the last, the platter played within the fader's range and within the
      stillness band of reading `j`. */
  predicate StillSince(h: seq<Reading>, j: nat) {
    && j < |h|
    && forall i :: j <= i < |h| ==>
         h[i].playing && -LIMIT <= h[i].pitch <= LIMIT
         && h[j].pitch - STILLNESS <= h[i].pitch <= h[j].pitch + STILLNESS
  }

  /** The gate's small state against the whole history: the candidate is the reading that many
      polls ago, and every poll since has stayed with it. */
  predicate SummaryHolds(g: Gate, h: seq<Reading>) {
    g.steady.Some? ==>
      var c := g.steady.value;
      c.polls < |h| && h[|h| - 1 - c.polls].pitch == c.pitch && StillSince(h, |h| - 1 - c.polls)
  }

  lemma {:induction false} SummaryMatchesHistory(events: seq<Event>)
    ensures SummaryHolds(After(events), Readings(events))
  {
    if events == [] {
    } else {
      var (before, e) := (events[..|events| - 1], events[|events| - 1]);
      SummaryMatchesHistory(before);
      var (g, h) := (After(before), Readings(before));
      if e.Polled? {
        var h' := h + [e.reading];
        assert forall i :: 0 <= i < |h| ==> h'[i] == h[i];
      }
    }
  }

  /** In every run, when the settled tempo changes to `v`, `v` is a reading at least ten polls
      old, every poll since was playing, in range and within the band of it, and it differs from
      the tempo it replaces by a readout step or more. */
  lemma SettledTempoHistory(events: seq<Event>, r: Reading) returns (j: nat)
    requires After(events + [Polled(r)]).settled != After(events).settled
    ensures var h := Readings(events + [Polled(r)]);
            var v := After(events + [Polled(r)]).settled;
            && j + STEADY_POLLS < |h| && v == Some(h[j].pitch) && StillSince(h, j)
            && (After(events).settled.Some? ==>
                  Abs(v.value - After(events).settled.value) >= READOUT_STEP)
  {
    var next := events + [Polled(r)];
    assert next[..|next| - 1] == events;
    SummaryMatchesHistory(next);
    var g := After(next);
    j := |Readings(next)| - 1 - g.steady.value.polls;
  }

  lemma {:induction false} ReadingsAppend(events: seq<Event>, more: seq<Event>)
    ensures Readings(events + more) == Readings(events) + Readings(more)
  {
    if more == [] {
      assert events + more == events;
    } else {
      var all := events + more;
      assert all[..|all| - 1] == events + more[..|more| - 1];
      ReadingsAppend(events, more[..|more| - 1]);
    }
  }

  /** No stretch of eleven polls that holds still ends after the first `from` readings. */
  predicate NeverStillAfter(h: seq<Reading>, from: nat) {
    forall j, n :: 0 <= j && j + STEADY_POLLS < n && from < n <= |h| ==> !StillSince(h[..n], j)
  }

  /** A platter that sweeps without ever holding still that long never moves the tempo, whatever
      tempo had settled before: a deck paused and spun up again, or cut and let go, keeps its
      readout through every rate it passes. Only stopping the engine takes the readout away. */
  lemma {:induction false} SweepNeverMovesTheTempo(before: seq<Event>, sweep: seq<Event>)
    requires NeverStillAfter(Readings(before + sweep), |Readings(before)|)
    ensures After(before + sweep).settled == if Stopped in sweep then None else After(before).settled
    decreases |sweep|
  {
    if sweep == [] {
      assert before + sweep == before;
    } else {
      var (front, last) := (sweep[..|sweep| - 1], sweep[|sweep| - 1]);
      var (events, all) := (before + front, before + sweep);
      assert all[..|all| - 1] == events && all == events + [last];
      var (h, h', start) := (Readings(all), Readings(events), |Readings(before)|);
      forall j, n | 0 <= j && j + STEADY_POLLS < n && start < n <= |h'| ensures !StillSince(h'[..n], j) {
        assert h'[..n] == h[..n];
      }
      SweepNeverMovesTheTempo(before, front);
      assert Stopped in sweep <==> Stopped in front || last == Stopped;
      ReadingsAppend(before, front);
      if last.Polled? && After(all).settled != After(events).settled {
        assert h[..|h|] == h;
        var j := SettledTempoHistory(events, last.reading);
      }
    }
  }

  /** In particular a deck that has never held still since launch shows no tempo. */
  lemma SpinUpNeverMovesTheTempo(events: seq<Event>)
    requires NeverStillAfter(Readings(events), 0)
    ensures After(events).settled == None
  {
    assert [] + events == events;
    SweepNeverMovesTheTempo([], events);
  }

  function PollAll(g: Gate, readings: seq<Reading>): Gate {
    if readings == [] then g
    else Poll(PollAll(g, readings[..|readings| - 1]), readings[|readings| - 1])
  }

  /** The tempo `was`, if there is one, is less than a readout step from `live`. */
  predicate ReadsAlike(live: real, was: Option<real>) {
    was.Some? && live - READOUT_STEP < was.value < live + READOUT_STEP
  }

  /** And one that does, moves it: a new pitch away from the candidate, held for ten more polls,
      becomes the tempo itself, unless the tempo there was reads alike, which then stays. Held for
      less, it moves nothing. */
  lemma {:induction false} HeldPitchSettles(g: Gate, readings: seq<Reading>)
    requires readings != [] && StillSince(readings, 0)
    requires g.steady.Some? ==> Abs(readings[0].pitch - g.steady.value.pitch) > STILLNESS
    ensures var (n, held) := (PollAll(g, readings), readings[0].pitch);
            && n.steady == Some(Candidate(held, |readings| - 1))
            && n.settled == (if |readings| > STEADY_POLLS && !ReadsAlike(held, g.settled)
                             then Some(held) else g.settled)
            && (|readings| > STEADY_POLLS ==> ReadsAlike(held, n.settled))
  {
    var (before, r) := (readings[..|readings| - 1], readings[|readings| - 1]);
    assert Believable(readings[|readings| - 1]);
    if before == [] {
      assert PollAll(g, before) == g;
    } else {
      assert forall i :: 0 <= i < |before| ==> before[i] == readings[i];
      HeldPitchSettles(g, before);
    }
  }

  /** A poll outside the fader's range, or of a stopped platter, forgets the candidate and nothing
      else; one away from the candidate takes its place. */
  lemma OtherPollsStartOver(g: Gate, r: Reading)
    ensures !r.playing || r.pitch < -LIMIT || r.pitch > LIMIT ==> Poll(g, r) == Gate(None, g.settled)
    ensures r.playing && -LIMIT <= r.pitch <= LIMIT
            && (g.steady.Some? ==> Abs(r.pitch - g.steady.value.pitch) > STILLNESS) ==>
              Poll(g, r) == Gate(Some(Candidate(r.pitch, 0)), g.settled)
  {
  }

  /** One deck's gate, polled in place. */
  class TempoStore {
    var steady: Option<Candidate>
    var tempoPitchPercent: Option<real>

    constructor ()
      ensures State() == OPEN
    {
      steady, tempoPitchPercent := None, None;
    }

    ghost function State(): Gate
      reads this
    {
      Gate(steady, tempoPitchPercent)
    }

    method ReadPitch(nowPlaying: bool, pitch: real)
      modifies this
      ensures State() == Poll(old(State()), Reading(nowPlaying, pitch))
    {
      if nowPlaying && Abs(pitch) <= LIMIT {
        if steady.Some? && Abs(pitch - steady.value.pitch) <= STILLNESS {
          var (candidate, polls) := (steady.value.pitch, steady.value.polls + 1);
          steady := Some(Candidate(candidate, polls));
          if polls >= STEADY_POLLS {
            tempoPitchPercent := Some(HeldPitch(candidate, tempoPitchPercent));
          }
        } else {
          steady := Some(Candidate(pitch, 0));
        }
      } else {
        steady := None;
      }
    }
  }
}
