/**
 Loop geometry: snapping a press to the beat grid (apple/Dub/MainView.swift), the region of a
 reverse loop and the wrap that keeps a playhead in it (crates/dub-engine/src/looping.rs).
 */
module LoopRegion {
  import opened Prelude
  import opened Reals

  predicate Sorted(beats: seq<real>) {
    forall i, j :: 0 <= i < j < |beats| ==> beats[i] <= beats[j]
  }

  predicate Ascending(beats: seq<real>) {
    forall i, j :: 0 <= i < j < |beats| ==> beats[i] < beats[j]
  }

  // ----- Snapping, as the app does it -----

  predicate Nearer(a: real, b: real, secs: real) {
    Abs(a - secs) < Abs(b - secs)
  }

  /** The minimum by distance of the first `n` lines; the earliest one wins a tie. */
  function Nearest(beats: seq<real>, secs: real, n: nat): real
    requires 1 <= n <= |beats|
  {
    if n == 1 then beats[0]
    else
      var best := Nearest(beats, secs, n - 1);
      if Nearer(beats[n - 1], best, secs) then beats[n - 1] else best
  }

  function SnappedToGrid(beats: seq<real>, secs: real): real {
    if beats == [] then secs else Nearest(beats, secs, |beats|)
  }

  lemma {:induction false} NearestIsALine(beats: seq<real>, secs: real, n: nat) returns (k: nat)
    requires 1 <= n <= |beats|
    ensures k < n && Nearest(beats, secs, n) == beats[k]
    ensures forall i :: 0 <= i < n ==> !Nearer(beats[i], beats[k], secs)
    ensures forall i :: 0 <= i < k ==> Nearer(beats[k], beats[i], secs)
  {
    k := 0;
    if n == 1 {
    } else {
      k := NearestIsALine(beats, secs, n - 1);
      if Nearer(beats[n - 1], beats[k], secs) { k := n - 1; }
    }
  }

  /** A press on a grid line stays there, so snapping twice is snapping once. */
  lemma SnapIsIdempotent(beats: seq<real>, secs: real)
    ensures SnappedToGrid(beats, SnappedToGrid(beats, secs)) == SnappedToGrid(beats, secs)
  {
    if beats != [] {
      var k := NearestIsALine(beats, secs, |beats|);
      var j := NearestIsALine(beats, beats[k], |beats|);
      assert !Nearer(beats[k], beats[j], beats[k]);
    }
  }

  /** On a sorted grid a later press never snaps to an earlier line. */
  lemma SnapIsMonotone(beats: seq<real>, p: real, q: real)
    requires Sorted(beats) && p <= q
    ensures SnappedToGrid(beats, p) <= SnappedToGrid(beats, q)
  {
    if beats != [] {
      var i := NearestIsALine(beats, p, |beats|);
      var j := NearestIsALine(beats, q, |beats|);
      assert !Nearer(beats[j], beats[i], p) && !Nearer(beats[i], beats[j], q);
      if j < i { assert Nearer(beats[i], beats[j], p) && beats[j] <= beats[i]; }
    }
  }

  // ----- Snapping, as the engine does it -----

  /** The first index whose beat is at or after `target`. */
  function PartitionPoint(beats: seq<real>, target: real): (pp: nat)
    ensures pp <= |beats|
    ensures forall i :: 0 <= i < pp ==> beats[i] < target
    ensures pp < |beats| ==> target <= beats[pp]
  {
    if beats == [] || target <= beats[0] then 0 else 1 + PartitionPoint(beats[1..], target)
  }

  function NearestBeatIndex(beats: seq<real>, target: real): Option<nat> {
    if beats == [] then None
    else
      var pp := PartitionPoint(beats, target);
      if pp == 0 then Some(0)
      else if pp >= |beats| then Some(|beats| - 1)
      else if target - beats[pp - 1] <= beats[pp] - target then Some(pp - 1) else Some(pp)
  }

  /** The engine's bisection and the app's scan agree on the line, ties included. */
  lemma AppAndEngineSnapAlike(beats: seq<real>, secs: real)
    requires beats != [] && Sorted(beats)
    ensures var i := NearestBeatIndex(beats, secs);
            i.Some? && i.value < |beats| && beats[i.value] == SnappedToGrid(beats, secs)
  {
    var k := NearestIsALine(beats, secs, |beats|);
    var (i, pp) := (NearestBeatIndex(beats, secs).value, PartitionPoint(beats, secs));
    assert !Nearer(beats[i], beats[k], secs);
    if k < i {
      assert Nearer(beats[k], beats[i], secs) || beats[k] == beats[i];
    } else if i < k {
      assert Nearer(beats[k], beats[i], secs) && beats[i] <= beats[k];
    }
  }

  // ----- The region of a reverse loop -----

  datatype Region = Region(lin: real, lout: real)

  /** `value` in whole beats, if that is an index up to `max`. */
  function WholeBeatsIndex(value: real, max: nat): Option<nat> {
    if value < 0.0 || value.Floor > max then None else Some(value.Floor)
  }

  const WHOLE_TOLERANCE: real := 0.000000001

  predicate IsWhole(lengthBeats: real)
    requires lengthBeats > 0.0
  {
    Abs(lengthBeats - Rounded(lengthBeats) as real) < WHOLE_TOLERANCE
  }

  function WholeRegion(beats: seq<real>, nearest: nat, len: nat): Option<Region> {
    if len == 0 || |beats| < len + 1 then None
    else
      var out := ClampIndex(nearest, len, |beats| - 1);
      if beats[out] > beats[out - len] then Some(Region(beats[out - len], beats[out])) else None
  }

  function Back(from: real, share: real, whole: real): real {
    from - share * whole
  }

  function IntervalBefore(beats: seq<real>, anchor: nat, out: nat): real
    requires 1 <= out < |beats| && anchor <= out
  {
    if anchor >= 1 then beats[anchor] - beats[anchor - 1] else beats[out] - beats[out - 1]
  }

  /** Where a loop of `lengthBeats` that ends on line `out` starts: whole beats back along the grid,
      then the rest as a share of the interval before that line. */
  function FractionalIn(beats: seq<real>, out: nat, lengthBeats: real): real
    requires 1 <= out < |beats| && 0.0 <= lengthBeats && lengthBeats.Floor <= out
  {
    var anchor := out - lengthBeats.Floor;
    Back(beats[anchor], lengthBeats - lengthBeats.Floor as real, IntervalBefore(beats, anchor, out))
  }

  function FractionalRegion(beats: seq<real>, nearest: nat, lengthBeats: real): Option<Region>
    requires nearest < |beats|
  {
    if |beats| < 2 then None
    else
      var out := if nearest > 1 then nearest else 1;
      var interval := beats[out] - beats[out - 1];
      if interval <= 0.0 then None
      else
        var back := WholeBeatsIndex(lengthBeats, out);
        if back.None? then None
        else
          var lin := FractionalIn(beats, out, lengthBeats);
          if lin < 0.0 || beats[out] <= lin then None else Some(Region(lin, beats[out]))
  }

  function ReverseLoopRegion(playhead: real, beats: seq<real>, lengthBeats: real): Option<Region> {
    if lengthBeats <= 0.0 then None
    else
      var nearest := NearestBeatIndex(beats, playhead);
      if nearest.None? then None
      else if IsWhole(lengthBeats) then
        var len := WholeBeatsIndex(Rounded(lengthBeats) as real, |beats|);
        if len.None? then None else WholeRegion(beats, nearest.value, len.value)
      else FractionalRegion(beats, nearest.value, lengthBeats)
  }

  /** Whatever the press, the grid and the length, a loop that engages has length and ends on a
      grid line. */
  lemma RegionHasLength(playhead: real, beats: seq<real>, lengthBeats: real)
    ensures var r := ReverseLoopRegion(playhead, beats, lengthBeats);
            r.Some? ==> r.value.lin < r.value.lout && r.value.lout in beats
  {
  }

  /** A fractional loop is refused where the line it would end on is no later than the one before. */
  lemma FlatLineIsRefused(playhead: real, beats: seq<real>, lengthBeats: real, nearest: nat)
    requires lengthBeats > 0.0 && !IsWhole(lengthBeats)
    requires NearestBeatIndex(beats, playhead) == Some(nearest) && |beats| >= 2 && nearest < |beats|
    ensures nearest >= 1 && beats[nearest] <= beats[nearest - 1] ==>
              ReverseLoopRegion(playhead, beats, lengthBeats) == None
    ensures nearest == 0 && beats[1] <= beats[0] ==> ReverseLoopRegion(playhead, beats, lengthBeats) == None
  {
  }

  predicate EndsAt(beats: seq<real>, playhead: real, len: nat, out: nat, r: Region)
    requires len <= out < |beats|
  {
    var line := SnappedToGrid(beats, playhead);
    r == Region(beats[out - len], beats[out]) && (beats[out] == line || (out == len && line < beats[out]))
  }

  /** A whole length covers exactly that many beats, ending at the line the app would snap to,
      moved only as far as the track's ends require; and it is refused exactly when the grid is
      too short to hold it. */
  lemma WholeLoopIsOnTheGrid(playhead: real, beats: seq<real>, len: nat)
    requires Ascending(beats) && len >= 1
    ensures var r := ReverseLoopRegion(playhead, beats, len as real);
            && (r.Some? <==> |beats| >= len + 1)
            && (r.Some? ==> exists out :: len <= out < |beats| && EndsAt(beats, playhead, len, out, r.value))
  {
    assert Rounded(len as real) == len;
    if |beats| >= len + 1 {
      AppAndEngineSnapAlike(beats, playhead);
      var nearest := NearestBeatIndex(beats, playhead).value;
      var out := ClampIndex(nearest, len, |beats| - 1);
      assert beats[out - len] < beats[out];
      assert nearest < out ==> beats[nearest] < beats[out];
      assert EndsAt(beats, playhead, len, out, Region(beats[out - len], beats[out]));
    }
  }

  function OutLine(beats: seq<real>, playhead: real): (out: nat)
    requires |beats| >= 2 && Sorted(beats)
    ensures 1 <= out < |beats|
  {
    AppAndEngineSnapAlike(beats, playhead);
    var nearest := NearestBeatIndex(beats, playhead).value;
    if nearest > 1 then nearest else 1
  }

  lemma StepBack(from: real, share: real, whole: real)
    requires 0.0 <= share < 1.0 && 0.0 < whole
    ensures from - whole < Back(from, share, whole) <= from
    ensures share != 0.0 ==> Back(from, share, whole) < from
  {
    assert (1.0 - share) * whole > 0.0;
    if share > 0.0 { assert share * whole > 0.0; }
  }

  lemma FractionalInIsBehind(beats: seq<real>, out: nat, lengthBeats: real)
    requires Ascending(beats) && 1 <= out < |beats| && 0.0 <= lengthBeats && lengthBeats.Floor <= out
    ensures var anchor := out - lengthBeats.Floor;
            && FractionalIn(beats, out, lengthBeats) <= beats[anchor]
            && (anchor >= 1 ==> beats[anchor - 1] < FractionalIn(beats, out, lengthBeats))
            && (lengthBeats != lengthBeats.Floor as real ==> FractionalIn(beats, out, lengthBeats) < beats[anchor])
  {
    var anchor := out - lengthBeats.Floor;
    var (share, whole) := (lengthBeats - lengthBeats.Floor as real, IntervalBefore(beats, anchor, out));
    assert 0.0 < whole && (anchor >= 1 ==> beats[anchor] - whole == beats[anchor - 1]);
    assert 0.0 <= share < 1.0;
    hide Back;
    StepBack(beats[anchor], share, whole);
  }

  lemma NotWholeIsMixed(x: real)
    requires x > 0.0 && !IsWhole(x)
    ensures x != x.Floor as real
  {
  }

  /** A fractional loop ends on the line nearest the press, or the track's second, and engages
      exactly when the grid reaches back far enough before it. The documentation says a window near
      the start is moved forward rather than refused; that holds for whole lengths and for lengths
      under a beat, and for a mixed length exactly when this does. */
  lemma FractionalExactly(playhead: real, beats: seq<real>, lengthBeats: real)
    requires Ascending(beats) && |beats| >= 2 && lengthBeats > 0.0 && !IsWhole(lengthBeats)
    ensures var (out, r) := (OutLine(beats, playhead), ReverseLoopRegion(playhead, beats, lengthBeats));
            && (r.Some? <==> lengthBeats.Floor <= out && FractionalIn(beats, out, lengthBeats) >= 0.0)
            && (r.Some? ==> r.value == Region(FractionalIn(beats, out, lengthBeats), beats[out]))
  {
    AppAndEngineSnapAlike(beats, playhead);
    var out := OutLine(beats, playhead);
    assert beats[out - 1] < beats[out];
    if lengthBeats.Floor <= out {
      hide FractionalIn, Back;
      NotWholeIsMixed(lengthBeats);
      FractionalInIsBehind(beats, out, lengthBeats);
      assert beats[out - lengthBeats.Floor] <= beats[out];
    }
  }

  /** A length under a beat always engages. */
  lemma SubBeatAlwaysEngages(playhead: real, beats: seq<real>, lengthBeats: real)
    requires Ascending(beats) && |beats| >= 2 && beats[0] >= 0.0
    requires 0.0 < lengthBeats < 1.0 && !IsWhole(lengthBeats)
    ensures ReverseLoopRegion(playhead, beats, lengthBeats).Some?
  {
    FractionalExactly(playhead, beats, lengthBeats);
    FractionalInIsBehind(beats, OutLine(beats, playhead), lengthBeats);
  }

  /** A grid of constant spacing. */
  predicate Even(beats: seq<real>, first: real, spacing: real) {
    0.0 < spacing && forall i :: 0 <= i < |beats| ==> beats[i] == first + i as real * spacing
  }

  lemma EvenStep(beats: seq<real>, first: real, spacing: real, i: nat, j: nat)
    requires Even(beats, first, spacing) && i <= j < |beats|
    ensures beats[j] - beats[i] == (j - i) as real * spacing
    ensures i < j ==> beats[i] < beats[j]
  {
    assert (j - i) as real * spacing == j as real * spacing - i as real * spacing;
    if i < j { assert (j - i) as real * spacing > 0.0; }
  }

  lemma EvenIsAscending(beats: seq<real>, first: real, spacing: real)
    requires Even(beats, first, spacing)
    ensures Ascending(beats)
  {
    forall i, j | 0 <= i < j < |beats| ensures beats[i] < beats[j] {
      EvenStep(beats, first, spacing, i, j);
    }
  }

  lemma EvenFraction(beats: seq<real>, first: real, spacing: real, out: nat, lengthBeats: real)
    requires Even(beats, first, spacing) && 1 <= out < |beats| && 0.0 < lengthBeats && lengthBeats.Floor <= out
    ensures beats[out] - FractionalIn(beats, out, lengthBeats) == lengthBeats * spacing
  {
    var n := lengthBeats.Floor;
    var anchor := out - n;
    EvenStep(beats, first, spacing, anchor, out);
    EvenStep(beats, first, spacing, out - 1, out);
    if anchor >= 1 { EvenStep(beats, first, spacing, anchor - 1, anchor); }
    assert n as real * spacing + (lengthBeats - n as real) * spacing == lengthBeats * spacing;
  }

  function BeatsHeld(lengthBeats: real): real
    requires 0.0 < lengthBeats
  {
    if IsWhole(lengthBeats) then Rounded(lengthBeats) as real else lengthBeats
  }

  lemma EvenWhole(beats: seq<real>, first: real, spacing: real, nearest: nat, len: nat)
    requires Even(beats, first, spacing) && WholeRegion(beats, nearest, len).Some?
    ensures var r := WholeRegion(beats, nearest, len).value; r.lout - r.lin == len as real * spacing
  {
    var out := ClampIndex(nearest, len, |beats| - 1);
    EvenStep(beats, first, spacing, out - len, out);
  }

  lemma EvenMixed(playhead: real, beats: seq<real>, first: real, spacing: real, lengthBeats: real)
    requires Even(beats, first, spacing) && 0.0 < lengthBeats && !IsWhole(lengthBeats)
    requires ReverseLoopRegion(playhead, beats, lengthBeats).Some?
    ensures var r := ReverseLoopRegion(playhead, beats, lengthBeats).value;
            r.lout - r.lin == lengthBeats * spacing
  {
    EvenIsAscending(beats, first, spacing);
    FractionalExactly(playhead, beats, lengthBeats);
    hide Even, FractionalIn, FractionalRegion;
    EvenFraction(beats, first, spacing, OutLine(beats, playhead), lengthBeats);
  }

  /** On an even grid a loop is as long as it says: its beats times the spacing. */
  lemma EvenGridLength(playhead: real, beats: seq<real>, first: real, spacing: real, lengthBeats: real)
    requires Even(beats, first, spacing) && 0.0 < lengthBeats
    requires ReverseLoopRegion(playhead, beats, lengthBeats).Some?
    ensures var r := ReverseLoopRegion(playhead, beats, lengthBeats).value;
            r.lout - r.lin == BeatsHeld(lengthBeats) * spacing
  {
    hide Even, WholeRegion, FractionalRegion;
    if IsWhole(lengthBeats) {
      EvenWhole(beats, first, spacing, NearestBeatIndex(beats, playhead).value, Rounded(lengthBeats));
    } else {
      EvenMixed(playhead, beats, first, spacing, lengthBeats);
    }
  }

  /** Two and a half beats pressed on the second line of an even grid are refused, where three are
      moved forward to fit. */
  lemma MixedLengthIsNotMovedForward()
    ensures var grid := [0.0, 1.0, 2.0, 3.0, 4.0];
            && ReverseLoopRegion(1.0, grid, 2.5).None?
            && ReverseLoopRegion(1.0, grid, 3.0) == Some(Region(0.0, 3.0))
  {
    var grid := [0.0, 1.0, 2.0, 3.0, 4.0];
    assert PartitionPoint(grid, 1.0) == 1;
    assert Rounded(2.5) == 3 && Rounded(3.0) == 3;
  }

  // ----- Keeping the playhead in the loop -----

  function Ceiling(x: real): int {
    -((-x).Floor)
  }

  /** `k` times round the loop. */
  function Turns(k: int, len: real): real {
    k as real * len
  }

  /** The audio thread's wrap, on engaging and after every sample. */
  function WrapInto(pos: real, lo: real, len: real): real {
    if len <= 0.0 then pos
    else if pos >= lo + len then pos - Turns(((pos - lo) / len).Floor, len)
    else if pos < lo then pos + Turns(Ceiling((lo - pos) / len), len)
    else pos
  }

  /** The fold the published playhead takes between polls. */
  function LoopStateWrap(secs: real, lo: real, hi: real): real {
    var len := hi - lo;
    if len <= 0.0 || lo <= secs < hi then secs
    else lo + ((secs - lo) - Turns(((secs - lo) / len).Floor, len))
  }

  predicate InWindow(x: real, lo: real, len: real) {
    lo <= x < lo + len
  }

  lemma TurnsAdd(j: int, k: int, len: real)
    ensures Turns(j + k, len) == Turns(j, len) + Turns(k, len)
    ensures Turns(-k, len) == -Turns(k, len)
  {
  }

  lemma Remainder(d: real, q: real, k: int, len: real)
    requires 0.0 < len && k as real <= q < k as real + 1.0 && q * len == d
    ensures 0.0 <= d - Turns(k, len) < len
  {
    var share := q - k as real;
    var over := share * len;
    assert over == d - Turns(k, len);
    assert 0.0 <= over < len by { StepBack(0.0, share, len); }
  }

  lemma Quotient(d: real, len: real) returns (q: real)
    requires 0.0 < len
    ensures q == d / len && q * len == d
  {
    q := d / len;
  }

  lemma FloorLands(d: real, len: real)
    requires 0.0 < len
    ensures 0.0 <= d - Turns((d / len).Floor, len) < len
  {
    hide Turns;
    var q := Quotient(d, len);
    Remainder(d, q, q.Floor, len);
  }

  lemma CeilingLands(d: real, len: real)
    requires 0.0 < len
    ensures 0.0 <= Turns(Ceiling(d / len), len) - d < len
  {
    FloorLands(-d, len);
    assert (-d) / len == -(d / len);
    TurnsAdd(0, Ceiling(d / len), len);
  }

  /** The wrapped playhead is in the loop, a whole number of loop lengths away. */
  lemma WrapLands(pos: real, lo: real, len: real) returns (k: int)
    requires 0.0 < len
    ensures InWindow(WrapInto(pos, lo, len), lo, len) && WrapInto(pos, lo, len) == pos + Turns(k, len)
  {
    k := 0;
    if pos >= lo + len {
      FloorLands(pos - lo, len);
      k := -((pos - lo) / len).Floor;
      TurnsAdd(0, -k, len);
    } else if pos < lo {
      CeilingLands(lo - pos, len);
      k := Ceiling((lo - pos) / len);
    }
  }

  lemma TurnsGrow(k: int, len: real)
    requires k >= 1 && 0.0 < len
    ensures Turns(k, len) >= len
  {
    assert (k - 1) as real * len >= 0.0;
    TurnsAdd(k - 1, 1, len);
  }

  lemma OnlyOneTurn(x: real, k: int, lo: real, len: real)
    requires 0.0 < len && InWindow(x, lo, len) && InWindow(x + Turns(k, len), lo, len)
    ensures Turns(k, len) == 0.0
  {
    hide Turns;
    TurnsAdd(0, k, len);
    if k >= 1 { TurnsGrow(k, len); } else if k <= -1 { TurnsGrow(-k, len); } else { TurnsAdd(0, 0, len); }
  }

  /** A position in the loop a whole number of lengths from `pos` is where `pos` wraps to. */
  lemma WrapIsThePlace(pos: real, lo: real, len: real, x: real, k: int)
    requires 0.0 < len && InWindow(x, lo, len) && x == pos + Turns(k, len)
    ensures WrapInto(pos, lo, len) == x
  {
    hide Turns, WrapInto;
    var j := WrapLands(pos, lo, len);
    TurnsAdd(j, -k, len);
    TurnsAdd(0, k, len);
    OnlyOneTurn(x, j - k, lo, len);
  }

  /** The interface and the audio thread fold a playhead to the same place. */
  lemma ScreenAndSoundWrapAlike(secs: real, lo: real, hi: real)
    ensures LoopStateWrap(secs, lo, hi) == WrapInto(secs, lo, hi - lo)
  {
    hide Turns;
    var len := hi - lo;
    if len > 0.0 && !(lo <= secs < hi) {
      var n := ((secs - lo) / len).Floor;
      FloorLands(secs - lo, len);
      TurnsAdd(0, n, len);
      WrapIsThePlace(secs, lo, len, LoopStateWrap(secs, lo, hi), -n);
    }
  }

  function Sum(moves: seq<real>): real {
    if moves == [] then 0.0 else Sum(moves[..|moves| - 1]) + moves[|moves| - 1]
  }

  /** A block of samples: each moves the playhead, forwards or back, and wraps it. */
  function Played(pos: real, moves: seq<real>, lo: real, len: real): real {
    if moves == [] then pos
    else WrapInto(Played(pos, moves[..|moves| - 1], lo, len) + moves[|moves| - 1], lo, len)
  }

  /** Wrapping at every sample never drifts: however long the loop runs, and however the platter
      moves, the playhead is where one wrap of the whole distance puts it. */
  lemma {:induction false} WrappingNeverDrifts(pos: real, moves: seq<real>, lo: real, len: real)
    requires 0.0 < len && InWindow(pos, lo, len)
    ensures Played(pos, moves, lo, len) == WrapInto(pos + Sum(moves), lo, len)
    ensures InWindow(Played(pos, moves, lo, len), lo, len)
  {
    if moves == [] {
      assert pos + Sum(moves) == pos;
    } else {
      hide Turns, WrapInto;
      var (before, m) := (moves[..|moves| - 1], moves[|moves| - 1]);
      WrappingNeverDrifts(pos, before, lo, len);
      var (there, total) := (Played(pos, before, lo, len), pos + Sum(before));
      var j := WrapLands(total, lo, len);
      var k := WrapLands(there + m, lo, len);
      TurnsAdd(j, k, len);
      WrapIsThePlace(total + m, lo, len, WrapInto(there + m, lo, len), j + k);
    }
  }
}
