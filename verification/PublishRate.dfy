/**
 The publish-rate guard (apple/Dub/App/ModelStores.swift, debug builds): it keeps a one-second
 window and a running tally, and reports a store that publishes too often for too long.
 */
module PublishRate {
  import opened Prelude

  const LIMIT_PER_SECOND: nat := 4
  const SUSTAIN_SECS: real := 2.0
  const REPORT_GAP_SECS: real := 10.0

  /** One publish: when, whether the deck was playing, and which fields moved. */
  datatype Note = Note(at: real, playing: bool, fields: seq<string>)

  datatype Guard = Guard(
    times: seq<real>, overSince: Option<real>, lastReport: real, changed: map<string, nat>)

  const START: Guard := Guard([], None, 0.0, map[])

  /** The entries no more than a second before `now`. */
  function Recent(times: seq<real>, now: real): seq<real> {
    if times == [] then []
    else (if now - times[0] > 1.0 then [] else [times[0]]) + Recent(times[1..], now)
  }

  function Tally(changed: map<string, nat>, fields: seq<string>): map<string, nat> {
    if fields == [] then changed
    else
      var before := Tally(changed, fields[..|fields| - 1]);
      var f := fields[|fields| - 1];
      before[f := (if f in before then before[f] else 0) + 1]
  }

  predicate Over(g: Guard, n: Note) {
    n.playing && |Recent(g.times + [n.at], n.at)| > LIMIT_PER_SECOND
  }

  predicate Reports(g: Guard, n: Note) {
    && Over(g, n)
    && n.at - (if g.overSince.Some? then g.overSince.value else n.at) >= SUSTAIN_SECS
    && n.at - g.lastReport > REPORT_GAP_SECS
  }

  function OnNote(g: Guard, n: Note): Guard {
    var times := Recent(g.times + [n.at], n.at);
    if !Over(g, n) then Guard(times, None, g.lastReport, map[])
    else Guard(times, Some(if g.overSince.Some? then g.overSince.value else n.at),
               if Reports(g, n) then n.at else g.lastReport, Tally(g.changed, n.fields))
  }

  function After(h: seq<Note>): Guard {
    if h == [] then START else OnNote(After(h[..|h| - 1]), h[|h| - 1])
  }

  /** The system uptime does not run backwards. */
  predicate Monotone(h: seq<Note>) {
    forall i, j :: 0 <= i < j < |h| ==> h[i].at <= h[j].at
  }

  function Times(h: seq<Note>): seq<real> {
    seq(|h|, i requires 0 <= i < |h| => h[i].at)
  }

  /** How many of the first `n` notes fall within the second before `now`. */
  function WindowCount(h: seq<Note>, now: real): nat {
    |Recent(Times(h), now)|
  }

  lemma {:induction false} RecentAppend(times: seq<real>, t: real, now: real)
    ensures Recent(times + [t], now) == Recent(times, now) + (if now - t > 1.0 then [] else [t])
  {
    var last := if now - t > 1.0 then [] else [t];
    if times == [] {
      assert times + [t] == [t] && [t][1..] == [];
      assert Recent([t], now) == last + [];
    } else {
      var (all, first) := (times + [t], if now - times[0] > 1.0 then [] else [times[0]]);
      assert all[0] == times[0] && all[1..] == times[1..] + [t];
      RecentAppend(times[1..], t, now);
      assert first + (Recent(times[1..], now) + last) == (first + Recent(times[1..], now)) + last;
    }
  }

  /** Dropping what was stale earlier loses nothing that is recent later. */
  lemma {:induction false} RecentOfRecent(times: seq<real>, earlier: real, now: real)
    requires earlier <= now
    ensures Recent(Recent(times, earlier), now) == Recent(times, now)
  {
    if times == [] {
    } else {
      RecentOfRecent(times[1..], earlier, now);
      var tail := Recent(times[1..], earlier);
      if earlier - times[0] <= 1.0 {
        var kept := [times[0]] + tail;
        assert kept[0] == times[0] && kept[1..] == tail;
        assert Recent(times, earlier) == kept;
      } else {
        assert Recent(times, earlier) == [] + tail == tail;
        assert Recent(times, now) == [] + Recent(times[1..], now) == Recent(times[1..], now);
      }
    }
  }

  /** The window the guard keeps is the window of the whole history. */
  lemma {:induction false} WindowIsTheWholeHistory(h: seq<Note>)
    requires Monotone(h)
    ensures h != [] ==> After(h).times == Recent(Times(h), h[|h| - 1].at)
  {
    if h == [] {
    } else {
      var (before, n) := (h[..|h| - 1], h[|h| - 1]);
      assert Times(h) == Times(before) + [n.at];
      RecentAppend(After(before).times, n.at, n.at);
      RecentAppend(Times(before), n.at, n.at);
      if before != [] {
        WindowIsTheWholeHistory(before);
        RecentOfRecent(Times(before), before[|before| - 1].at, n.at);
      } else {
        assert Times(before) == [];
      }
    }
  }

  /** Note `i` of the history was playing and above the limit when it came. */
  predicate OverAt(h: seq<Note>, i: nat)
    requires i < |h|
  {
    h[i].playing && WindowCount(h[..i + 1], h[i].at) > LIMIT_PER_SECOND
  }

  lemma OverIsOverAt(h: seq<Note>)
    requires h != [] && Monotone(h)
    ensures Over(After(h[..|h| - 1]), h[|h| - 1]) <==> OverAt(h, |h| - 1)
  {
    WindowIsTheWholeHistory(h);
    assert h[..|h| - 1 + 1] == h;
  }

  /** The times a field moved among the notes from `j` on. */
  function Moves(h: seq<Note>, j: nat, f: string): nat
    requires j <= |h|
  {
    if |h| == j then 0
    else Moves(h[..|h| - 1], j, f) + multiset(h[|h| - 1].fields)[f]
  }

  lemma {:induction false} TallyCounts(changed: map<string, nat>, fields: seq<string>, f: string)
    ensures f in Tally(changed, fields) <==> f in changed || f in fields
    ensures f in Tally(changed, fields) ==>
              Tally(changed, fields)[f] == (if f in changed then changed[f] else 0) + multiset(fields)[f]
  {
    if fields == [] {
    } else {
      var (before, last) := (fields[..|fields| - 1], fields[|fields| - 1]);
      TallyCounts(changed, before, f);
      assert fields == before + [last];
      assert f in fields <==> f in before || f == last;
    }
  }

  /** The stretch the guard is timing: it began at note `j`, every note since was over the limit,
      and the tally counts exactly what moved in it. */
  ghost predicate Stretch(h: seq<Note>, g: Guard, j: nat) {
    && j < |h| && g.overSince == Some(h[j].at)
    && (forall i :: j <= i < |h| ==> OverAt(h, i))
    && (forall f :: (f in g.changed ==> g.changed[f] == Moves(h, j, f))
                    && (f !in g.changed ==> Moves(h, j, f) == 0))
  }

  lemma StretchGrows(h: seq<Note>, g: Guard, j: nat)
    requires h != [] && j < |h| && OverAt(h, |h| - 1) && Over(g, h[|h| - 1])
    requires g.overSince.Some? ==> Stretch(h[..|h| - 1], g, j)
    requires g.overSince == None ==> g.changed == map[] && j == |h| - 1
    ensures Stretch(h, OnNote(g, h[|h| - 1]), j)
  {
    var (before, n) := (h[..|h| - 1], h[|h| - 1]);
    forall i | j <= i < |h| ensures OverAt(h, i) {
      if i < |h| - 1 { assert OverAt(before, i) && before[..i + 1] == h[..i + 1]; }
    }
    forall f
      ensures (f in Tally(g.changed, n.fields) ==> Tally(g.changed, n.fields)[f] == Moves(h, j, f))
              && (f !in Tally(g.changed, n.fields) ==> Moves(h, j, f) == 0)
    {
      TallyCounts(g.changed, n.fields, f);
      assert Moves(h, j, f) == Moves(before, j, f) + multiset(n.fields)[f];
    }
  }

  /** The guard's summary against the whole history: either the last note was not over, and it
      remembers nothing, or it is timing a stretch. */
  lemma {:induction false} SummaryMatchesHistory(h: seq<Note>) returns (j: nat)
    requires Monotone(h)
    ensures After(h).overSince == None ==> After(h).changed == map[]
    ensures After(h).overSince.Some? ==> Stretch(h, After(h), j)
    ensures After(h).overSince.Some? <==> h != [] && OverAt(h, |h| - 1)
  {
    j := 0;
    if h == [] {
    } else {
      var (before, n) := (h[..|h| - 1], h[|h| - 1]);
      var g := After(before);
      j := SummaryMatchesHistory(before);
      OverIsOverAt(h);
      if Over(g, n) {
        if g.overSince == None { j := |h| - 1; }
        StretchGrows(h, g, j);
      }
    }
  }

  /** A report means every note of the last two seconds or more was playing and over the limit,
      and it comes more than ten seconds after the one before. */
  lemma ReportMeansSustained(h: seq<Note>) returns (j: nat)
    requires h != [] && Monotone(h) && Reports(After(h[..|h| - 1]), h[|h| - 1])
    ensures j < |h| && h[|h| - 1].at - h[j].at >= SUSTAIN_SECS
    ensures forall i :: j <= i < |h| ==> OverAt(h, i)
    ensures h[|h| - 1].at - After(h[..|h| - 1]).lastReport > REPORT_GAP_SECS
    ensures After(h).lastReport == h[|h| - 1].at
  {
    j := SummaryMatchesHistory(h);
    var k := SummaryMatchesHistory(h[..|h| - 1]);
    assert After(h).overSince == After(h[..|h| - 1]).overSince;
  }

  /** The guard remembers when it last reported: two reports are more than ten seconds apart. */
  lemma {:induction false} ReportsAreApart(h: seq<Note>, i: nat)
    requires i < |h| && Reports(After(h[..i]), h[i])
    requires Monotone(h)
    ensures After(h).lastReport >= h[i].at
    ensures i < |h| - 1 && Reports(After(h[..|h| - 1]), h[|h| - 1]) ==>
              h[|h| - 1].at - h[i].at > REPORT_GAP_SECS
  {
    var before := h[..|h| - 1];
    if i == |h| - 1 {
    } else {
      assert before[..i] == h[..i];
      ReportsAreApart(before, i);
    }
  }

  /** Every note of the last two seconds or more was playing and over the limit. */
  ghost predicate SustainedAt(h: seq<Note>, i: nat)
    requires i < |h|
  {
    exists j :: 0 <= j <= i && h[i].at - h[j].at >= SUSTAIN_SECS && forall k :: j <= k <= i ==> OverAt(h, k)
  }

  /** When a report is due, said of the notes alone: the rate is sustained, and ten seconds have passed
      since every report before and since the clock's zero. */
  ghost predicate DueAt(h: seq<Note>, i: nat)
    requires i < |h|
    decreases i
  {
    && SustainedAt(h, i) && h[i].at > REPORT_GAP_SECS
    && forall k :: 0 <= k < i && DueAt(h, k) ==> h[i].at - h[k].at > REPORT_GAP_SECS
  }

  lemma OverAtPrefix(h: seq<Note>, n: nat, i: nat)
    requires i < n <= |h|
    ensures OverAt(h[..n], i) <==> OverAt(h, i)
  {
    assert h[..n][..i + 1] == h[..i + 1];
  }

  lemma SustainedPrefix(h: seq<Note>, n: nat, i: nat)
    requires i < n <= |h|
    ensures SustainedAt(h[..n], i) <==> SustainedAt(h, i)
  {
    forall k | 0 <= k <= i ensures OverAt(h[..n], k) <==> OverAt(h, k) { OverAtPrefix(h, n, k); }
    if SustainedAt(h, i) {
      var j :| 0 <= j <= i && h[i].at - h[j].at >= SUSTAIN_SECS && forall k :: j <= k <= i ==> OverAt(h, k);
      assert forall k :: j <= k <= i ==> OverAt(h[..n], k);
    }
    if SustainedAt(h[..n], i) {
      var g := h[..n];
      var j :| 0 <= j <= i && g[i].at - g[j].at >= SUSTAIN_SECS && forall k :: j <= k <= i ==> OverAt(g, k);
      assert forall k :: j <= k <= i ==> OverAt(h, k);
    }
  }

  lemma {:induction false} DuePrefix(h: seq<Note>, n: nat, i: nat)
    requires i < n <= |h|
    ensures DueAt(h[..n], i) <==> DueAt(h, i)
    decreases i
  {
    SustainedPrefix(h, n, i);
    forall k | 0 <= k < i ensures DueAt(h[..n], k) <==> DueAt(h, k) { DuePrefix(h, n, k); }
  }

  /** The guard times the longest stretch that ends at the last note. */
  lemma {:induction false} StretchIsLongest(h: seq<Note>, j: nat)
    requires Monotone(h) && j < |h| && forall k :: j <= k < |h| ==> OverAt(h, k)
    ensures After(h).overSince.Some? && After(h).overSince.value <= h[j].at
  {
    var before := h[..|h| - 1];
    var s := SummaryMatchesHistory(h);
    if j == |h| - 1 {
      if After(before).overSince.Some? { var t := SummaryMatchesHistory(before); }
    } else {
      forall k | j <= k < |before| ensures OverAt(before, k) { OverAtPrefix(h, |before|, k); }
      StretchIsLongest(before, j);
    }
  }

  lemma SustainedIsTimed(h: seq<Note>)
    requires h != [] && Monotone(h)
    ensures var (g, n) := (After(h[..|h| - 1]), h[|h| - 1]);
            SustainedAt(h, |h| - 1) <==>
              Over(g, n) && n.at - (if g.overSince.Some? then g.overSince.value else n.at) >= SUSTAIN_SECS
  {
    var (i, n) := (|h| - 1, h[|h| - 1]);
    OverIsOverAt(h);
    var j := SummaryMatchesHistory(h);
    if SustainedAt(h, i) {
      var k :| 0 <= k <= i && n.at - h[k].at >= SUSTAIN_SECS && forall l :: k <= l <= i ==> OverAt(h, l);
      StretchIsLongest(h, k);
    }
  }

  /** `last` is the time of the newest report among the first `n` notes, or the clock's zero. */
  ghost predicate LastReportIs(h: seq<Note>, n: nat, last: real)
    requires n <= |h|
  {
    && (forall k :: 0 <= k < n && DueAt(h, k) ==> h[k].at <= last)
    && (last == 0.0 || exists k :: 0 <= k < n && DueAt(h, k) && h[k].at == last)
  }

  lemma LastReportPrefix(h: seq<Note>, n: nat, last: real)
    requires n <= |h| && LastReportIs(h[..n], n, last)
    ensures LastReportIs(h, n, last)
  {
    hide DueAt;
    forall k | 0 <= k < n ensures DueAt(h[..n], k) <==> DueAt(h, k) { DuePrefix(h, n, k); }
    if last != 0.0 {
      var k :| 0 <= k < n && DueAt(h[..n], k) && h[..n][k].at == last;
      assert DueAt(h, k) && h[k].at == last;
    }
  }

  lemma ReportIsDue(h: seq<Note>)
    requires h != [] && Monotone(h) && LastReportIs(h, |h| - 1, After(h[..|h| - 1]).lastReport)
    ensures Reports(After(h[..|h| - 1]), h[|h| - 1]) <==> DueAt(h, |h| - 1)
  {
    SustainedIsTimed(h);
  }

  /** One more note: the newest report is this one, if it is due. */
  lemma LastReportMoves(h: seq<Note>, last: real)
    requires h != [] && Monotone(h) && LastReportIs(h, |h| - 1, last)
    ensures LastReportIs(h, |h|, if DueAt(h, |h| - 1) then h[|h| - 1].at else last)
  {
    hide DueAt;
    var i := |h| - 1;
    if !DueAt(h, i) && last != 0.0 {
      var k :| 0 <= k < i && DueAt(h, k) && h[k].at == last;
      assert 0 <= k < |h| && DueAt(h, k) && h[k].at == last;
    }
  }

  lemma {:induction false} LastReportIsRemembered(h: seq<Note>)
    requires Monotone(h)
    ensures LastReportIs(h, |h|, After(h).lastReport)
  {
    if h == [] {
    } else {
      hide DueAt, LastReportIs;
      var (before, i) := (h[..|h| - 1], |h| - 1);
      var last := After(before).lastReport;
      LastReportIsRemembered(before);
      LastReportPrefix(h, i, last);
      ReportIsDue(h);
      assert After(h).lastReport == if Reports(After(before), h[i]) then h[i].at else last;
      LastReportMoves(h, last);
    }
  }

  /** The guard reports a note exactly when a report is due: it misses none, and makes up none. */
  lemma ReportsExactlyWhenDue(h: seq<Note>, i: nat)
    requires Monotone(h) && i < |h|
    ensures Reports(After(h[..i]), h[i]) <==> DueAt(h, i)
  {
    hide DueAt, LastReportIs, Reports;
    var upTo := h[..i + 1];
    assert upTo[..i] == h[..i];
    LastReportIsRemembered(h[..i]);
    LastReportPrefix(upTo, i, After(h[..i]).lastReport);
    ReportIsDue(upTo);
    DuePrefix(h, i + 1, i);
  }

  /** The guard, noting in place. */
  class PublishRateGuard {
    var times: seq<real>
    var overSince: Option<real>
    var lastReport: real
    var changed: map<string, nat>

    constructor ()
      ensures State() == START
    {
      times, overSince, lastReport, changed := [], None, 0.0, map[];
    }

    ghost function State(): Guard
      reads this
    {
      Guard(times, overSince, lastReport, changed)
    }

    method NoteChange(now: real, playing: bool, fields: seq<string>) returns (reported: bool)
      modifies this
      ensures State() == OnNote(old(State()), Note(now, playing, fields))
      ensures reported <==> Reports(old(State()), Note(now, playing, fields))
    {
      times := Pruned(times + [now], now);
      if !playing || |times| <= LIMIT_PER_SECOND {
        overSince := None;
        changed := map[];
        return false;
      }
      if overSince == None { overSince := Some(now); }
      changed := Counted(changed, fields);
      if now - overSince.value < SUSTAIN_SECS || now - lastReport <= REPORT_GAP_SECS {
        return false;
      }
      lastReport := now;
      return true;
    }

    static method Pruned(all: seq<real>, now: real) returns (kept: seq<real>)
      ensures kept == Recent(all, now)
    {
      kept := [];
      for i := 0 to |all|
        invariant kept == Recent(all[..i], now)
      {
        RecentAppend(all[..i], all[i], now);
        assert all[..i] + [all[i]] == all[..i + 1];
        if now - all[i] <= 1.0 { kept := kept + [all[i]]; }
      }
      assert all[..|all|] == all;
    }

    static method Counted(was: map<string, nat>, fields: seq<string>) returns (counts: map<string, nat>)
      ensures counts == Tally(was, fields)
    {
      counts := was;
      for i := 0 to |fields|
        invariant counts == Tally(was, fields[..i])
      {
        var f := fields[i];
        assert fields[..i + 1][..i] == fields[..i];
        counts := counts[f := (if f in counts then counts[f] else 0) + 1];
      }
      assert fields[..|fields|] == fields;
    }
  }
}
