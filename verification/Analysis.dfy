/**
 Library analysis on the main actor (apple/Dub/MainView.swift): lazy analyses started by loads
 and polls, and batches that walk a selection, all sharing one in-flight set and one footer.

 A step is what runs between two suspension points. Tracks analyse off the actor for as long as
 they like; their landings come in any order.
 */
module Analysis {
  type Track = string

  const MAX_WAIT_TICKS: nat := 200

  datatype Outcome = Analysed | GaveUp

  /** Where a batch is suspended. `Finished` keeps the footer's two counters as they stood when
      the batch reset them. */
  datatype Phase =
    | Showing
    | Asleep(index: nat, ticks: nat)
    | Working(index: nat)
    | Finished(completed: nat, total: nat)

  datatype Batch = Batch(ids: seq<Track>, phase: Phase, outcomes: seq<Outcome>)

  datatype Model = Model(
    analyzing: set<Track>,
    inFlight: nat,
    total: nat,
    completed: nat,
    lazy: multiset<Track>,
    batches: map<nat, Batch>)

  const IDLE: Model := Model({}, 0, 0, 0, multiset{}, map[])

  datatype Step =
    | EnsureAnalyzed(track: Track, libraryIsOpen: bool, analyzed: bool)
    | LazyLanded(track: Track)
    | StartBatch(batch: nat, ids: seq<Track>, libraryIsOpen: bool)
    | Resume(batch: nat)

  function Begin(m: Model, t: Track): Model {
    m.(analyzing := m.analyzing + {t}, inFlight := m.inFlight + 1)
  }

  function Landed(m: Model, t: Track): Model {
    m.(analyzing := m.analyzing - {t}, inFlight := if m.inFlight > 0 then m.inFlight - 1 else 0)
  }

  /** The loop head of a batch at entry `i`. */
  function Enter(m: Model, b: nat, batch: Batch, i: nat): Model {
    if i >= |batch.ids| then
      var done := batch.(phase := Finished(m.completed, m.total));
      m.(batches := m.batches[b := done], total := 0, completed := 0)
    else if batch.ids[i] in m.analyzing then
      m.(batches := m.batches[b := batch.(phase := Asleep(i, 0))])
    else
      Begin(m.(batches := m.batches[b := batch.(phase := Working(i))]), batch.ids[i])
  }

  /** Entry `i` is settled: count it and go to the next. */
  function Settle(m: Model, b: nat, batch: Batch, i: nat, o: Outcome): Model {
    Enter(m.(completed := m.completed + 1), b, batch.(outcomes := batch.outcomes + [o]), i + 1)
  }

  function ResumeBatch(m: Model, b: nat, batch: Batch): Model {
    match batch.phase
    case Showing => Enter(m, b, batch, 0)
    case Asleep(i, ticks) =>
      if i < |batch.ids| && batch.ids[i] in m.analyzing then
        if ticks + 1 < MAX_WAIT_TICKS then
          m.(batches := m.batches[b := batch.(phase := Asleep(i, ticks + 1))])
        else Settle(m, b, batch, i, GaveUp)
      else Enter(m, b, batch, i)
    case Working(i) =>
      if i < |batch.ids| then Settle(Landed(m, batch.ids[i]), b, batch, i, Analysed) else m
    case Finished(_, _) => m
  }

  function Do(m: Model, s: Step): Model {
    match s
    case EnsureAnalyzed(t, open, analyzed) =>
      if !open || t in m.analyzing || analyzed then m
      else Begin(m.(lazy := m.lazy + multiset{t}), t)
    case LazyLanded(t) =>
      if t in m.lazy then Landed(m.(lazy := m.lazy - multiset{t}), t) else m
    case StartBatch(b, ids, open) =>
      if !open || ids == [] || b in m.batches then m
      else m.(batches := m.batches[b := Batch(ids, Showing, [])], total := |ids|, completed := 0)
    case Resume(b) => if b in m.batches then ResumeBatch(m, b, m.batches[b]) else m
  }

  function Run(m: Model, steps: seq<Step>): Model
    decreases |steps|
  {
    if steps == [] then m else Run(Do(m, steps[0]), steps[1..])
  }

  // ----- One analysis per track -----

  /** Batch `b` is running an analysis of `t`. */
  predicate Runs(m: Model, b: nat, t: Track) {
    b in m.batches && m.batches[b].phase.Working?
    && m.batches[b].phase.index < |m.batches[b].ids|
    && m.batches[b].ids[m.batches[b].phase.index] == t
  }

  /** At most one analysis of `t` is running, lazy or batch, and it is in the set exactly while
      one is. */
  ghost predicate Exclusive(m: Model, t: Track) {
    && m.lazy[t] <= 1
    && (forall b, c :: Runs(m, b, t) && Runs(m, c, t) ==> b == c)
    && (forall b :: Runs(m, b, t) ==> m.lazy[t] == 0)
    && (t in m.analyzing <==> m.lazy[t] == 1 || exists b :: Runs(m, b, t))
  }

  /** A batch's outcomes are those of the entries before the one it is at. */
  predicate InOrder(batch: Batch) {
    match batch.phase
    case Showing => batch.outcomes == []
    case Asleep(i, ticks) => |batch.outcomes| == i < |batch.ids| && ticks < MAX_WAIT_TICKS
    case Working(i) => |batch.outcomes| == i < |batch.ids|
    case Finished(_, _) => |batch.outcomes| == |batch.ids|
  }

  ghost predicate Inv(m: Model) {
    && m.inFlight == |m.analyzing|
    && (forall t :: Exclusive(m, t))
    && (forall b | b in m.batches :: InOrder(m.batches[b]))
  }

  /** The model between two entries of batch `b`: it runs nothing. */
  ghost predicate Between(m: Model, b: nat, batch: Batch, i: nat) {
    && m.inFlight == |m.analyzing|
    && (forall t :: Exclusive(m.(batches := m.batches - {b}), t))
    && (forall c | c in m.batches && c != b :: InOrder(m.batches[c]))
    && |batch.outcomes| == i <= |batch.ids|
  }

  lemma StartKeepsInv(m: Model, b: nat, batch: Batch, i: nat)
    requires Between(m, b, batch, i) && i < |batch.ids| && batch.ids[i] !in m.analyzing
    ensures Inv(Enter(m, b, batch, i))
  {
    var n := Enter(m, b, batch, i);
    var (others, mine) := (m.(batches := m.batches - {b}), batch.ids[i]);
    assert Exclusive(others, mine) && Runs(n, b, mine);
    forall t ensures Exclusive(n, t) {
      assert Exclusive(others, t);
      assert forall c :: Runs(n, c, t) <==> Runs(others, c, t) || (c == b && t == mine);
    }
  }

  lemma EnterKeepsInv(m: Model, b: nat, batch: Batch, i: nat)
    requires Between(m, b, batch, i)
    ensures Inv(Enter(m, b, batch, i))
  {
    if i < |batch.ids| && batch.ids[i] !in m.analyzing {
      StartKeepsInv(m, b, batch, i);
    } else {
      var n := Enter(m, b, batch, i);
      var others := m.(batches := m.batches - {b});
      forall t ensures Exclusive(n, t) {
        assert Exclusive(others, t);
        assert forall c :: Runs(n, c, t) <==> Runs(others, c, t);
      }
    }
  }

  lemma SettleIsBetween(m: Model, b: nat, i: nat)
    requires Inv(m) && b in m.batches && m.batches[b].phase == Working(i)
    ensures var batch := m.batches[b];
            i < |batch.ids|
            && Between(Landed(m, batch.ids[i]).(completed := m.completed + 1), b,
                       batch.(outcomes := batch.outcomes + [Analysed]), i + 1)
  {
    var batch := m.batches[b];
    var mine := batch.ids[i];
    var n := Landed(m, mine).(completed := m.completed + 1);
    var others := n.(batches := n.batches - {b});
    assert Runs(m, b, mine) && Exclusive(m, mine);
    forall t ensures Exclusive(others, t) {
      assert Exclusive(m, t);
      assert forall c :: Runs(others, c, t) <==> c != b && Runs(m, c, t);
    }
  }

  lemma WaitingIsBetween(m: Model, b: nat)
    requires Inv(m) && b in m.batches && !m.batches[b].phase.Working?
    ensures forall t :: Exclusive(m.(batches := m.batches - {b}), t)
  {
    var others := m.(batches := m.batches - {b});
    forall t ensures Exclusive(others, t) {
      assert Exclusive(m, t);
      assert forall c :: Runs(others, c, t) <==> Runs(m, c, t);
    }
  }

  lemma QuietBatchKeepsInv(m: Model, n: Model, b: nat)
    requires Inv(m) && n.analyzing == m.analyzing && n.inFlight == m.inFlight && n.lazy == m.lazy
    requires b in n.batches && n.batches == m.batches[b := n.batches[b]]
    requires InOrder(n.batches[b]) && !n.batches[b].phase.Working?
    requires b in m.batches ==> !m.batches[b].phase.Working?
    ensures Inv(n)
  {
    forall t ensures Exclusive(n, t) {
      assert Exclusive(m, t);
      assert forall c :: Runs(n, c, t) <==> Runs(m, c, t);
    }
  }

  lemma ResumeKeepsInv(m: Model, b: nat)
    requires Inv(m) && b in m.batches
    ensures Inv(ResumeBatch(m, b, m.batches[b]))
  {
    var batch := m.batches[b];
    assert InOrder(batch);
    match batch.phase
    case Showing =>
      WaitingIsBetween(m, b);
      EnterKeepsInv(m, b, batch, 0);
    case Asleep(i, ticks) =>
      WaitingIsBetween(m, b);
      if batch.ids[i] !in m.analyzing {
        EnterKeepsInv(m, b, batch, i);
      } else if ticks + 1 < MAX_WAIT_TICKS {
        QuietBatchKeepsInv(m, ResumeBatch(m, b, batch), b);
      } else {
        var counted := m.(completed := m.completed + 1);
        assert counted.(batches := counted.batches - {b}).lazy == m.lazy;
        forall t ensures Exclusive(counted.(batches := counted.batches - {b}), t) {
          var (x, y) := (counted.(batches := counted.batches - {b}), m.(batches := m.batches - {b}));
          assert Exclusive(y, t);
          assert forall c :: Runs(x, c, t) <==> Runs(y, c, t);
        }
        EnterKeepsInv(counted, b, batch.(outcomes := batch.outcomes + [GaveUp]), i + 1);
      }
    case Working(i) =>
      SettleIsBetween(m, b, i);
      EnterKeepsInv(Landed(m, batch.ids[i]).(completed := m.completed + 1), b,
                    batch.(outcomes := batch.outcomes + [Analysed]), i + 1);
    case Finished(_, _) =>
  }

  lemma LazyBeginKeepsInv(m: Model, t: Track)
    requires Inv(m) && t !in m.analyzing
    ensures Inv(Begin(m.(lazy := m.lazy + multiset{t}), t))
  {
    var n := Begin(m.(lazy := m.lazy + multiset{t}), t);
    assert Exclusive(m, t);
    forall x ensures Exclusive(n, x) {
      assert Exclusive(m, x);
      assert forall c :: Runs(n, c, x) <==> Runs(m, c, x);
    }
  }

  lemma LazyLandKeepsInv(m: Model, t: Track)
    requires Inv(m) && t in m.lazy
    ensures Inv(Landed(m.(lazy := m.lazy - multiset{t}), t))
  {
    var n := Landed(m.(lazy := m.lazy - multiset{t}), t);
    assert Exclusive(m, t);
    forall x ensures Exclusive(n, x) {
      assert Exclusive(m, x);
      assert forall c :: Runs(n, c, x) <==> Runs(m, c, x);
    }
  }

  lemma StepKeepsInv(m: Model, s: Step)
    requires Inv(m)
    ensures Inv(Do(m, s))
  {
    match s
    case EnsureAnalyzed(t, _, _) => if Do(m, s) != m { LazyBeginKeepsInv(m, t); }
    case LazyLanded(t) => if t in m.lazy { LazyLandKeepsInv(m, t); }
    case StartBatch(b, ids, open) =>
      if Do(m, s) != m { QuietBatchKeepsInv(m, Do(m, s), b); }
    case Resume(b) => if b in m.batches { ResumeKeepsInv(m, b); }
  }

  lemma IdleIsSound()
    ensures Inv(IDLE)
  {}

  /** In every interleaving of lazy analyses and batches, no track has two analyses running and
      the counter is the size of the set. */
  lemma {:induction false} OneAnalysisPerTrack(m: Model, steps: seq<Step>)
    requires Inv(m)
    ensures Inv(Run(m, steps))
    decreases |steps|
  {
    if steps == [] {
    } else {
      StepKeepsInv(m, steps[0]);
      OneAnalysisPerTrack(Do(m, steps[0]), steps[1..]);
    }
  }

  /** So it is in every state the app can reach from launch. */
  lemma ReachableIsSound(steps: seq<Step>)
    ensures Inv(Run(IDLE, steps))
  {
    IdleIsSound();
    OneAnalysisPerTrack(IDLE, steps);
  }

  /** The counter's guard against going below zero never decides anything: whatever lands finds
      itself counted. */
  lemma LandingIsCounted(m: Model, t: Track)
    requires Inv(m) && (t in m.lazy || exists b :: Runs(m, b, t))
    ensures t in m.analyzing && m.inFlight > 0 && Landed(m, t).inFlight == m.inFlight - 1
  {
    assert Exclusive(m, t);
    if t in m.lazy { assert m.lazy[t] > 0; }
  }

  /** A lazy analysis begins exactly when the library is open, none of the track is running and the
      track has not been analysed. */
  lemma LazyBeginsExactly(m: Model, t: Track, open: bool, analyzed: bool)
    requires Inv(m)
    ensures var n := Do(m, EnsureAnalyzed(t, open, analyzed));
            if open && t !in m.analyzing && !analyzed then
              && n.lazy == m.lazy[t := m.lazy[t] + 1] && n.analyzing == m.analyzing + {t}
              && n.inFlight == m.inFlight + 1 && n.batches == m.batches
            else n == m
  {
    assert multiset{t}[t] == 1;
  }

  // ----- One batch's footer -----

  /** Every other batch has finished, and while `b` has not, the footer counts its entries. */
  predicate Alone(m: Model, b: nat) {
    && b in m.batches
    && (forall c | c in m.batches && c != b :: m.batches[c].phase.Finished?)
    && var batch := m.batches[b];
       match batch.phase
       case Finished(completed, total) => completed == total == |batch.ids|
       case _ => m.total == |batch.ids| && m.completed == |batch.outcomes|
  }

  lemma ResumeKeepsAlone(m: Model, b: nat, c: nat)
    requires Inv(m) && Alone(m, b) && c in m.batches
    ensures Alone(Do(m, Resume(c)), b) && Do(m, Resume(c)).batches[b].ids == m.batches[b].ids
  {
    if b == c {
      assert InOrder(m.batches[b]);
    } else {
      assert m.batches[c].phase.Finished?;
    }
  }

  /** A batch no other batch overlaps counts each requested entry once, whatever lazy analyses
      do meanwhile: until it finishes the footer shows how many entries are settled, out of how
      many were asked for; and it finishes with every entry settled and the two equal. */
  lemma {:induction false} BatchCountsEachEntryOnce(m: Model, b: nat, steps: seq<Step>)
    requires Inv(m) && Alone(m, b)
    requires forall i :: 0 <= i < |steps| ==> !steps[i].StartBatch?
    ensures var n := Run(m, steps);
            && Inv(n) && Alone(n, b) && n.batches[b].ids == m.batches[b].ids
            && InOrder(n.batches[b])
    decreases |steps|
  {
    if steps == [] {
    } else {
      var s := steps[0];
      StepKeepsInv(m, s);
      if s.Resume? && s.batch in m.batches { ResumeKeepsAlone(m, b, s.batch); }
      BatchCountsEachEntryOnce(Do(m, s), b, steps[1..]);
    }
  }

  lemma StartIsAlone(m: Model, b: nat, ids: seq<Track>)
    requires Inv(m) && b !in m.batches && ids != []
    requires forall c | c in m.batches :: m.batches[c].phase.Finished?
    ensures Alone(Do(m, StartBatch(b, ids, true)), b)
  {}

  /** A batch starts exactly when the library is open and something was asked for, and takes the footer
      over; the step that finishes it takes the footer away. */
  lemma FooterBelongsToABatch(m: Model, b: nat, ids: seq<Track>, open: bool)
    requires Inv(m)
    ensures b !in m.batches ==>
              var n := Do(m, StartBatch(b, ids, open));
              if open && ids != [] then
                && n.batches == m.batches[b := Batch(ids, Showing, [])] && n.total == |ids| && n.completed == 0
                && n.analyzing == m.analyzing && n.lazy == m.lazy
              else n == m
    ensures var n := Do(m, Resume(b));
            b in m.batches && !m.batches[b].phase.Finished? && n.batches[b].phase.Finished? ==>
              n.total == 0 && n.completed == 0
  {
  }

  // ----- Batches end -----

  /** The resumptions a batch still needs at most: each entry may be slept on for all its ticks and
      then analysed after all, and one more resumption leaves the opening pause. */
  function Left(batch: Batch): nat
    requires InOrder(batch)
  {
    var (n, each) := (|batch.ids|, MAX_WAIT_TICKS + 1);
    match batch.phase
    case Showing => n * each + 1
    case Asleep(i, ticks) => (n - i - 1) * each + MAX_WAIT_TICKS - ticks + 1
    case Working(i) => (n - i - 1) * each + 1
    case Finished(_, _) => 0
  }

  lemma ResumeLeavesLess(m: Model, b: nat)
    requires b in m.batches && InOrder(m.batches[b])
    ensures var n := ResumeBatch(m, b, m.batches[b]);
            && b in n.batches && InOrder(n.batches[b]) && n.batches[b].ids == m.batches[b].ids
            && (m.batches[b].phase.Finished? || Left(n.batches[b]) < Left(m.batches[b]))
            && (m.batches[b].phase.Finished? ==> n.batches[b] == m.batches[b])
  {
  }

  function Resumptions(b: nat, steps: seq<Step>): nat {
    if steps == [] then 0
    else (if steps[0] == Resume(b) then 1 else 0) + Resumptions(b, steps[1..])
  }

  lemma OtherStepsLeaveTheBatch(m: Model, b: nat, s: Step)
    requires b in m.batches && s != Resume(b)
    ensures b in Do(m, s).batches && Do(m, s).batches[b] == m.batches[b]
  {
  }

  /** Every batch ends: whatever lands, starts and resumes in between, once it has itself been
      resumed as often as it can need, it has finished. From its start that is at most 201 times an
      entry, and once more. */
  lemma {:induction false} BatchEnds(m: Model, b: nat, steps: seq<Step>)
    requires b in m.batches && InOrder(m.batches[b])
    requires Resumptions(b, steps) >= Left(m.batches[b])
    ensures var n := Run(m, steps);
            && b in n.batches && InOrder(n.batches[b]) && n.batches[b].phase.Finished?
            && n.batches[b].ids == m.batches[b].ids
    decreases |steps|
  {
    if steps == [] {
      assert m.batches[b].phase.Finished?;
    } else if steps[0] == Resume(b) {
      ResumeLeavesLess(m, b);
      BatchEnds(Do(m, steps[0]), b, steps[1..]);
    } else {
      OtherStepsLeaveTheBatch(m, b, steps[0]);
      BatchEnds(Do(m, steps[0]), b, steps[1..]);
    }
  }

  /** The track is being analysed, lazily or by another batch, in every state of the run. */
  predicate Busy(m: Model, t: Track, steps: seq<Step>)
    decreases |steps|
  {
    t in m.analyzing && (steps == [] || Busy(Do(m, steps[0]), t, steps[1..]))
  }

  /** Batch `b` has waited so many ticks for its entry `i`. */
  predicate Sleeps(m: Model, b: nat, batch: Batch, i: nat, ticks: nat) {
    b in m.batches && m.batches[b] == batch.(phase := Asleep(i, ticks))
  }

  lemma SleepStep(m: Model, b: nat, batch: Batch, i: nat, ticks: nat, s: Step)
    requires Sleeps(m, b, batch, i, ticks) && i < |batch.ids| && batch.ids[i] in m.analyzing
    requires s == Resume(b) ==> ticks + 1 < 200
    ensures Sleeps(Do(m, s), b, batch, i, if s == Resume(b) then ticks + 1 else ticks)
  {
    if s != Resume(b) { OtherStepsLeaveTheBatch(m, b, s); }
  }

  lemma {:induction false} SleepsOn(m: Model, b: nat, batch: Batch, i: nat, ticks: nat, steps: seq<Step>)
    requires Sleeps(m, b, batch, i, ticks) && i < |batch.ids| && Busy(m, batch.ids[i], steps)
    requires ticks + Resumptions(b, steps) < 200
    ensures Sleeps(Run(m, steps), b, batch, i, ticks + Resumptions(b, steps))
    ensures batch.ids[i] in Run(m, steps).analyzing
    decreases |steps|
  {
    hide Do, Sleeps;
    if steps == [] {
    } else {
      var (n, resumed) := (Do(m, steps[0]), if steps[0] == Resume(b) then 1 else 0);
      SleepStep(m, b, batch, i, ticks, steps[0]);
      assert Busy(n, batch.ids[i], steps[1..]) && Run(m, steps) == Run(n, steps[1..]);
      assert Resumptions(b, steps) == resumed + Resumptions(b, steps[1..]);
      hide Busy, Run, Resumptions;
      SleepsOn(n, b, batch, i, ticks + resumed, steps[1..]);
    }
  }

  /** A batch that finds its next track being analysed goes to sleep on it, and from then on waits: as
      long as the track stays busy it counts nothing for a hundred and ninety-nine resumptions, and at
      the next gives that entry up. */
  lemma BusyTrackIsGivenUpOn(m: Model, b: nat, steps: seq<Step>)
    requires b in m.batches && InOrder(m.batches[b]) && m.batches[b].phase.Showing? && m.batches[b].ids != []
    requires var t := m.batches[b].ids[0];
             t in m.analyzing && Busy(Do(m, Resume(b)), t, steps) && Resumptions(b, steps) == 199
    ensures var (was, n) := (m.batches[b], Run(Do(m, Resume(b)), steps));
            && b in n.batches && n.batches[b] == was.(phase := Asleep(0, 199))
            && Do(n, Resume(b)).batches[b].outcomes == [GaveUp]
  {
    SleepsOn(Do(m, Resume(b)), b, m.batches[b], 0, 0, steps);
  }

  /** A resumption that finds the way clear starts the analysis, and counts nothing yet; a sleep begins
      with the whole wait before it. */
  lemma WaitBeginsAndEnds(m: Model, b: nat)
    requires b in m.batches && InOrder(m.batches[b]) && !m.batches[b].phase.Finished?
    ensures var (was, n) := (m.batches[b], Do(m, Resume(b)));
            && (was.phase.Asleep? && was.ids[was.phase.index] !in m.analyzing ==>
                  && n.batches[b] == was.(phase := Working(was.phase.index))
                  && n.analyzing == m.analyzing + {was.ids[was.phase.index]} && n.completed == m.completed)
            && (n.batches[b].phase.Asleep? && (was.phase.Asleep? ==> n.batches[b].phase.index != was.phase.index) ==>
                  n.batches[b].phase.ticks == 0)
  {
  }

  /** So a lone batch, from the moment it starts and whatever lazy analyses do, ends within that many
      resumptions with the footer's two numbers equal to the number asked for. */
  lemma LoneBatchEndsComplete(m: Model, b: nat, ids: seq<Track>, steps: seq<Step>)
    requires Inv(m) && b !in m.batches && ids != []
    requires forall c | c in m.batches :: m.batches[c].phase.Finished?
    requires forall i :: 0 <= i < |steps| ==> !steps[i].StartBatch?
    requires Resumptions(b, steps) >= |ids| * (MAX_WAIT_TICKS + 1) + 1
    ensures var n := Run(Do(m, StartBatch(b, ids, true)), steps);
            b in n.batches && n.batches[b].phase == Finished(|ids|, |ids|)
  {
    var started := Do(m, StartBatch(b, ids, true));
    StepKeepsInv(m, StartBatch(b, ids, true));
    StartIsAlone(m, b, ids);
    BatchEnds(started, b, steps);
    BatchCountsEachEntryOnce(started, b, steps);
  }

  /** Two batches that overlap share the footer: the second, of one track, finishes showing two
      of one. */
  lemma OverlappingBatchesShareTheFooter()
    ensures var m1 := Do(IDLE, StartBatch(0, ["x", "y"], true));
            var m2 := Do(Do(m1, Resume(0)), StartBatch(1, ["z"], true));
            var m3 := Do(Do(Do(m2, Resume(0)), Resume(1)), Resume(1));
            m3.batches[1].phase == Finished(2, 1)
  {
    var m1 := Do(IDLE, StartBatch(0, ["x", "y"], true));
    var m1' := Do(m1, Resume(0));
    assert m1'.batches[0] == Batch(["x", "y"], Working(0), []) && m1'.analyzing == {"x"};
    var m2 := Do(m1', StartBatch(1, ["z"], true));
    var m2' := Do(m2, Resume(0));
    assert m2'.batches[0].phase == Working(1) && m2'.completed == 1 && m2'.total == 1;
    assert "z"[0] != "x"[0] && "z"[0] != "y"[0];
    assert m2'.analyzing == {"y"};
    var m2'' := Do(m2', Resume(1));
    assert m2''.batches[1].phase == Working(0) && m2''.completed == 1;
  }
}
