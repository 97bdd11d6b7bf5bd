/**
 The other side of Quick Scratch: the engine facade (crates/dub-ffi/src/lib.rs, `RunningState`)
 and the audio thread (crates/dub-engine/src/lib.rs), which each keep their own park, joined to
 the view-model of `QuickScratch`.

 A buffer is known by its reference, as `Arc::ptr_eq` knows it. The audio thread's commands are
 taken as applied: the state here is the state after its queue has drained.
 */
module QuickScratchEngine {
  import opened Prelude
  import opened DeckState
  import opened QuickScratch
  import opened TrackLoad

  // ----- The facade -----

  /** Per deck: the buffer the interface reads, the view parked behind a scratch, the view
      parked behind a doubled tune; and the decoded sampler slots. */
  datatype Facade = Facade(
    file: PerDeck<Option<TrackRef>>,
    parked: PerDeck<Option<Option<TrackRef>>>,
    hostView: PerDeck<Option<Option<TrackRef>>>,
    sampler: map<nat, TrackRef>)

  const NO_REF: PerDeck<Option<TrackRef>> := PerDeck(None, None)
  const NO_VIEW: PerDeck<Option<Option<TrackRef>>> := PerDeck(None, None)
  const STOPPED_FACADE: Facade := Facade(NO_REF, NO_VIEW, NO_VIEW, map[])

  /** A tune on air goes to the idle other deck; a swap never moves it. */
  function DoubleTarget(f: Facade, side: DeckSide, thisPlaying: bool, otherPlaying: bool)
    : Option<DeckSide>
  {
    if f.parked.At(side) == None && thisPlaying && !otherPlaying && f.file.At(side).Some?
    then Some(side.Other()) else None
  }

  function FacadeEngage(f: Facade, side: DeckSide, sample: TrackRef, to: Option<DeckSide>): Facade {
    var tune := f.file.At(side);
    var f1 := if to == None then f
              else f.(parked := Put(f.parked, to.value, None),
                      hostView := Put(f.hostView, to.value, Some(f.file.At(to.value))),
                      file := Put(f.file, to.value, tune));
    var f2 := if f.parked.At(side) == None then f1.(parked := Put(f1.parked, side, Some(tune)))
              else f1;
    f2.(file := Put(f2.file, side, Some(sample)))
  }

  /** The facade's test for a doubled-back release: the other deck holds the parked buffer. */
  predicate FacadeDoubledBack(f: Facade, side: DeckSide) {
    var parked := f.parked.At(side);
    parked.Some? && parked.value.Some? && f.file.At(side.Other()) == parked.value
  }

  function FacadeRelease(f: Facade, side: DeckSide): Facade
    requires f.parked.At(side).Some?
  {
    var host := side.Other();
    var tune := f.parked.At(side).value;
    var f1 := f.(parked := Put(f.parked, side, None), hostView := Put(f.hostView, host, None));
    if FacadeDoubledBack(f, side) then
      var reverted := if f.hostView.At(host).Some? then f.hostView.At(host).value else None;
      f1.(file := Put(Put(f.file, host, reverted), side, tune))
    else
      f1.(file := Put(f.file, side, tune))
  }

  /** A load, an instant double or a live source replaces what the deck held. */
  function FacadeReplace(f: Facade, side: DeckSide, track: Option<TrackRef>): Facade {
    f.(parked := Put(f.parked, side, None), hostView := Put(f.hostView, side, None),
       file := Put(f.file, side, track))
  }

  // ----- The audio thread -----

  /** What a scratched deck holds back: its own track, the deck the tune was doubled onto, and
      what that deck held before. */
  datatype ParkedTrack = ParkedTrack(
    track: Option<TrackRef>, doubledTo: Option<DeckSide>, host: Option<Option<TrackRef>>)

  /** `sampler` is the audio thread's own slots. */
  datatype Audio = Audio(
    source: PerDeck<Option<TrackRef>>, park: PerDeck<Option<ParkedTrack>>, sampler: map<nat, TrackRef>)

  const SILENT: Audio := Audio(NO_REF, PerDeck(None, None), map[])

  function AudioSwap(a: Audio, side: DeckSide, sample: TrackRef, to: Option<DeckSide>): Audio {
    var tune := a.source.At(side);
    var a1 :=
      if a.park.At(side).Some? then a
      else if to.Some? && tune.Some? && to.value != side then
        var parked := ParkedTrack(tune, to, Some(a.source.At(to.value)));
        a.(park := Put(Put(a.park, to.value, None), side, Some(parked)),
           source := Put(a.source, to.value, tune))
      else a.(park := Put(a.park, side, Some(ParkedTrack(tune, None, None))));
    a1.(source := Put(a1.source, side, Some(sample)))
  }

  function AudioEngage(a: Audio, side: DeckSide, slot: nat, to: Option<DeckSide>): Audio {
    if slot !in a.sampler then a else AudioSwap(a, side, a.sampler[slot], to)
  }

  /** The audio thread's test: the park was doubled, and that deck still holds the tune. */
  predicate AudioDoubledBack(a: Audio, side: DeckSide) {
    var p := a.park.At(side);
    p.Some? && p.value.doubledTo.Some? && p.value.track.Some?
    && a.source.At(p.value.doubledTo.value) == p.value.track
  }

  function AudioRelease(a: Audio, side: DeckSide): Audio {
    var p := a.park.At(side);
    if p == None then a
    else
      var a1 := a.(park := Put(a.park, side, None));
      var a2 := if AudioDoubledBack(a, side) && p.value.host.Some?
                then a1.(source := Put(a1.source, p.value.doubledTo.value, p.value.host.value))
                else a1;
      a2.(source := Put(a2.source, side, p.value.track))
  }

  function AudioReplace(a: Audio, side: DeckSide, track: Option<TrackRef>): Audio {
    a.(park := Put(a.park, side, None), source := Put(a.source, side, track))
  }

  // ----- The three together -----

  /** A load between its paint and its landing: being decoded, put on the deck, or failed. */
  datatype Phase = Decoding | Installed | Failed

  datatype PendingLoad = PendingLoad(
    track: TrackRef, chip: Option<string>, grid: Option<LibraryGrid>, phase: Phase)

  /** One slot of the sample bank: its file, the file's label, and the pad it is tagged with. */
  datatype BankSlot = BankSlot(url: string, title: string, pad: Option<int>)

  type Bank = seq<Option<BankSlot>>

  function PadSlotFrom(bank: Bank, pad: int, from: nat): (named: Option<SampleSlot>)
    requires from <= |bank|
    ensures named.Some? ==>
              var slot := named.value.slot;
              && from <= slot < |bank| && bank[slot].Some? && bank[slot].value.pad == Some(pad)
              && named.value.url == Some(bank[slot].value.url)
    decreases |bank| - from
  {
    if from == |bank| then None
    else if bank[from].Some? && bank[from].value.pad == Some(pad) then
      Some(SampleSlot(from, Some(bank[from].value.title), Some(bank[from].value.url)))
    else PadSlotFrom(bank, pad, from + 1)
  }

  /** The first slot tagged with a pad, as the bank names it. */
  function PadSlot(bank: Bank, pad: int): Option<SampleSlot> {
    PadSlotFrom(bank, pad, 0)
  }

  /** `loads` are the loads in flight on each deck, oldest first. */
  datatype System = System(
    ui: Decks, ffi: Facade, audio: Audio, bank: Bank, loads: PerDeck<seq<PendingLoad>>)

  const POWER_ON: System := System(FRESH, STOPPED_FACADE, SILENT, [], PerDeck([], []))

  /** How a sampler load ends: the file does not decode, the queue has no room for the sample, or
      only none for its gain, or all is well. */
  datatype SamplerReply = Undecoded | NoRoom | NoRoomForGain | Loaded

  datatype Action =
    /** A pad, with what the decks' transports read and whether the command queue has room. */
    | Press(side: DeckSide, pad: int, now: real, thisPlaying: bool, otherPlaying: bool, accepted: bool)
    | LetGo(side: DeckSide, accepted: bool)
    | Tick(side: DeckSide, telemetry: Telemetry, now: real)
    | DoubleAcross(from: DeckSide, accepted: bool)
    /** A load, from the press to the paint; `track` is the buffer its decode will make. */
    | BeginLoad(side: DeckSide, name: string, load: PendingLoad, allowed: bool)
    /** The decode ends; `accepted` is whether it succeeded and the queue has room. */
    | InstallLoad(side: DeckSide, i: nat, accepted: bool)
    /** The load is back on the main actor. */
    | LandLoad(side: DeckSide, i: nat, row: Option<LibraryRow>)
    | GoLive(side: DeckSide, accepted: bool)
    | Annotate(side: DeckSide, next: DeckState)
    /** The sample bank is edited; the engine's slots follow in steps of their own. */
    | Rebind(bank: Bank)
    | LoadSample(samplerSlot: nat, sample: TrackRef, reply: SamplerReply)
    | ClearSample(samplerSlot: nat, accepted: bool)
    | PowerOff
    | PowerUp

  function EngageAll(s: System, side: DeckSide, pad: int, named: SampleSlot, now: real,
                     thisPlaying: bool, otherPlaying: bool, accepted: bool): System
  {
    if named.slot !in s.ffi.sampler then
      // The facade has nothing in the slot: it answers success and does nothing.
      s.(ui := Engage(s.ui, side, pad, named, now, None))
    else if !accepted then s
    else
      var to := DoubleTarget(s.ffi, side, thisPlaying, otherPlaying);
      s.(ui := Engage(s.ui, side, pad, named, now, to),
         ffi := FacadeEngage(s.ffi, side, s.ffi.sampler[named.slot], to),
         audio := AudioEngage(s.audio, side, named.slot, to))
  }

  function ReleaseAll(s: System, side: DeckSide, accepted: bool): System {
    if s.ffi.parked.At(side) == None then
      // Nothing parked here: success, and no command is sent.
      s.(ui := ReleaseAccepted(s.ui, side, None))
    else if !accepted then
      // The park is taken before the command is tried.
      s.(ffi := s.ffi.(parked := Put(s.ffi.parked, side, None)))
    else
      var from := if FacadeDoubledBack(s.ffi, side) then Some(side.Other()) else None;
      s.(ui := ReleaseAccepted(s.ui, side, from), ffi := FacadeRelease(s.ffi, side),
         audio := AudioRelease(s.audio, side))
  }

  function PressAll(s: System, a: Action): System
    requires a.Press?
  {
    var slot := PadSlot(s.bank, a.pad);
    if !s.ui.running || slot == None then s
    else if IsReleasePress(s.ui, a.side, a.pad) then ReleaseAll(s, a.side, a.accepted)
    else EngageAll(s, a.side, a.pad, slot.value, a.now, a.thisPlaying, a.otherPlaying, a.accepted)
  }

  function DoubleAll(s: System, from: DeckSide, accepted: bool): System {
    var to := from.Other();
    if !s.ui.running || !s.ui.shown.At(from).load.hasTrack then s
    else if s.ffi.file.At(from) == None then s.(ui := InstantDouble(s.ui, from, true))
    else if !accepted then s
    else s.(ui := InstantDouble(s.ui, from, true),
            ffi := FacadeReplace(s.ffi, to, s.ffi.file.At(from)),
            audio := if s.audio.source.At(from) == None then s.audio.(park := Put(s.audio.park, to, None))
                     else AudioReplace(s.audio, to, s.audio.source.At(from)))
  }

  /** The reading the poll takes of one deck, in the two places it depends on the engine. */
  function Reading(a: Audio, side: DeckSide, t: Telemetry): Telemetry {
    t.(hasTrack := a.source.At(side).Some?,
       scratchSlot := if a.park.At(side) == None then None
                      else if t.scratchSlot.Some? then t.scratchSlot else Some(0))
  }

  /** A cue, grid or library edit: the file and the scratch stay what they are. */
  function AnnotatedDeck(d: DeckState, next: DeckState): DeckState {
    next.(load := next.load.(hasTrack := d.load.hasTrack, sourceURL := d.load.sourceURL),
          isLoading := d.isLoading)
  }

  /** The deck takes `track`, or with none the live input. */
  function Replaced(s: System, side: DeckSide, track: Option<TrackRef>): System {
    s.(ffi := FacadeReplace(s.ffi, side, track), audio := AudioReplace(s.audio, side, track))
  }

  function Shown(s: System, side: DeckSide, d: DeckState): System {
    s.(ui := Edit(s.ui, side, d))
  }

  function TickAll(s: System, side: DeckSide, t: Telemetry, now: real): System {
    s.(ui := Poll(s.ui, side, Reading(s.audio, side, t), now))
  }

  function Begun(s: System, a: Action): System
    requires a.BeginLoad?
  {
    if !StartsLoad(s.ui, a.side, a.allowed) then s
    else
      var file := TrackFile(a.load.track.url, a.name);
      Shown(s, a.side, PaintedDeck(s.ui.shown.At(a.side), file, a.load.grid)).(
        loads := Put(s.loads, a.side, s.loads.At(a.side) + [a.load.(phase := Decoding)]))
  }

  /** A load that finds the engine stopped fails too. */
  function InstallAll(s: System, side: DeckSide, i: nat, accepted: bool): System {
    var loads := s.loads.At(side);
    if i >= |loads| || !loads[i].phase.Decoding? then s
    else
      var taken := accepted && s.ui.running;
      var n := if taken then Replaced(s, side, Some(loads[i].track)) else s;
      n.(loads := Put(s.loads, side, loads[i := loads[i].(phase := if taken then Installed else Failed)]))
  }

  /** What the landing of `p` leaves on a deck whose file is `file`. */
  function AfterLanding(d: DeckState, p: PendingLoad, file: Option<TrackRef>, row: Option<LibraryRow>): DeckState {
    if p.phase.Installed? then LandedDeck(d, p.chip, p.grid, file, row) else FailedDeck(d)
  }

  /** The tags are read off whatever the deck holds by now. */
  function LandAll(s: System, side: DeckSide, i: nat, row: Option<LibraryRow>): System {
    var loads := s.loads.At(side);
    if i >= |loads| || loads[i].phase.Decoding? then s
    else
      var (p, d) := (loads[i], s.ui.shown.At(side));
      Shown(s, side, AfterLanding(d, p, s.ffi.file.At(side), row)).(
        loads := Put(s.loads, side, loads[..i] + loads[i + 1..]))
  }

  function GoLiveAll(s: System, side: DeckSide, accepted: bool): System {
    var n := Shown(s, side, ClearLoadedTrack(s.ui.shown.At(side)));
    if !s.ui.running || !accepted then n else Replaced(n, side, None)
  }

  function Off(s: System): System {
    s.(ui := Stop(s.ui), ffi := STOPPED_FACADE, audio := SILENT)
  }

  function On(s: System): System {
    s.(ui := s.ui.(running := true))
  }

  function LoadSampleAll(s: System, slot: nat, sample: TrackRef, reply: SamplerReply): System {
    if !s.ui.running || reply.Undecoded? || reply.NoRoom? then s
    else
      var heard := s.(audio := s.audio.(sampler := s.audio.sampler[slot := sample]));
      if reply.NoRoomForGain? then heard
      else heard.(ffi := s.ffi.(sampler := s.ffi.sampler[slot := sample]))
  }

  function ClearSampleAll(s: System, slot: nat, accepted: bool): System {
    if !s.ui.running || !accepted then s
    else s.(ffi := s.ffi.(sampler := s.ffi.sampler - {slot}),
            audio := s.audio.(sampler := s.audio.sampler - {slot}))
  }

  function Do(s: System, a: Action): System {
    match a
    case Press(_, _, _, _, _, _) => PressAll(s, a)
    case LetGo(side, accepted) =>
      if !s.ui.running || s.ui.shown.At(side).quickScratch == None then s
      else ReleaseAll(s, side, accepted)
    case Tick(side, t, now) => TickAll(s, side, t, now)
    case DoubleAcross(from, accepted) => DoubleAll(s, from, accepted)
    case BeginLoad(_, _, _, _) => Begun(s, a)
    case InstallLoad(side, i, accepted) => InstallAll(s, side, i, accepted)
    case LandLoad(side, i, row) => LandAll(s, side, i, row)
    case GoLive(side, accepted) => GoLiveAll(s, side, accepted)
    case Annotate(side, next) => Shown(s, side, AnnotatedDeck(s.ui.shown.At(side), next))
    case Rebind(bank) => s.(bank := bank)
    case LoadSample(slot, sample, reply) => LoadSampleAll(s, slot, sample, reply)
    case ClearSample(slot, accepted) => ClearSampleAll(s, slot, accepted)
    case PowerOff => Off(s)
    case PowerUp => On(s)
  }

  function Play(s: System, actions: seq<Action>): System
    decreases |actions|
  {
    if actions == [] then s else Play(Do(s, actions[0]), actions[1..])
  }

  // ----- Agreement -----

  /** The identity names the file `track` came from, or nothing where there is none. */
  predicate Names(l: LoadIdentity, track: Option<TrackRef>) {
    l.sourceURL == Url(track) && l.hasTrack == track.Some?
  }

  predicate Describes(d: DeckState, track: Option<TrackRef>) {
    Names(d.load, track)
  }

  /** The deck shows the file of the track the facade reports, and the audio thread plays it. */
  predicate AgreesAt(s: System, side: DeckSide) {
    s.ffi.file.At(side) == s.audio.source.At(side) && Describes(s.ui.shown.At(side), s.ffi.file.At(side))
  }

  predicate Agrees(s: System) {
    AgreesAt(s, A) && AgreesAt(s, B)
  }

  /** No load is in flight on the deck. */
  predicate Quiet(s: System, side: DeckSide) {
    s.loads.At(side) == []
  }

  predicate Settled(s: System) {
    Quiet(s, A) && Quiet(s, B)
  }

  /** While a load is in flight the deck shows the file on its way: over the old track until it is
      installed, over its own from then on. */
  predicate Awaits(d: DeckState, file: Option<TrackRef>, p: PendingLoad) {
    && d.isLoading && d.load.sourceURL == Some(p.track.url)
    && (if p.phase.Installed? then file == Some(p.track) else d.load.hasTrack == file.Some?)
  }

  /** What a deck may show: what it plays, or the one load in flight. */
  predicate Shows(d: DeckState, file: Option<TrackRef>, loads: seq<PendingLoad>) {
    if loads == [] then Describes(d, file) else |loads| == 1 && Awaits(d, file, loads[0])
  }

  predicate ShowsAt(s: System, side: DeckSide) {
    && s.ffi.file.At(side) == s.audio.source.At(side)
    && Shows(s.ui.shown.At(side), s.ffi.file.At(side), s.loads.At(side))
  }

  /** The three parks of one deck hold the same tune. */
  predicate ParksAgreeAt(s: System, side: DeckSide) {
    var ffi := s.ffi.parked.At(side);
    var audio := s.audio.park.At(side);
    && ffi.Some? == audio.Some?
    && (ffi.Some? ==>
          && ffi.value == audio.value.track
          && s.ui.shown.At(side).quickScratch.Some?
          && side in s.ui.parked && Describes(s.ui.parked[side], ffi.value))
  }

  /** While a tune is doubled from `side` and the facade still keeps its host's view, the three
      host parks hold the same track. */
  predicate HostsAgreeAt(s: System, side: DeckSide) {
    var audio := s.audio.park.At(side);
    var host := side.Other();
    audio.Some? && audio.value.doubledTo.Some? ==>
      && audio.value.doubledTo == Some(host)
      && audio.value.host.Some?
      && (s.ffi.hostView.At(host).Some? ==>
            && s.ffi.hostView.At(host) == audio.value.host
            && host in s.ui.hosts && Describes(s.ui.hosts[host], audio.value.host.value))
  }

  predicate InvAt(s: System, side: DeckSide) {
    ShowsAt(s, side) && ParksAgreeAt(s, side) && HostsAgreeAt(s, side)
  }

  /** The audio thread has a sample wherever the facade says there is one. */
  predicate Inv(s: System) {
    InvAt(s, A) && InvAt(s, B) && s.ffi.sampler.Keys <= s.audio.sampler.Keys
  }

  // ----- When a press is safe -----

  /** The deck shows a scratch exactly when the facade has one parked. A load, a double or a
      live source over a scratched deck breaks this until the next poll. */
  predicate Synced(s: System, side: DeckSide) {
    s.ui.shown.At(side).quickScratch.Some? == s.ffi.parked.At(side).Some?
  }

  /** A release the facade calls doubled back is right in two cases. The scratch did double the
      tune, and the host's view is still kept, or the host was empty and nothing else is set aside
      for it. Or the scratch doubled nothing, and what is set aside for the other deck is the very
      tune that deck holds. */
  predicate HostComesBack(s: System, side: DeckSide) {
    var (host, park) := (side.Other(), s.audio.park.At(side));
    var view := s.ffi.hostView.At(host);
    FacadeDoubledBack(s.ffi, side) && park.Some? ==>
      var p := park.value;
      || (p.doubledTo.Some?
          && (view.Some?
              || (p.host == Some(None) && (host in s.ui.hosts ==> Describes(s.ui.hosts[host], None)))))
      || (p.doubledTo == None && view == Some(p.track)
          && host in s.ui.hosts && Describes(s.ui.hosts[host], p.track))
  }

  predicate SafeRelease(s: System, side: DeckSide, accepted: bool) {
    && accepted && Synced(s, side) && HostComesBack(s, side)
    && Quiet(s, side) && (FacadeDoubledBack(s.ffi, side) ==> Quiet(s, side.Other()))
  }

  /** The engine holds, in both its tables, the file the bank names in the slot. */
  predicate SlotIsTheBanks(s: System, named: SampleSlot) {
    var slot := named.slot;
    && slot in s.ffi.sampler && slot in s.audio.sampler && s.audio.sampler[slot] == s.ffi.sampler[slot]
    && named.url == Some(s.ffi.sampler[slot].url)
  }

  /** A press puts on the deck what it names there: the slot holds the bank's file, or it is empty
      and the deck plays that very file already. */
  predicate PressNamesIt(s: System, side: DeckSide, named: SampleSlot) {
    || SlotIsTheBanks(s, named)
    || (named.slot !in s.ffi.sampler && s.ffi.file.At(side).Some? && named.url == Url(s.ffi.file.At(side)))
  }

  predicate SafeEngage(s: System, side: DeckSide, named: SampleSlot, thisPlaying: bool, otherPlaying: bool) {
    && Synced(s, side) && PressNamesIt(s, side, named) && Quiet(s, side)
    && (DoubleTarget(s.ffi, side, thisPlaying, otherPlaying).Some? ==> Quiet(s, side.Other()))
  }

  predicate Safe(s: System, a: Action) {
    match a
    case Press(side, pad, _, thisPlaying, otherPlaying, accepted) =>
      var slot := PadSlot(s.bank, pad);
      s.ui.running && slot.Some? ==>
        if IsReleasePress(s.ui, side, pad) then SafeRelease(s, side, accepted)
        else SafeEngage(s, side, slot.value, thisPlaying, otherPlaying)
    case LetGo(side, accepted) =>
      s.ui.running && s.ui.shown.At(side).quickScratch.Some? ==> SafeRelease(s, side, accepted)
    case DoubleAcross(from, accepted) =>
      s.ui.running && accepted && s.ui.shown.At(from).load.hasTrack ==>
        && Quiet(s, from.Other())
        && s.ui.shown.At(from).load.sourceURL == Url(s.ffi.file.At(from))
    case LandLoad(side, i, _) =>
      var loads := s.loads.At(side);
      i < |loads| && loads[i].phase.Failed? ==> Url(s.ffi.file.At(side)) == Some(loads[i].track.url)
    case GoLive(side, accepted) =>
      Quiet(s, side) && ((s.ui.running && accepted) || s.ffi.file.At(side) == None)
    case PowerOff => Settled(s)
    case _ => true
  }

  lemma DoublingEngageKeepsInv(s: System, side: DeckSide, pad: int, slot: SampleSlot, now: real)
    requires Inv(s) && Synced(s, side) && SlotIsTheBanks(s, slot) && Settled(s)
    requires s.ffi.parked.At(side) == None && s.ffi.file.At(side).Some?
    ensures var (to, sample) := (Some(side.Other()), s.ffi.sampler[slot.slot]);
            Inv(s.(ui := Engage(s.ui, side, pad, slot, now, to),
                   ffi := FacadeEngage(s.ffi, side, sample, to),
                   audio := AudioEngage(s.audio, side, slot.slot, to)))
  {
    hide Engage;
    var host := side.Other();
    assert InvAt(s, side) && InvAt(s, host) && host.Other() == side && Quiet(s, host);
    var (to, sample) := (Some(host), s.ffi.sampler[slot.slot]);
    EngageEffect(s.ui, side, pad, slot, now, to);
    var n := s.(ui := Engage(s.ui, side, pad, slot, now, to),
                ffi := FacadeEngage(s.ffi, side, sample, to),
                audio := AudioEngage(s.audio, side, slot.slot, to));
    assert InvAt(n, side);
    assert InvAt(n, host);
  }

  lemma PlainEngageKeepsInv(s: System, side: DeckSide, pad: int, slot: SampleSlot, now: real)
    requires Inv(s) && Synced(s, side) && SlotIsTheBanks(s, slot) && Quiet(s, side)
    ensures Inv(s.(ui := Engage(s.ui, side, pad, slot, now, None),
                   ffi := FacadeEngage(s.ffi, side, s.ffi.sampler[slot.slot], None),
                   audio := AudioEngage(s.audio, side, slot.slot, None)))
  {
    hide Engage;
    var host := side.Other();
    assert InvAt(s, side) && InvAt(s, host) && host.Other() == side;
    EngageEffect(s.ui, side, pad, slot, now, None);
    var n := s.(ui := Engage(s.ui, side, pad, slot, now, None),
                ffi := FacadeEngage(s.ffi, side, s.ffi.sampler[slot.slot], None),
                audio := AudioEngage(s.audio, side, slot.slot, None));
    assert InvAt(n, side);
    assert InvAt(n, host);
  }

  lemma EmptyEngageKeepsInv(s: System, side: DeckSide, pad: int, slot: SampleSlot, now: real)
    requires Inv(s) && Quiet(s, side) && slot.slot !in s.ffi.sampler
    requires s.ffi.file.At(side).Some? && slot.url == Url(s.ffi.file.At(side))
    ensures Inv(s.(ui := Engage(s.ui, side, pad, slot, now, None)))
  {
    hide Engage;
    var host := side.Other();
    assert InvAt(s, side) && InvAt(s, host) && host.Other() == side;
    EngageEffect(s.ui, side, pad, slot, now, None);
    var n := s.(ui := Engage(s.ui, side, pad, slot, now, None));
    assert InvAt(n, side);
    assert InvAt(n, host);
  }

  lemma EngageKeepsInv(s: System, side: DeckSide, pad: int, slot: SampleSlot, now: real,
                       thisPlaying: bool, otherPlaying: bool, accepted: bool)
    requires Inv(s) && SafeEngage(s, side, slot, thisPlaying, otherPlaying)
    ensures Inv(EngageAll(s, side, pad, slot, now, thisPlaying, otherPlaying, accepted))
  {
    if slot.slot !in s.ffi.sampler {
      EmptyEngageKeepsInv(s, side, pad, slot, now);
    } else if accepted {
      if DoubleTarget(s.ffi, side, thisPlaying, otherPlaying) == None {
        PlainEngageKeepsInv(s, side, pad, slot, now);
      } else {
        DoublingEngageKeepsInv(s, side, pad, slot, now);
      }
    }
  }

  lemma DoubledReleaseKeepsInvAt(s: System, side: DeckSide, x: DeckSide)
    requires Inv(s) && SafeRelease(s, side, true) && FacadeDoubledBack(s.ffi, side)
    requires s.ui.shown.At(side).quickScratch.Some?
    ensures InvAt(ReleaseAll(s, side, true), x)
  {
    hide ReleaseAccepted;
    var host := side.Other();
    assert InvAt(s, side) && InvAt(s, host) && host.Other() == side && Quiet(s, host);
    ReleaseEffect(s.ui, side, Some(host));
    assert x == side || x == host;
  }

  lemma DoubledReleaseKeepsInv(s: System, side: DeckSide)
    requires Inv(s) && SafeRelease(s, side, true) && FacadeDoubledBack(s.ffi, side)
    requires s.ui.shown.At(side).quickScratch.Some?
    ensures Inv(ReleaseAll(s, side, true))
  {
    DoubledReleaseKeepsInvAt(s, side, A);
    DoubledReleaseKeepsInvAt(s, side, B);
  }

  lemma PlainReleaseKeepsInv(s: System, side: DeckSide)
    requires Inv(s) && SafeRelease(s, side, true) && !FacadeDoubledBack(s.ffi, side)
    requires s.ui.shown.At(side).quickScratch.Some?
    ensures Inv(ReleaseAll(s, side, true))
  {
    hide ReleaseAccepted;
    var host := side.Other();
    assert InvAt(s, side) && InvAt(s, host) && host.Other() == side;
    ReleaseEffect(s.ui, side, None);
    var n := ReleaseAll(s, side, true);
    assert InvAt(n, side);
    assert InvAt(n, host);
  }

  lemma ReleaseKeepsInv(s: System, side: DeckSide)
    requires Inv(s) && SafeRelease(s, side, true)
    requires s.ui.shown.At(side).quickScratch.Some?
    ensures Inv(ReleaseAll(s, side, true))
  {
    if FacadeDoubledBack(s.ffi, side) {
      DoubledReleaseKeepsInv(s, side);
    } else {
      PlainReleaseKeepsInv(s, side);
    }
  }

  /** A poll never touches what the deck names, but for the flag that says a track is there. */
  lemma TickNames(s: System, side: DeckSide, t: Telemetry, now: real)
    requires s.ui.running
    ensures var (d, n) := (s.ui.shown.At(side), TickAll(s, side, t, now));
            && n.ui.running && n.ui.shown.At(side.Other()) == s.ui.shown.At(side.Other())
            && n.ui.shown.At(side).load.sourceURL == d.load.sourceURL
            && n.ui.shown.At(side).load.hasTrack == s.audio.source.At(side).Some?
            && n.ui.shown.At(side).isLoading == d.isLoading
  {
    hide PolledLoad;
    PollEffect(s.ui, side, Reading(s.audio, side, t), now);
  }

  lemma TickKeepsInvAt(s: System, side: DeckSide, t: Telemetry, now: real, x: DeckSide)
    requires Inv(s) && s.ui.running
    ensures InvAt(TickAll(s, side, t, now), x)
  {
    hide Poll, PolledLoad, SameTrack;
    assert InvAt(s, x) && (x == side || x == side.Other());
    TickNames(s, side, t, now);
    PollEffect(s.ui, side, Reading(s.audio, side, t), now);
  }

  lemma TickKeepsInv(s: System, side: DeckSide, t: Telemetry, now: real)
    requires Inv(s)
    ensures Inv(TickAll(s, side, t, now))
  {
    if s.ui.running {
      TickKeepsInvAt(s, side, t, now, A);
      TickKeepsInvAt(s, side, t, now, B);
    } else {
      assert TickAll(s, side, t, now) == s;
    }
  }

  lemma DoubleKeepsInv(s: System, from: DeckSide, accepted: bool)
    requires Inv(s) && Safe(s, DoubleAcross(from, accepted))
    ensures Inv(DoubleAll(s, from, accepted))
  {
    var to := from.Other();
    assert InvAt(s, from) && InvAt(s, to) && to.Other() == from;
    var n := DoubleAll(s, from, accepted);
    assert InvAt(n, from) && InvAt(n, to);
  }

  lemma ReplaceKeepsInv(s: System, side: DeckSide, next: DeckState, track: Option<TrackRef>)
    requires Inv(s) && Describes(next, track) && Quiet(s, side)
    ensures Inv(Replaced(Shown(s, side, next), side, track))
  {
    var host := side.Other();
    assert InvAt(s, side) && InvAt(s, host) && host.Other() == side;
    var n := Replaced(Shown(s, side, next), side, track);
    assert InvAt(n, side) && InvAt(n, host);
  }

  /** A paint and what is said of the loads, with nothing moved in the engine. */
  lemma RepaintKeepsInv(s: System, side: DeckSide, next: DeckState, loads: seq<PendingLoad>)
    requires Inv(s) && Shows(next, s.ffi.file.At(side), loads)
    ensures Inv(Shown(s, side, next).(loads := Put(s.loads, side, loads)))
  {
    var n := Shown(s, side, next).(loads := Put(s.loads, side, loads));
    assert InvAt(s, side) && InvAt(s, side.Other());
    assert InvAt(n, side) && InvAt(n, side.Other());
  }

  lemma AnnotateKeepsInv(s: System, side: DeckSide, next: DeckState)
    requires Inv(s)
    ensures Inv(Do(s, Annotate(side, next)))
  {
    assert InvAt(s, side) && Put(s.loads, side, s.loads.At(side)) == s.loads;
    hide Inv, InvAt;
    RepaintKeepsInv(s, side, AnnotatedDeck(s.ui.shown.At(side), next), s.loads.At(side));
  }

  lemma PaintKeepsInv(s: System, side: DeckSide, file: TrackFile, p: PendingLoad)
    requires Inv(s) && Quiet(s, side) && p.phase.Decoding? && p.track.url == file.url
    ensures Inv(Shown(s, side, PaintedDeck(s.ui.shown.At(side), file, p.grid)).(loads := Put(s.loads, side, [p])))
  {
    var d := s.ui.shown.At(side);
    assert InvAt(s, side);
    hide Inv, InvAt, PaintedDeck, Edit, Put;
    PaintNames(d, file, p.grid);
    RepaintKeepsInv(s, side, PaintedDeck(d, file, p.grid), [p]);
  }

  lemma BeginKeepsInv(s: System, a: Action)
    requires a.BeginLoad? && Inv(s)
    ensures Inv(Begun(s, a))
  {
    if StartsLoad(s.ui, a.side, a.allowed) {
      assert Quiet(s, a.side) by { assert InvAt(s, a.side); }
      hide Inv, InvAt, PaintedDeck, Edit;
      var p := a.load.(phase := Decoding);
      assert s.loads.At(a.side) + [p] == [p];
      PaintKeepsInv(s, a.side, TrackFile(a.load.track.url, a.name), p);
    }
  }

  /** A load begins if and only if nothing forbids it, the engine runs and the deck waits for none; it
      joins those in flight there, and the engine hears nothing of it yet. */
  lemma LoadBeginsExactly(s: System, side: DeckSide, name: string, load: PendingLoad, allowed: bool)
    ensures var n := Do(s, BeginLoad(side, name, load, allowed));
            var d := n.ui.shown.At(side);
            && n.ffi == s.ffi && n.audio == s.audio && n.loads.At(side.Other()) == s.loads.At(side.Other())
            && (if allowed && s.ui.running && !s.ui.shown.At(side).isLoading then
                  && n.loads.At(side) == s.loads.At(side) + [PendingLoad(load.track, load.chip, load.grid, Decoding)]
                  && d.isLoading && d.load.sourceURL == Some(load.track.url) && d.load.displayName == Some(name)
                else n == s)
  {
    hide PaintedDeck;
    PaintNames(s.ui.shown.At(side), TrackFile(load.track.url, name), load.grid);
  }

  lemma InstallKeepsInv(s: System, side: DeckSide, i: nat, accepted: bool)
    requires Inv(s)
    ensures Inv(InstallAll(s, side, i, accepted))
  {
    var (n, host, loads) := (InstallAll(s, side, i, accepted), side.Other(), s.loads.At(side));
    assert InvAt(s, side) && InvAt(s, host) && host.Other() == side;
    if i < |loads| && loads[i].phase.Decoding? {
      assert n.loads.At(side) == [loads[0].(phase := n.loads.At(side)[0].phase)];
      assert InvAt(n, side);
      assert InvAt(n, host);
    }
  }

  /** What a landing writes on the system: no name, and nothing in the engine. */
  lemma LandEffect(s: System, side: DeckSide, i: nat, row: Option<LibraryRow>)
    requires i < |s.loads.At(side)| && !s.loads.At(side)[i].phase.Decoding?
    ensures var (p, d, n) := (s.loads.At(side)[i], s.ui.shown.At(side), LandAll(s, side, i, row));
            && n.ffi == s.ffi && n.audio == s.audio && n.ui.running == s.ui.running
            && n.loads.At(side) == s.loads.At(side)[..i] + s.loads.At(side)[i + 1..]
            && n.ui.shown.At(side).load.sourceURL == d.load.sourceURL
            && n.ui.shown.At(side).load.hasTrack == (p.phase.Installed? || d.load.hasTrack)
            && !n.ui.shown.At(side).isLoading && n.ui.shown.At(side).quickScratch == d.quickScratch
  {
    hide LandedDeck;
    var (d, p) := (s.ui.shown.At(side), s.loads.At(side)[i]);
    LandingInherits(d, p.chip, p.grid, s.ffi.file.At(side), row);
  }

  /** The end of a decode writes nothing on the deck. */
  lemma InstallEffect(s: System, side: DeckSide, i: nat, accepted: bool)
    requires i < |s.loads.At(side)|
    ensures var (p, n) := (s.loads.At(side)[i], InstallAll(s, side, i, accepted));
            var taken := p.phase.Decoding? && accepted && s.ui.running;
            && n.ui == s.ui && |n.loads.At(side)| == |s.loads.At(side)|
            && n.loads.At(side) == s.loads.At(side)[i := n.loads.At(side)[i]]
            && !n.loads.At(side)[i].phase.Decoding?
            && n.ffi.file == (if taken then Put(s.ffi.file, side, Some(p.track)) else s.ffi.file)
            && n.audio.source == (if taken then Put(s.audio.source, side, Some(p.track)) else s.audio.source)
  {
  }

  lemma LandedShows(d: DeckState, p: PendingLoad, file: Option<TrackRef>, row: Option<LibraryRow>)
    requires Awaits(d, file, p) && (p.phase.Installed? || Url(file) == Some(p.track.url))
    ensures Shows(AfterLanding(d, p, file, row), file, [])
  {
    hide LandedDeck;
    LandingInherits(d, p.chip, p.grid, file, row);
  }

  lemma LandKeepsInv(s: System, side: DeckSide, i: nat, row: Option<LibraryRow>)
    requires Inv(s) && Safe(s, LandLoad(side, i, row))
    ensures Inv(LandAll(s, side, i, row))
  {
    var (loads, d, file) := (s.loads.At(side), s.ui.shown.At(side), s.ffi.file.At(side));
    assert InvAt(s, side);
    if i < |loads| && !loads[i].phase.Decoding? {
      var p := loads[0];
      assert loads == [p] && loads[..i] + loads[i + 1..] == [];
      LandedShows(d, p, file, row);
      hide Inv, InvAt, AfterLanding, Shows;
      RepaintKeepsInv(s, side, AfterLanding(d, p, file, row), []);
    }
  }

  lemma GoLiveKeepsInv(s: System, side: DeckSide, accepted: bool)
    requires Inv(s) && Safe(s, GoLive(side, accepted))
    ensures Inv(GoLiveAll(s, side, accepted))
  {
    var cleared := ClearLoadedTrack(s.ui.shown.At(side));
    assert InvAt(s, side);
    if s.ui.running && accepted {
      ReplaceKeepsInv(s, side, cleared, None);
    } else {
      assert Put(s.loads, side, []) == s.loads;
      RepaintKeepsInv(s, side, cleared, []);
    }
  }

  lemma PressKeepsInv(s: System, a: Action)
    requires a.Press? && Inv(s) && Safe(s, a)
    ensures Inv(PressAll(s, a))
  {
    var slot := PadSlot(s.bank, a.pad);
    if s.ui.running && slot.Some? {
      if IsReleasePress(s.ui, a.side, a.pad) {
        ReleaseKeepsInv(s, a.side);
      } else {
        EngageKeepsInv(s, a.side, a.pad, slot.value, a.now, a.thisPlaying, a.otherPlaying, a.accepted);
      }
    }
  }

  /** Nothing but the sampler's two tables moves. */
  lemma SamplersKeepInv(s: System, n: System)
    requires Inv(s) && n.ui == s.ui && n.loads == s.loads && n.ffi.sampler.Keys <= n.audio.sampler.Keys
    requires n.ffi == s.ffi.(sampler := n.ffi.sampler) && n.audio == s.audio.(sampler := n.audio.sampler)
    ensures Inv(n)
  {
    assert InvAt(n, A) by { assert InvAt(s, A); }
    assert InvAt(n, B) by { assert InvAt(s, B); }
  }

  lemma StoppedIsSound(s: System)
    requires Settled(s)
    ensures Inv(Off(s))
  {
    var n := Off(s);
    assert InvAt(n, A) && InvAt(n, B);
  }

  lemma StartedKeepsInv(s: System)
    requires Inv(s)
    ensures Inv(On(s))
  {
    var n := On(s);
    assert InvAt(n, A) by { assert InvAt(s, A); }
    assert InvAt(n, B) by { assert InvAt(s, B); }
  }

  lemma StepKeepsInv(s: System, a: Action)
    requires Inv(s) && Safe(s, a)
    ensures Inv(Do(s, a))
  {
    hide PressAll, EngageAll, ReleaseAll, DoubleAll, TickAll, HostComesBack, Begun, InstallAll, LandAll, InvAt;
    hide GoLiveAll, Off, On;
    match a
    case Press(_, _, _, _, _, _) => PressKeepsInv(s, a);
    case LetGo(side, accepted) =>
      if s.ui.running && s.ui.shown.At(side).quickScratch.Some? { ReleaseKeepsInv(s, side); }
    case Tick(side, t, now) => TickKeepsInv(s, side, t, now);
    case DoubleAcross(from, accepted) => DoubleKeepsInv(s, from, accepted);
    case BeginLoad(_, _, _, _) => BeginKeepsInv(s, a);
    case InstallLoad(side, i, accepted) => InstallKeepsInv(s, side, i, accepted);
    case LandLoad(side, i, row) => LandKeepsInv(s, side, i, row);
    case GoLive(side, accepted) => GoLiveKeepsInv(s, side, accepted);
    case Annotate(side, next) => AnnotateKeepsInv(s, side, next);
    case Rebind(bank) => SamplersKeepInv(s, Do(s, a));
    case LoadSample(slot, sample, reply) => SamplersKeepInv(s, Do(s, a));
    case ClearSample(slot, accepted) => SamplersKeepInv(s, Do(s, a));
    case PowerOff => StoppedIsSound(s);
    case PowerUp => StartedKeepsInv(s);
  }

  predicate AllSafe(s: System, actions: seq<Action>)
    decreases |actions|
  {
    actions == [] || (Safe(s, actions[0]) && AllSafe(Do(s, actions[0]), actions[1..]))
  }

  /** Over every run of safe actions each deck with no load in flight shows the file it plays, and one
      with a load in flight shows the file on its way. Polls, edits, the start of a load and the end of
      its decode are safe without any condition. What the rest asks for is read off the theorems below:
      for the most part, that no load be in flight on a deck it renames. */
  lemma {:induction false} DecksShowWhatTheyPlay(s: System, actions: seq<Action>)
    requires Inv(s) && AllSafe(s, actions)
    ensures var n := Play(s, actions);
            Inv(n) && ShowsAt(n, A) && ShowsAt(n, B) && (Settled(n) ==> Agrees(n))
    decreases |actions|
  {
    if actions == [] {
      assert InvAt(s, A) && InvAt(s, B);
    } else {
      hide Do, Safe, InvAt;
      StepKeepsInv(s, actions[0]);
      DecksShowWhatTheyPlay(Do(s, actions[0]), actions[1..]);
    }
  }

  lemma PowerOnIsSound(actions: seq<Action>)
    requires AllSafe(POWER_ON, actions)
    ensures var n := Play(POWER_ON, actions);
            Inv(POWER_ON) && ShowsAt(n, A) && ShowsAt(n, B) && (Settled(n) ==> Agrees(n))
  {
    assert InvAt(POWER_ON, A) && InvAt(POWER_ON, B);
    DecksShowWhatTheyPlay(POWER_ON, actions);
  }

  /** A poll outside the press's grace time puts a deck back in step, so the window in which
      presses are unsafe closes by itself. */
  lemma PollSyncs(s: System, side: DeckSide, t: Telemetry, now: real)
    requires Inv(s) && s.ui.running
    requires side in s.ui.engagedAt ==> now - s.ui.engagedAt[side] > ENGAGE_GRACE_SECS
    ensures Synced(TickAll(s, side, t, now), side)
  {
    assert InvAt(s, side);
    PollEffect(s.ui, side, Reading(s.audio, side, t), now);
  }

  // ----- What moves in the engine -----

  /** With the engine off, nothing but a live source, an edit or a load already under way touches the
      system. */
  lemma OffIsDead(s: System, a: Action)
    requires !s.ui.running
    requires a.Press? || a.LetGo? || a.Tick? || a.DoubleAcross? || a.BeginLoad? || a.LoadSample? || a.ClearSample?
    ensures Do(s, a) == s
  {
    hide ReleaseAll, EngageAll, PaintedDeck, PolledLoad;
  }

  /** An accepted press puts the slot's sample on the deck. The tune under it moves to the other deck if
      and only if it was the deck's own, on air, with the other deck silent; then what that deck held is
      set aside on both sides of the queue. */
  lemma PressMovesTheTune(s: System, side: DeckSide, pad: int, named: SampleSlot, now: real,
                          thisPlaying: bool, otherPlaying: bool)
    requires Inv(s) && named.slot in s.ffi.sampler
    ensures var (n, host) := (EngageAll(s, side, pad, named, now, thisPlaying, otherPlaying, true), side.Other());
            var (tune, held) := (s.ffi.file.At(side), s.ffi.file.At(host));
            var doubles := thisPlaying && !otherPlaying && tune.Some? && s.ffi.parked.At(side) == None;
            && n.ffi.file.At(side) == Some(s.ffi.sampler[named.slot])
            && n.audio.source.At(side) == Some(s.audio.sampler[named.slot])
            && n.ffi.file.At(host) == n.audio.source.At(host) == (if doubles then tune else held)
            && n.ffi.hostView.At(host) == (if doubles then Some(held) else s.ffi.hostView.At(host))
            && n.ffi.parked.At(side) == (if s.ffi.parked.At(side).Some? then s.ffi.parked.At(side) else Some(tune))
            && (doubles ==> n.audio.park.At(side) == Some(ParkedTrack(tune, Some(host), Some(held))))
            && n.ffi.sampler == s.ffi.sampler && n.audio.sampler == s.audio.sampler
  {
    hide Engage;
    assert InvAt(s, side) && InvAt(s, side.Other());
  }

  /** The audio thread has its own guards: no tune to double, or none but onto itself, moves nothing
      across. */
  lemma NothingToDouble(a: Audio, side: DeckSide, sample: TrackRef, to: Option<DeckSide>)
    requires a.source.At(side) == None || to == None || to.value == side || a.park.At(side).Some?
    ensures var (n, host) := (AudioSwap(a, side, sample, to), side.Other());
            && n.source.At(side) == Some(sample) && n.source.At(host) == a.source.At(host)
            && n.park.At(host) == a.park.At(host)
            && n.park.At(side) == (if a.park.At(side).Some? then a.park.At(side)
                                   else Some(ParkedTrack(a.source.At(side), None, None)))
  {
  }

  /** What a deck gives up for good: a released one its park and the view set aside for it, one that is
      loaded, doubled onto or sent live its own park and view. The other deck keeps its own. */
  lemma ParksAreForgotten(f: Facade, side: DeckSide, track: Option<TrackRef>)
    ensures var (n, host) := (FacadeReplace(f, side, track), side.Other());
            && n.file.At(side) == track && n.parked.At(side) == None && n.hostView.At(side) == None
            && n.file.At(host) == f.file.At(host) && n.parked.At(host) == f.parked.At(host)
            && n.hostView.At(host) == f.hostView.At(host) && n.sampler == f.sampler
    ensures f.parked.At(side).Some? ==>
              var (n, host) := (FacadeRelease(f, side), side.Other());
              && n.file.At(side) == f.parked.At(side).value
              && n.parked.At(side) == None && n.hostView.At(host) == None
              && n.parked.At(host) == f.parked.At(host) && n.hostView.At(side) == f.hostView.At(side)
              && n.sampler == f.sampler
  {
  }

  /** A double off a deck that shows a track where the engine holds no file is taken for done: the other
      deck shows what it does not play. */
  lemma DoubleOfNoFile(s: System, from: DeckSide, accepted: bool)
    requires s.ui.running && s.ui.shown.At(from).load.hasTrack && s.ffi.file.At(from) == None
    ensures var n := DoubleAll(s, from, accepted);
            && n.ui.shown.At(from.Other()).load == s.ui.shown.At(from).load
            && n.ffi == s.ffi && n.audio == s.audio && n.loads == s.loads
  {
  }

  // ----- What no poll repairs -----

  /** Facade and audio thread hold one track, and the deck shows its file. */
  predicate NamedAt(s: System, side: DeckSide) {
    var file := s.ffi.file.At(side);
    file == s.audio.source.At(side) && s.ui.shown.At(side).load.sourceURL == Url(file)
  }

  /** The action is a poll, is about the sampler, or belongs to the other deck's load. */
  predicate Bystander(a: Action, side: DeckSide) {
    || a.Tick? || a.Rebind? || a.LoadSample? || a.ClearSample?
    || ((a.BeginLoad? || a.InstallLoad? || a.LandLoad?) && a.side != side)
  }

  predicate SameNames(s: System, n: System, side: DeckSide) {
    && n.ui.running == s.ui.running && n.ffi.file.At(side) == s.ffi.file.At(side)
    && n.audio.source.At(side) == s.audio.source.At(side)
    && n.ui.shown.At(side).load.sourceURL == s.ui.shown.At(side).load.sourceURL
  }

  lemma TickRenamesNothing(s: System, side: DeckSide, t: Telemetry, now: real, x: DeckSide)
    requires s.ui.running
    ensures SameNames(s, TickAll(s, side, t, now), x)
  {
    hide Poll;
    TickNames(s, side, t, now);
    assert x == side || x == side.Other();
  }

  /** A load is the affair of its own deck. */
  lemma LoadRenamesNothing(s: System, a: Action, x: DeckSide)
    requires (a.BeginLoad? || a.InstallLoad? || a.LandLoad?) && a.side == x.Other()
    ensures SameNames(s, Do(s, a), x)
  {
    hide PaintedDeck, LandedDeck, StartsLoad;
  }

  lemma BystanderRenamesNothing(s: System, a: Action, side: DeckSide)
    requires s.ui.running && Bystander(a, side)
    ensures SameNames(s, Do(s, a), side)
  {
    hide TickAll, Begun, InstallAll, LandAll;
    match a
    case Tick(x, t, now) => TickRenamesNothing(s, x, t, now, side);
    case BeginLoad(x, _, _, _) => LoadRenamesNothing(s, a, side);
    case InstallLoad(x, _, _) => LoadRenamesNothing(s, a, side);
    case LandLoad(x, _, _) => LoadRenamesNothing(s, a, side);
    case Rebind(_) =>
    case LoadSample(_, _, _) =>
    case ClearSample(_, _) =>
  }

  /** A deck whose name is wrong stays wrong through any run of polls, sampler traffic and loads of
      the other deck. */
  lemma {:induction false} BystandersRepairNothing(s: System, actions: seq<Action>, side: DeckSide)
    requires s.ui.running && forall i :: 0 <= i < |actions| ==> Bystander(actions[i], side)
    ensures NamedAt(Play(s, actions), side) <==> NamedAt(s, side)
    ensures AgreesAt(Play(s, actions), side) ==> NamedAt(s, side)
    decreases |actions|
  {
    if actions == [] {
    } else {
      hide Do, Bystander;
      BystanderRenamesNothing(s, actions[0], side);
      BystandersRepairNothing(Do(s, actions[0]), actions[1..], side);
    }
  }

  // ----- Exactly when a load ends well -----

  /** A load that has come back shows what plays if and only if it was installed, or names the file the
      deck already holds. */
  lemma LandingAgreesExactly(s: System, side: DeckSide, row: Option<LibraryRow>)
    requires Inv(s) && |s.loads.At(side)| == 1 && !s.loads.At(side)[0].phase.Decoding?
    ensures var p := s.loads.At(side)[0];
            AgreesAt(LandAll(s, side, 0, row), side)
            <==> p.phase.Installed? || Url(s.ffi.file.At(side)) == Some(p.track.url)
  {
    hide LandAll, ParksAgreeAt, HostsAgreeAt;
    assert InvAt(s, side);
    LandEffect(s, side, 0, row);
  }

  /** One load in flight on `side` ends, and the deck is polled. */
  function Finished(s: System, side: DeckSide, i: nat, accepted: bool, row: Option<LibraryRow>, t: Telemetry,
                    now: real): System
  {
    TickAll(LandAll(InstallAll(s, side, i, accepted), side, i, row), side, t, now)
  }

  /** The landing writes no name. So whatever has become of the deck since the paint, once a load of
      it has ended and the poll has passed it shows what it plays if and only if the name it showed
      when the decode ended is that of the file it then holds: the loaded one, if it was installed
      only now, and what it holds already otherwise. */
  lemma FinishedLoadAgreesExactly(s: System, side: DeckSide, i: nat, accepted: bool, row: Option<LibraryRow>,
                                  t: Telemetry, now: real)
    requires s.ui.running && i < |s.loads.At(side)|
    requires s.ffi.file.At(side) == s.audio.source.At(side)
    ensures var (p, n) := (s.loads.At(side)[i], Finished(s, side, i, accepted, row, t, now));
            var held := if p.phase.Decoding? && accepted then Some(p.track) else s.ffi.file.At(side);
            && (AgreesAt(n, side) <==> s.ui.shown.At(side).load.sourceURL == Url(held))
            && n.ui.running && n.ffi.file.At(side) == n.audio.source.At(side) == held
            && n.ui.shown.At(side).load.sourceURL == s.ui.shown.At(side).load.sourceURL
            && n.loads.At(side) == s.loads.At(side)[..i] + s.loads.At(side)[i + 1..]
  {
    hide LandAll, InstallAll, Poll;
    var m := InstallAll(s, side, i, accepted);
    InstallEffect(s, side, i, accepted);
    LandEffect(m, side, i, row);
    TickNames(LandAll(m, side, i, row), side, t, now);
  }

  /** A double or a scratch lets a second load begin beside the first. The name is the newer file's,
      the track whichever decode ends last: right if and only if the newer does, or both are one
      file. */
  lemma RacingLoadsExactly(s: System, side: DeckSide, row: Option<LibraryRow>, t: Telemetry, now: real)
    requires s.ui.running && s.ffi.file.At(side) == s.audio.source.At(side)
    requires |s.loads.At(side)| == 2
    requires s.loads.At(side)[0].phase.Decoding? && s.loads.At(side)[1].phase.Decoding?
    requires s.ui.shown.At(side).load.sourceURL == Some(s.loads.At(side)[1].track.url)
    ensures var (older, newer) := (s.loads.At(side)[0], s.loads.At(side)[1]);
            && AgreesAt(Finished(Finished(s, side, 0, true, row, t, now), side, 0, true, row, t, now), side)
            && (AgreesAt(Finished(Finished(s, side, 1, true, row, t, now), side, 0, true, row, t, now), side)
                <==> older.track.url == newer.track.url)
  {
    hide Finished;
    FinishedLoadAgreesExactly(s, side, 0, true, row, t, now);
    FinishedLoadAgreesExactly(Finished(s, side, 0, true, row, t, now), side, 0, true, row, t, now);
    FinishedLoadAgreesExactly(s, side, 1, true, row, t, now);
    FinishedLoadAgreesExactly(Finished(s, side, 1, true, row, t, now), side, 0, true, row, t, now);
  }

  /** The load is installed only after this state: what happens to the deck's name now is lost. */
  predicate StillToCome(s: System, side: DeckSide, accepted: bool) {
    |s.loads.At(side)| == 1 && s.loads.At(side)[0].phase.Decoding? && accepted
  }

  /** A double onto a deck that is loading takes its name, and the load then takes its track: right if
      and only if nothing is installed any more, or both are one file. */
  lemma DoubleOntoALoadExactly(s: System, from: DeckSide, accepted: bool, row: Option<LibraryRow>,
                               t: Telemetry, now: real)
    requires Inv(s) && s.ui.running && Quiet(s, from) && s.ffi.file.At(from).Some?
    requires |s.loads.At(from.Other())| == 1
    ensures var to := from.Other();
            var n := Finished(DoubleAll(s, from, true), to, 0, accepted, row, t, now);
            AgreesAt(n, to) <==> StillToCome(s, to, accepted) ==>
                                   s.ffi.file.At(from).value.url == s.loads.At(to)[0].track.url
  {
    hide Finished, Poll;
    assert InvAt(s, from) && from.Other().Other() == from;
    FinishedLoadAgreesExactly(DoubleAll(s, from, true), from.Other(), 0, accepted, row, t, now);
  }

  /** The other deck takes the track and the whole identity, wrong name and all. */
  lemma DoubleEffect(s: System, from: DeckSide)
    requires s.ui.running && s.ui.shown.At(from).load.hasTrack
    requires s.ffi.file.At(from).Some? && s.ffi.file.At(from) == s.audio.source.At(from)
    ensures var (to, n) := (from.Other(), DoubleAll(s, from, true));
            && n.ui.running && n.ui.shown.At(to).load == s.ui.shown.At(from).load
            && n.ffi.file.At(to) == n.audio.source.At(to) == s.ffi.file.At(from)
  {
  }

  /** A double off a deck that is loading copies the track it still plays under the name of the one on
      its way: right if and only if that one is installed, or both are one file. Nothing repairs it:
      not the landing, not the polls. */
  lemma DoubleOffALoadExactly(s: System, from: DeckSide, actions: seq<Action>)
    requires Inv(s) && s.ui.running && Quiet(s, from.Other()) && |s.loads.At(from)| == 1
    requires s.ui.shown.At(from).load.hasTrack
    requires forall i :: 0 <= i < |actions| ==> Bystander(actions[i], from.Other())
    ensures var (p, to, n) := (s.loads.At(from)[0], from.Other(), DoubleAll(s, from, true));
            var right := p.phase.Installed? || Url(s.ffi.file.At(from)) == Some(p.track.url);
            && (AgreesAt(n, to) <==> right)
            && (AgreesAt(Play(n, actions), to) ==> right)
            && (!right ==> n.audio.source.At(to) == s.audio.source.At(from)
                           && n.ui.shown.At(to).load.displayName == s.ui.shown.At(from).load.displayName)
  {
    hide Play, Bystander, DoubleAll, ParksAgreeAt, HostsAgreeAt;
    var (to, n) := (from.Other(), DoubleAll(s, from, true));
    assert InvAt(s, from);
    DoubleEffect(s, from);
    BystandersRepairNothing(n, actions, to);
  }

  /** A live source chosen while a deck loads, and a restart, take the name away for good: the deck is
      right in the end if and only if nothing is installed after them. */
  lemma ClearedLoadExactly(s: System, side: DeckSide, accepted: bool, row: Option<LibraryRow>,
                           t: Telemetry, now: real)
    requires s.ui.running && |s.loads.At(side)| == 1
    ensures AgreesAt(Finished(GoLiveAll(s, side, true), side, 0, accepted, row, t, now), side)
            <==> !StillToCome(s, side, accepted)
  {
    hide Finished;
    FinishedLoadAgreesExactly(GoLiveAll(s, side, true), side, 0, accepted, row, t, now);
  }

  lemma RestartedLoadExactly(s: System, side: DeckSide, accepted: bool, row: Option<LibraryRow>,
                             t: Telemetry, now: real)
    requires |s.loads.At(side)| == 1
    ensures AgreesAt(Finished(On(Off(s)), side, 0, accepted, row, t, now), side)
            <==> !StillToCome(s, side, accepted)
  {
    hide Finished;
    FinishedLoadAgreesExactly(On(Off(s)), side, 0, accepted, row, t, now);
  }

  /** So does a scratch pressed while a deck loads: the sample's name stays over the loaded track. */
  lemma PressOverALoadExactly(s: System, side: DeckSide, pad: int, slot: SampleSlot, at: real,
                              thisPlaying: bool, otherPlaying: bool, accepted: bool,
                              row: Option<LibraryRow>, t: Telemetry, now: real)
    requires Inv(s) && s.ui.running && |s.loads.At(side)| == 1 && SlotIsTheBanks(s, slot)
    ensures var pressed := EngageAll(s, side, pad, slot, at, thisPlaying, otherPlaying, true);
            AgreesAt(Finished(pressed, side, 0, accepted, row, t, now), side)
            <==> StillToCome(s, side, accepted) ==> slot.url == Some(s.loads.At(side)[0].track.url)
  {
    hide Finished, Poll, Engage;
    var pressed := EngageAll(s, side, pad, slot, at, thisPlaying, otherPlaying, true);
    EngageEffect(s.ui, side, pad, slot, at, DoubleTarget(s.ffi, side, thisPlaying, otherPlaying));
    FinishedLoadAgreesExactly(pressed, side, 0, accepted, row, t, now);
  }

  lemma FailedLandingLeavesThePaint(s: System, side: DeckSide, row: Option<LibraryRow>, t: Telemetry, now: real)
    requires s.ui.running && |s.loads.At(side)| == 1 && s.loads.At(side)[0].phase.Decoding?
    ensures var n := Finished(s, side, 0, false, row, t, now);
            && n.audio == s.audio && n.ffi == s.ffi
            && SameTrack(s.ui.shown.At(side).load, n.ui.shown.At(side).load)
  {
    hide Poll, PolledLoad, SameTrack, LandedDeck;
    var m := LandAll(InstallAll(s, side, 0, false), side, 0, row);
    assert m.ui.shown.At(side).load == s.ui.shown.At(side).load;
    PollEffect(m.ui, side, Reading(m.audio, side, t), now);
  }

  /** A failed load leaves a deck half of one track and half of another: the failed file's name over
      the library row, cues and audio of the one that plays on. No poll puts it right. */
  lemma FailedLoadMixesTwoTracks(s: System, side: DeckSide, name: string, p: PendingLoad,
                                 row: Option<LibraryRow>, t: Telemetry, now: real)
    requires Inv(s) && s.ui.running && Quiet(s, side) && !s.ui.shown.At(side).isLoading
    requires Url(s.ffi.file.At(side)) != Some(p.track.url)
    ensures var was := s.ui.shown.At(side).load;
            var n := Finished(Begun(s, BeginLoad(side, name, p, true)), side, 0, false, row, t, now);
            var shown := n.ui.shown.At(side).load;
            && n.audio == s.audio && n.ffi == s.ffi && !AgreesAt(n, side)
            && shown.displayName == Some(name) && shown.sourceURL == Some(p.track.url)
            && shown.trackTitle == None && shown.loadedLibraryTrackId == was.loadedLibraryTrackId
            && shown.hotCues == was.hotCues
  {
    var b := Begun(s, BeginLoad(side, name, p, true));
    var d := PaintedDeck(s.ui.shown.At(side), TrackFile(p.track.url, name), p.grid);
    assert s.loads.At(side) + [p.(phase := Decoding)] == [p.(phase := Decoding)];
    assert b.ui.shown.At(side).load == d.load && b.ui.running && b.ffi == s.ffi && b.audio == s.audio;
    FailedLandingLeavesThePaint(b, side, row, t, now);
  }

  // ----- Exactly when a press or a switch does -----

  lemma WrongReleaseDisagrees(s: System, side: DeckSide)
    requires Inv(s) && Settled(s) && Synced(s, side) && s.ui.shown.At(side).quickScratch.Some?
    requires FacadeDoubledBack(s.ffi, side) && !HostComesBack(s, side)
    ensures !Agrees(ReleaseAll(s, side, true))
  {
    hide ReleaseAccepted;
    var host := side.Other();
    assert InvAt(s, side) && InvAt(s, host) && host.Other() == side;
    assert Quiet(s, side) && Quiet(s, host);
    ReleaseEffect(s.ui, side, Some(host));
    assert !AgreesAt(ReleaseAll(s, side, true), host);
  }

  lemma SettledAgrees(s: System)
    requires Inv(s) && Settled(s)
    ensures Agrees(s)
  {
    assert InvAt(s, A) && InvAt(s, B);
  }

  /** A release in step with the facade keeps every deck showing what it plays if and only if the
      facade's pointer test fails, or the host comes back. */
  lemma ReleaseAgreesExactly(s: System, side: DeckSide)
    requires Inv(s) && Settled(s) && Synced(s, side) && s.ui.shown.At(side).quickScratch.Some?
    ensures Agrees(ReleaseAll(s, side, true)) <==> HostComesBack(s, side)
    ensures HostComesBack(s, side) ==> Inv(ReleaseAll(s, side, true))
  {
    assert Quiet(s, side) && Quiet(s, side.Other());
    if HostComesBack(s, side) {
      ReleaseKeepsInv(s, side);
      SettledAgrees(ReleaseAll(s, side, true));
    } else {
      WrongReleaseDisagrees(s, side);
    }
  }

  /** The common case: the scratch that doubled the tune is the one released, and the facade still
      keeps the host's view. Nothing the view-model set aside needs checking. */
  lemma DoubledReleaseAgrees(s: System, side: DeckSide)
    requires Inv(s) && Settled(s) && Synced(s, side) && s.ui.shown.At(side).quickScratch.Some?
    requires s.audio.park.At(side).Some? && s.audio.park.At(side).value.doubledTo.Some?
    requires s.ffi.hostView.At(side.Other()).Some?
    ensures Inv(ReleaseAll(s, side, true)) && Agrees(ReleaseAll(s, side, true))
  {
    ReleaseAgreesExactly(s, side);
  }

  /** The family it fails on: a scratch that doubled nothing, with nothing set aside for the
      other deck. Its release is right if and only if the other deck does not hold the same
      buffer; when it does (after an instant double), the other deck goes on playing and is
      shown empty. */
  lemma UndoubledReleaseAgreesExactly(s: System, side: DeckSide)
    requires Inv(s) && Settled(s) && Synced(s, side) && s.ui.shown.At(side).quickScratch.Some?
    requires s.audio.park.At(side).Some? && s.audio.park.At(side).value.doubledTo == None
    requires s.ffi.hostView.At(side.Other()) == None && side.Other() !in s.ui.hosts
    ensures var tune := s.audio.park.At(side).value.track;
            var n := ReleaseAll(s, side, true);
            && (Agrees(n) <==> tune == None || s.audio.source.At(side.Other()) != tune)
            && (!Agrees(n) ==> n.ui.shown.At(side.Other()).load == NO_LOAD
                               && n.audio.source.At(side.Other()) == tune && tune.Some?)
  {
    hide ReleaseAccepted;
    var host := side.Other();
    assert InvAt(s, side) && InvAt(s, host) && host.Other() == side;
    ReleaseAgreesExactly(s, side);
    ReleaseEffect(s.ui, side, if FacadeDoubledBack(s.ffi, side) then Some(host) else None);
  }

  /** Out of step (the deck was loaded over and not yet polled), the release puts the stale park
      back on show: right exactly when that park already describes what the deck holds. */
  lemma StaleReleaseAgreesExactly(s: System, side: DeckSide)
    requires Inv(s) && Settled(s) && s.ui.shown.At(side).quickScratch.Some? && s.ffi.parked.At(side) == None
    ensures var stale := if side in s.ui.parked then s.ui.parked[side] else EMPTY_DECK;
            Agrees(ReleaseAll(s, side, true)) <==> Describes(stale, s.ffi.file.At(side))
  {
    hide ReleaseAccepted;
    var host := side.Other();
    assert InvAt(s, side) && InvAt(s, host) && host.Other() == side;
    assert Quiet(s, side) && Quiet(s, host);
    ReleaseEffect(s.ui, side, None);
    var n := ReleaseAll(s, side, true);
    assert Agrees(n) <==> AgreesAt(n, side) && AgreesAt(n, host);
  }

  /** A live source shows what plays if and only if the engine took the switch, or had nothing to
      give up: a refused switch empties the deck's header over a track that plays on. */
  lemma GoLiveAgreesExactly(s: System, side: DeckSide, accepted: bool)
    requires Inv(s) && Settled(s)
    ensures Agrees(GoLiveAll(s, side, accepted))
       <==> (s.ui.running && accepted) || s.ffi.file.At(side) == None
  {
    assert Quiet(s, side);
    if Safe(s, GoLive(side, accepted)) {
      StepKeepsInv(s, GoLive(side, accepted));
      SettledAgrees(GoLiveAll(s, side, accepted));
    } else {
      assert InvAt(s, side) && !AgreesAt(GoLiveAll(s, side, accepted), side);
    }
  }

  /** A sampler load leaves the slot with the bank's file if and only if it ended well and was of that
      file, or left nothing behind and the slot had it. One whose gain alone was refused is heard and
      not seen, so it is right only for the sample that was there before. */
  lemma SampleLoadExactly(s: System, named: SampleSlot, sample: TrackRef, reply: SamplerReply)
    requires s.ui.running
    ensures var n := LoadSampleAll(s, named.slot, sample, reply);
            SlotIsTheBanks(n, named) <==>
              match reply
              case Loaded => named.url == Some(sample.url)
              case NoRoomForGain =>
                named.slot in s.ffi.sampler && s.ffi.sampler[named.slot] == sample && named.url == Some(sample.url)
              case _ => SlotIsTheBanks(s, named)
  {
  }

  /** A clear the engine takes empties the slot in both tables; neither it nor a load reaches any other
      slot, the decks or the parks. */
  lemma SampleClearExactly(s: System, slot: nat, other: nat, sample: TrackRef, reply: SamplerReply, accepted: bool)
    requires s.ui.running
    ensures var n := ClearSampleAll(s, slot, accepted);
            && (slot in n.ffi.sampler <==> slot in s.ffi.sampler && !accepted)
            && (slot in n.audio.sampler <==> slot in s.audio.sampler && !accepted)
    ensures forall n <- {ClearSampleAll(s, slot, accepted), LoadSampleAll(s, slot, sample, reply)} ::
              && n.ui == s.ui && n.ffi.file == s.ffi.file && n.audio.source == s.audio.source
              && n.ffi.parked == s.ffi.parked && n.audio.park == s.audio.park && n.bank == s.bank
              && (other != slot ==>
                    && (other in n.ffi.sampler <==> other in s.ffi.sampler)
                    && (other in n.audio.sampler <==> other in s.audio.sampler)
                    && (other in s.ffi.sampler ==> n.ffi.sampler[other] == s.ffi.sampler[other])
                    && (other in s.audio.sampler ==> n.audio.sampler[other] == s.audio.sampler[other]))
  {
  }

  lemma WrongPressNamesNothing(s: System, side: DeckSide, pad: int, slot: SampleSlot, now: real,
                               thisPlaying: bool, otherPlaying: bool)
    requires Inv(s) && Quiet(s, side) && PadSlot(s.bank, pad) == Some(slot) && !PressNamesIt(s, side, slot)
    ensures !NamedAt(EngageAll(s, side, pad, slot, now, thisPlaying, otherPlaying, true), side)
  {
    hide Engage;
    assert InvAt(s, side);
    var to := if slot.slot in s.ffi.sampler then DoubleTarget(s.ffi, side, thisPlaying, otherPlaying) else None;
    EngageEffect(s.ui, side, pad, slot, now, to);
  }

  /** A press in step keeps the decks honest if and only if the engine's slot holds the file the bank
      names, in both its tables, or is empty under a deck that plays that file already. A slot bound
      anew names its file at once, so until its decode has ended well, and for good if it fails or an
      older decode ends later, the press shows one sample and plays another. */
  lemma PressAgreesExactly(s: System, side: DeckSide, pad: int, slot: SampleSlot, now: real,
                           thisPlaying: bool, otherPlaying: bool)
    requires Inv(s) && Settled(s) && Synced(s, side) && PadSlot(s.bank, pad) == Some(slot)
    ensures var n := EngageAll(s, side, pad, slot, now, thisPlaying, otherPlaying, true);
            Agrees(n) <==> PressNamesIt(s, side, slot)
  {
    var n := EngageAll(s, side, pad, slot, now, thisPlaying, otherPlaying, true);
    assert Quiet(s, side) && Quiet(s, side.Other());
    if PressNamesIt(s, side, slot) {
      EngageKeepsInv(s, side, pad, slot, now, thisPlaying, otherPlaying, true);
      SettledAgrees(n);
    } else {
      WrongPressNamesNothing(s, side, pad, slot, now, thisPlaying, otherPlaying);
    }
  }

  /** No poll repairs such a press, nor a late decode. */
  lemma WrongPressIsNotRepaired(s: System, side: DeckSide, pad: int, slot: SampleSlot, now: real,
                                thisPlaying: bool, otherPlaying: bool, actions: seq<Action>)
    requires Inv(s) && s.ui.running && Quiet(s, side)
    requires PadSlot(s.bank, pad) == Some(slot) && !PressNamesIt(s, side, slot)
    requires forall i :: 0 <= i < |actions| ==> Bystander(actions[i], side)
    ensures var n := EngageAll(s, side, pad, slot, now, thisPlaying, otherPlaying, true);
            !AgreesAt(Play(n, actions), side)
  {
    hide Play, Bystander, PressNamesIt;
    var n := EngageAll(s, side, pad, slot, now, thisPlaying, otherPlaying, true);
    WrongPressNamesNothing(s, side, pad, slot, now, thisPlaying, otherPlaying);
    BystandersRepairNothing(n, actions, side);
  }

  /** Over an empty slot the deck plays on under the sample's name, and the poll that notices throws
      the park away. */
  lemma EmptySlotPressIsNotRepaired(s: System, side: DeckSide, pad: int, slot: SampleSlot,
                                    now: real, t: Telemetry, later: real)
    requires Inv(s) && s.ui.running && Quiet(s, side) && s.ffi.parked.At(side) == None
    requires slot.slot !in s.ffi.sampler && slot.url != Url(s.ffi.file.At(side))
    requires later - now > ENGAGE_GRACE_SECS
    ensures var n := EngageAll(s, side, pad, slot, now, true, true, true);
            var p := TickAll(n, side, t, later);
            && !AgreesAt(p, side) && side !in p.ui.parked && p.audio == s.audio
            && SameTrack(SampleIdentity(slot), p.ui.shown.At(side).load)
  {
    assert InvAt(s, side);
    var n := EngageAll(s, side, pad, slot, now, true, true, true);
    EngageEffect(s.ui, side, pad, slot, now, None);
    assert n.ui.engagedAt[side] == now;
    PollEffect(n.ui, side, Reading(n.audio, side, t), later);
  }

  /** A release the command queue refuses has already lost the facade's park. Pressing again
      sends nothing: the audio thread keeps the sample, and the view-model shows the tune. The
      decks agree only if tune and sample are one file. */
  lemma RefusedReleaseStrandsTheDeck(s: System, side: DeckSide)
    requires Inv(s) && Settled(s) && Synced(s, side) && s.ui.shown.At(side).quickScratch.Some?
    ensures var n := ReleaseAll(ReleaseAll(s, side, false), side, true);
            && n.audio == s.audio
            && (Agrees(n) <==> Url(s.audio.park.At(side).value.track) == Url(s.audio.source.At(side)))
  {
    hide ReleaseAccepted;
    var host := side.Other();
    assert InvAt(s, side) && InvAt(s, host) && host.Other() == side;
    assert Quiet(s, side) && Quiet(s, host);
    var r := ReleaseAll(s, side, false);
    ReleaseEffect(r.ui, side, None);
    var n := ReleaseAll(r, side, true);
    assert Agrees(n) <==> AgreesAt(n, side) && AgreesAt(n, host);
  }

  /** A run, state by state. */
  lemma {:induction false} PlayStates(states: seq<System>, run: seq<Action>)
    requires |states| == |run| + 1
    requires forall i :: 0 <= i < |run| ==> Safe(states[i], run[i]) && states[i + 1] == Do(states[i], run[i])
    ensures Play(states[0], run) == states[|run|] && AllSafe(states[0], run)
    decreases |run|
  {
    if run == [] {
    } else {
      hide Do, Safe;
      PlayStates(states[1..], run[1..]);
    }
  }

  /** What a first load of deck A makes of a fresh system with a sample in slot 0. */
  lemma ColdLoad(s: System, load: PendingLoad) returns (m: System, i: System, n: System)
    requires s.ui == On(POWER_ON).ui && s.loads == POWER_ON.loads
    requires s.ffi == STOPPED_FACADE.(sampler := s.ffi.sampler) && s.audio == SILENT.(sampler := s.audio.sampler)
    ensures m == Do(s, BeginLoad(A, "tune", load, true)) && Safe(s, BeginLoad(A, "tune", load, true))
    ensures i == Do(m, InstallLoad(A, 0, true)) && Safe(m, InstallLoad(A, 0, true))
    ensures n == Do(i, LandLoad(A, 0, None)) && Safe(i, LandLoad(A, 0, None))
    ensures Settled(n) && n.bank == s.bank && n.ui.running && n.ui.hosts == map[]
    ensures var d := n.ui.shown.a;
            d.quickScratch == None && d.load.hasTrack && d.load.sourceURL == Some(load.track.url)
    ensures n.ffi == s.ffi.(file := PerDeck(Some(load.track), None))
    ensures n.audio == s.audio.(source := PerDeck(Some(load.track), None))
  {
    hide LandedDeck;
    var p := load.(phase := Decoding);
    var d := PaintedDeck(EMPTY_DECK, TrackFile(load.track.url, "tune"), load.grid);
    m := Begun(s, BeginLoad(A, "tune", load, true));
    assert [] + [p] == [p];
    assert m.ui.shown.a == d && m.loads == PerDeck([p], []);
    i := InstallAll(m, A, 0, true);
    assert i.loads.a == [p.(phase := Installed)] && i.ffi.file == PerDeck(Some(load.track), None);
    LandingInherits(d, load.chip, load.grid, Some(load.track), None);
    n := LandAll(i, A, 0, None);
  }

  /** An instant double of a lone tune, a scratch of the first copy, its release. */
  lemma DoubledThenScratched(s: System, tune: TrackRef, sample: TrackRef, now: real)
    requires s.ui.running && s.ui.shown.a.load.hasTrack && s.ui.shown.a.load.sourceURL == Some(tune.url)
    requires s.ui.shown.a.quickScratch == None && s.ui.hosts == map[]
    requires Settled(s) && PadSlot(s.bank, 0).Some? && PadSlot(s.bank, 0).value.slot == 0
    requires PadSlot(s.bank, 0).value.url == Some(sample.url)
    requires s.ffi == STOPPED_FACADE.(file := PerDeck(Some(tune), None), sampler := map[0 := sample])
    requires s.audio == SILENT.(source := PerDeck(Some(tune), None), sampler := map[0 := sample])
    ensures var (double, press) := (DoubleAcross(A, true), Press(A, 0, now, true, true, true));
            var m := Do(Do(s, double), press);
            var n := Do(m, LetGo(A, true));
            && Safe(s, double) && Safe(Do(s, double), press)
            && n.audio.source.At(B) == Some(tune) && n.ui.shown.At(B).load == NO_LOAD
  {
    hide Engage, ReleaseAccepted;
    var d := Do(s, DoubleAcross(A, true));
    assert d.ffi == Facade(PerDeck(Some(tune), Some(tune)), NO_VIEW, NO_VIEW, map[0 := sample]);
    assert d.audio == Audio(PerDeck(Some(tune), Some(tune)), PerDeck(None, None), map[0 := sample]);
    EngageEffect(d.ui, A, 0, PadSlot(s.bank, 0).value, now, None);
    var m := Do(d, Press(A, 0, now, true, true, true));
    ReleaseEffect(m.ui, A, Some(B));
  }

  /** A bound sample, a load, an instant double, a scratch of one copy. */
  function ColdRun(load: PendingLoad, sample: TrackRef, now: real): seq<Action> {
    [PowerUp, Rebind([Some(BankSlot(sample.url, "horn", Some(0)))]), LoadSample(0, sample, Loaded),
     BeginLoad(A, "tune", load, true), InstallLoad(A, 0, true), LandLoad(A, 0, None),
     DoubleAcross(A, true), Press(A, 0, now, true, true, true)]
  }

  lemma SampleReady(sample: TrackRef) returns (s1: System, s2: System, s3: System)
    ensures s1 == Do(POWER_ON, PowerUp) && Safe(POWER_ON, PowerUp)
    ensures var rebind := Rebind([Some(BankSlot(sample.url, "horn", Some(0)))]);
            s2 == Do(s1, rebind) && Safe(s1, rebind)
    ensures s3 == Do(s2, LoadSample(0, sample, Loaded)) && Safe(s2, LoadSample(0, sample, Loaded))
    ensures s3.ui == On(POWER_ON).ui && s3.loads == POWER_ON.loads
    ensures s3.ffi == STOPPED_FACADE.(sampler := map[0 := sample])
    ensures s3.audio == SILENT.(sampler := map[0 := sample])
    ensures PadSlot(s3.bank, 0) == Some(SampleSlot(0, Some("horn"), Some(sample.url)))
  {
    s1 := On(POWER_ON);
    s2 := s1.(bank := [Some(BankSlot(sample.url, "horn", Some(0)))]);
    s3 := LoadSampleAll(s2, 0, sample, Loaded);
  }

  lemma ColdStates(load: PendingLoad, sample: TrackRef, now: real) returns (states: seq<System>)
    ensures var run := ColdRun(load, sample, now);
            && |states| == |run| + 1 == 9 && states[0] == POWER_ON
            && forall i :: 0 <= i < |run| ==> Safe(states[i], run[i]) && states[i + 1] == Do(states[i], run[i])
    ensures var n := Do(states[8], LetGo(A, true));
            n.audio.source.At(B) == Some(load.track) && n.ui.shown.At(B).load == NO_LOAD
  {
    hide Do, Safe, PadSlot;
    var s1, s2, s3 := SampleReady(sample);
    var s4, s5, s6 := ColdLoad(s3, load);
    DoubledThenScratched(s6, load.track, sample, now);
    var s7 := Do(s6, DoubleAcross(A, true));
    states := [POWER_ON, s1, s2, s3, s4, s5, s6, s7, Do(s7, Press(A, 0, now, true, true, true))];
  }

  /** Such a deck is eight steps from a cold start, and the release. Every step before it is safe. */
  lemma DoubledTuneThenScratchShowsAnEmptyDeck(load: PendingLoad, sample: TrackRef, now: real)
    ensures var run := ColdRun(load, sample, now);
            var n := Do(Play(POWER_ON, run), LetGo(A, true));
            && AllSafe(POWER_ON, run)
            && n.audio.source.At(B) == Some(load.track) && n.ui.shown.At(B).load == NO_LOAD
  {
    hide Do, Safe, ColdRun, Play, AllSafe;
    var states := ColdStates(load, sample, now);
    PlayStates(states, ColdRun(load, sample, now));
  }

  // ----- The two engine-side records, updated in place -----

  /** The facade's running state. Commands to the audio thread are sent only where `accepted`
      matters; a refusal leaves what the source leaves. */
  class RunningState {
    var fileTracks: PerDeck<Option<TrackRef>>
    var quickScratchParked: PerDeck<Option<Option<TrackRef>>>
    var doubleHostView: PerDeck<Option<Option<TrackRef>>>
    var samplerTracks: map<nat, TrackRef>

    constructor ()
      ensures State() == STOPPED_FACADE
    {
      fileTracks, quickScratchParked, doubleHostView := NO_REF, NO_VIEW, NO_VIEW;
      samplerTracks := map[];
    }

    ghost function State(): Facade
      reads this
    {
      Facade(fileTracks, quickScratchParked, doubleHostView, samplerTracks)
    }

    /** `load_track`, once the file is decoded. */
    method InstallTrack(side: DeckSide, track: TrackRef, accepted: bool) returns (ok: bool)
      modifies this
      ensures ok == accepted
      ensures State() == if ok then FacadeReplace(old(State()), side, Some(track)) else old(State())
    {
      if !accepted { return false; }
      quickScratchParked := Put(quickScratchParked, side, None);
      doubleHostView := Put(doubleHostView, side, None);
      fileTracks := Put(fileTracks, side, Some(track));
      return true;
    }

    /** `sampler_load`, once the file is decoded: two commands, and the audio thread keeps the first
        when the second is refused. `heard` is whether it was sent the sample. */
    method SamplerLoad(slot: nat, sample: TrackRef, roomForSample: bool, roomForGain: bool)
      returns (heard: bool, ok: bool)
      modifies this`samplerTracks
      ensures heard == roomForSample && ok == (roomForSample && roomForGain)
      ensures samplerTracks == if ok then old(samplerTracks)[slot := sample] else old(samplerTracks)
    {
      if !roomForSample { return false, false; }
      if !roomForGain { return true, false; }
      samplerTracks := samplerTracks[slot := sample];
      return true, true;
    }

    method SamplerClear(slot: nat, accepted: bool) returns (ok: bool)
      modifies this`samplerTracks
      ensures ok == accepted
      ensures samplerTracks == if ok then old(samplerTracks) - {slot} else old(samplerTracks)
    {
      if accepted { samplerTracks := samplerTracks - {slot}; }
      return accepted;
    }

    method QuickScratchEngage(side: DeckSide, slot: nat, thisPlaying: bool, otherPlaying: bool,
                              accepted: bool) returns (reply: Reply)
      modifies this
      ensures slot !in old(samplerTracks) ==> reply == Accepted(None) && State() == old(State())
      ensures slot in old(samplerTracks) && !accepted ==> reply == Refused && State() == old(State())
      ensures slot in old(samplerTracks) && accepted ==>
                var to := DoubleTarget(old(State()), side, thisPlaying, otherPlaying);
                && reply == Accepted(to)
                && State() == FacadeEngage(old(State()), side, old(samplerTracks)[slot], to)
    {
      if slot !in samplerTracks { return Accepted(None); }
      var sample := samplerTracks[slot];
      var other := side.Other();
      var first := quickScratchParked.At(side) == None;
      var doubles := first && thisPlaying && !otherPlaying && fileTracks.At(side).Some?;
      if !accepted { return Refused; }
      var tune := fileTracks.At(side);
      if doubles {
        quickScratchParked := Put(quickScratchParked, other, None);
        doubleHostView := Put(doubleHostView, other, Some(fileTracks.At(other)));
        fileTracks := Put(fileTracks, other, tune);
      }
      if first {
        quickScratchParked := Put(quickScratchParked, side, Some(tune));
      }
      fileTracks := Put(fileTracks, side, Some(sample));
      return Accepted(if doubles then Some(other) else None);
    }

    method QuickScratchRelease(side: DeckSide, accepted: bool) returns (reply: Reply)
      modifies this
      ensures old(quickScratchParked).At(side) == None ==>
                reply == Accepted(None) && State() == old(State())
      ensures old(quickScratchParked).At(side).Some? && !accepted ==>
                && reply == Refused
                && State() == old(State()).(parked := Put(old(State()).parked, side, None))
      ensures old(quickScratchParked).At(side).Some? && accepted ==>
                && State() == FacadeRelease(old(State()), side)
                && reply == Accepted(if FacadeDoubledBack(old(State()), side)
                                     then Some(side.Other()) else None)
    {
      var view := quickScratchParked.At(side);
      if view == None { return Accepted(None); }
      var tune := view.value;
      quickScratchParked := Put(quickScratchParked, side, None);
      if !accepted { return Refused; }
      var other := side.Other();
      var doubledBack := tune.Some? && fileTracks.At(other) == tune;
      var host := doubleHostView.At(other);
      doubleHostView := Put(doubleHostView, other, None);
      if doubledBack {
        fileTracks := Put(fileTracks, other, if host.Some? then host.value else None);
      }
      fileTracks := Put(fileTracks, side, tune);
      return Accepted(if doubledBack then Some(other) else None);
    }
  }

  /** The audio thread's decks and its sampler's voices. */
  class Engine {
    var source: PerDeck<Option<TrackRef>>
    var quickScratch: PerDeck<Option<ParkedTrack>>
    var samplers: map<nat, TrackRef>

    constructor ()
      ensures State() == SILENT
    {
      source, quickScratch, samplers := NO_REF, PerDeck(None, None), map[];
    }

    ghost function State(): Audio
      reads this
    {
      Audio(source, quickScratch, samplers)
    }

    method QuickScratchEngage(side: DeckSide, slot: nat, to: Option<DeckSide>)
      modifies this
      ensures State() == AudioEngage(old(State()), side, slot, to)
    {
      if slot !in samplers { return; }
      var sample := samplers[slot];
      if quickScratch.At(side) == None {
        var tune := source.At(side);
        var parked := ParkedTrack(tune, None, None);
        if to.Some? && tune.Some? && to.value != side {
          var other := to.value;
          quickScratch := Put(quickScratch, other, None);
          parked := ParkedTrack(tune, to, Some(source.At(other)));
          source := Put(source, other, tune);
        }
        quickScratch := Put(quickScratch, side, Some(parked));
      }
      source := Put(source, side, Some(sample));
    }

    method QuickScratchRelease(side: DeckSide)
      modifies this
      ensures State() == AudioRelease(old(State()), side)
    {
      if quickScratch.At(side) == None { return; }
      var parked := quickScratch.At(side).value;
      quickScratch := Put(quickScratch, side, None);
      if parked.doubledTo.Some? && parked.track.Some? && parked.host.Some?
         && source.At(parked.doubledTo.value) == parked.track {
        source := Put(source, parked.doubledTo.value, parked.host.value);
      }
      source := Put(source, side, parked.track);
    }
  }
}
