/**
 What a deck shows (apple/Dub/MainView.swift, `DeckState`), cut down to the load identity
 that `adoptLoadedTrack` carries and the transport fields the operations modelled here write.
 */
module DeckState {
  import opened Prelude

  /** One decoded buffer. `id` is where it lives, so two decks hold the same buffer exactly when
      their references are equal; the rest is the file it was decoded from and that file's tags. */
  datatype TrackRef = TrackRef(
    id: nat, url: string, title: Option<string>, artist: Option<string>)

  function Url(track: Option<TrackRef>): Option<string> {
    if track.Some? then Some(track.value.url) else None
  }

  datatype CueMark = CueMark(positionSecs: real, name: Option<string>, color: Option<string>)

  /** The fields that travel with a loaded track. */
  datatype LoadIdentity = LoadIdentity(
    hasTrack: bool,
    displayName: Option<string>,
    trackTitle: Option<string>,
    trackArtist: Option<string>,
    formatChip: Option<string>,
    bpm: Option<real>,
    bpmConfidence: real,
    key: Option<string>,
    sourceURL: Option<string>,
    loadedLibraryTrackId: Option<string>,
    historyHint: Option<string>,
    historyHintTrackId: Option<string>,
    gridAnchorSecs: Option<real>,
    gridBeatsPerBar: int,
    autoGridBpm: Option<real>,
    autoGridAnchorSecs: Option<real>,
    autoGridCaptured: bool,
    beatGridLoadSource: Option<string>,
    manualGridEditCount: int,
    gridLocked: bool,
    gridDriftQuality: Option<real>,
    hotCues: seq<Option<CueMark>>)

  const NO_CUES: seq<Option<CueMark>> := [None, None, None, None, None, None, None, None]

  /** The load identity of an empty deck. */
  const NO_LOAD: LoadIdentity :=
    LoadIdentity(false, None, None, None, None, None, 0.0, None, None, None, None, None, None, 4,
                 None, None, false, None, 0, false, None, NO_CUES)

  /** A quick scratch in progress: the pad, its sampler slot, the parked title and the deck
      the tune was doubled onto, if any. */
  datatype QuickScratchState = QuickScratchState(
    pad: int, slot: nat, parkedTitle: Option<string>, doubledTo: Option<DeckSide>)

  datatype DeckState = DeckState(
    load: LoadIdentity,
    isPlaying: bool,
    atEnd: bool,
    isLoading: bool,
    activeLoopBars: Option<real>,
    activeLoopBeats: Option<real>,
    pendingLoopInSecs: Option<real>,
    quickScratch: Option<QuickScratchState>,
    quickScratchParkedSecs: real,
    seekGeneration: nat)

  const EMPTY_DECK: DeckState :=
    DeckState(NO_LOAD, false, false, false, None, None, None, None, 0.0, 0)

  /** The 64-bit redraw counter, wrapping. */
  function Bump(generation: nat): nat {
    (generation + 1) % 0x1_0000_0000_0000_0000
  }

  /** Take on another deck's loaded track: the identity moves whole; a pending fetch and the
      loop pads belong to the track that left. */
  function AdoptLoadedTrack(d: DeckState, from: DeckState): DeckState {
    d.(load := from.load, isLoading := false, activeLoopBars := None, activeLoopBeats := None,
       pendingLoopInSecs := None)
  }

  function ClearedIdentity(l: LoadIdentity): LoadIdentity {
    NO_LOAD.(formatChip := l.formatChip, gridBeatsPerBar := l.gridBeatsPerBar)
  }

  /** Forget the loaded track. The format chip and the grid's meter are not in the list of
      fields it resets. */
  function ClearLoadedTrack(d: DeckState): DeckState {
    d.(load := ClearedIdentity(d.load), isLoading := false)
  }

  /** `clearLoadedTrack` is documented as the inverse of `adoptLoadedTrack` over the same field
      set. It empties the deck's identity exactly when the two fields it skips were already at
      their defaults; otherwise adopting an empty deck and clearing leave different decks. */
  lemma ClearMatchesAdoptingEmptyExactly(d: DeckState)
    ensures ClearLoadedTrack(d).load == AdoptLoadedTrack(d, EMPTY_DECK).load
       <==> d.load.formatChip == None && d.load.gridBeatsPerBar == 4
    ensures !ClearLoadedTrack(d).isLoading && ClearLoadedTrack(d).quickScratch == d.quickScratch
  {
    var l := ClearLoadedTrack(d).load;
    assert l.formatChip == d.load.formatChip && l.gridBeatsPerBar == d.load.gridBeatsPerBar;
    if d.load.formatChip == None && d.load.gridBeatsPerBar == 4 {
      assert l == NO_LOAD;
    }
  }
}
