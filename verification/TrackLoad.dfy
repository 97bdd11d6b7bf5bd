/**
 What a load writes on a deck (apple/Dub/MainView.swift, `loadTrack`): a paint before the decode, and
 a landing after it. In between the deck belongs to whatever else happens.
 */
module TrackLoad {
  import opened Prelude
  import opened DeckState

  /** A file to load: `name` is its name without the extension. */
  datatype TrackFile = TrackFile(url: string, name: string)

  /** The grid the library holds for a file, and where it came from. */
  datatype LibraryGrid = LibraryGrid(bpm: real, source: string)

  datatype BrowserRow = BrowserRow(gridLocked: bool, gridDriftQuality: Option<real>)

  datatype HistoryHint = HistoryHint(title: string, trackId: string)

  /** What the library knows of a file. `selected` is the browser's row, when it shows this track. */
  datatype LibraryRow = LibraryRow(
    trackId: string, cues: Option<seq<Option<CueMark>>>, key: Option<string>,
    selected: Option<BrowserRow>, hint: Option<HistoryHint>)

  /** Nothing is known of the file yet. The anchor, the meter, the lock and the cues stay. */
  function Unknown(l: LoadIdentity): LoadIdentity {
    l.(trackTitle := None, trackArtist := None, bpm := None, bpmConfidence := 0.0, key := None,
       autoGridBpm := None, autoGridAnchorSecs := None, autoGridCaptured := false,
       manualGridEditCount := 0)
  }

  /** The paint: the new file's name over whatever the deck still plays. */
  function PaintedDeck(d: DeckState, file: TrackFile, grid: Option<LibraryGrid>): DeckState {
    d.(load := Unknown(d.load).(
         sourceURL := Some(file.url), displayName := Some(file.name),
         beatGridLoadSource := Some(if grid.Some? then grid.value.source else "pending_auto")),
       isLoading := true)
  }

  /** The file's row is stamped, or every trace of the last one's goes. */
  function Recorded(l: LoadIdentity, row: Option<LibraryRow>): LoadIdentity {
    match row
    case None => l.(loadedLibraryTrackId := None, historyHint := None, historyHintTrackId := None)
    case Some(r) =>
      var named := l.(
        loadedLibraryTrackId := Some(r.trackId), key := r.key,
        hotCues := if r.cues.Some? then r.cues.value else l.hotCues,
        historyHint := if r.hint.Some? then Some(r.hint.value.title) else None,
        historyHintTrackId := if r.hint.Some? then Some(r.hint.value.trackId) else None);
      if r.selected.None? then named
      else named.(gridLocked := r.selected.value.gridLocked,
                  gridDriftQuality := r.selected.value.gridDriftQuality)
  }

  /** A track is there, without cues, at the library's tempo, tagged as the engine found it. */
  function Tagged(l: LoadIdentity, chip: Option<string>, grid: Option<LibraryGrid>, info: Option<TrackRef>)
    : LoadIdentity
  {
    var known := l.(hasTrack := true, hotCues := NO_CUES,
                    bpm := if grid.Some? then Some(grid.value.bpm) else None,
                    bpmConfidence := if grid.Some? then 1.0 else 0.0);
    if info.None? then known
    else known.(formatChip := chip, trackTitle := info.value.title, trackArtist := info.value.artist)
  }

  /** The landing. `info` is the buffer the deck holds by then; the name painted is not written
      again, nor are the anchor and the meter. */
  function LandedDeck(d: DeckState, chip: Option<string>, grid: Option<LibraryGrid>,
                      info: Option<TrackRef>, row: Option<LibraryRow>): DeckState
  {
    d.(load := Recorded(Tagged(d.load, chip, grid, info), row), isPlaying := false, atEnd := false,
       isLoading := false)
  }

  /** A load that failed ends the wait and leaves the paint. */
  function FailedDeck(d: DeckState): DeckState {
    d.(isLoading := false)
  }

  /** The paint names the new file and forgets the old one's tags and tempo; the flag, the library row,
      the cues, the anchor and the meter are still the old one's. */
  lemma PaintNames(d: DeckState, file: TrackFile, grid: Option<LibraryGrid>)
    ensures var n := PaintedDeck(d, file, grid);
            && n.load.sourceURL == Some(file.url) && n.load.displayName == Some(file.name)
            && n.load.hasTrack == d.load.hasTrack && n.load.loadedLibraryTrackId == d.load.loadedLibraryTrackId
            && n.load.trackTitle == None && n.load.trackArtist == None && n.load.key == None
            && n.load.bpm == None && n.load.bpmConfidence == 0.0
            && n.load.autoGridBpm == None && n.load.autoGridAnchorSecs == None && !n.load.autoGridCaptured
            && n.load.gridAnchorSecs == d.load.gridAnchorSecs && n.load.gridBeatsPerBar == d.load.gridBeatsPerBar
            && n.load.hotCues == d.load.hotCues && n.load.manualGridEditCount == 0
            && n.load.beatGridLoadSource == Some(if grid.Some? then grid.value.source else "pending_auto")
            && n.isLoading && n.quickScratch == d.quickScratch && n.isPlaying == d.isPlaying
  {
  }

  lemma TagsAreRead(l: LoadIdentity, chip: Option<string>, grid: Option<LibraryGrid>, info: Option<TrackRef>)
    ensures var n := Tagged(l, chip, grid, info);
            && n.hasTrack && n.hotCues == NO_CUES && n.key == l.key
            && n.sourceURL == l.sourceURL && n.displayName == l.displayName
            && n.gridAnchorSecs == l.gridAnchorSecs && n.gridBeatsPerBar == l.gridBeatsPerBar
            && n.gridLocked == l.gridLocked && n.gridDriftQuality == l.gridDriftQuality
            && (info.Some? ==> n.trackTitle == info.value.title && n.trackArtist == info.value.artist
                               && n.formatChip == chip)
            && (info.None? ==> n.trackTitle == l.trackTitle && n.trackArtist == l.trackArtist
                               && n.formatChip == l.formatChip)
            && (grid.Some? ==> n.bpm == Some(grid.value.bpm) && n.bpmConfidence == 1.0)
            && (grid.None? ==> n.bpm == None && n.bpmConfidence == 0.0)
  {
  }

  lemma RecordedInherits(l: LoadIdentity, row: Option<LibraryRow>)
    ensures var n := Recorded(l, row);
            && n.sourceURL == l.sourceURL && n.displayName == l.displayName && n.hasTrack == l.hasTrack
            && n.trackTitle == l.trackTitle && n.trackArtist == l.trackArtist && n.formatChip == l.formatChip
            && n.bpm == l.bpm && n.bpmConfidence == l.bpmConfidence
            && n.gridAnchorSecs == l.gridAnchorSecs && n.gridBeatsPerBar == l.gridBeatsPerBar
            && (row.None? || row.value.selected.None? ==>
                  n.gridLocked == l.gridLocked && n.gridDriftQuality == l.gridDriftQuality)
  {
  }

  /** The identity is stamped with the file's row and with no other: its id, key and hint and, where the
      library could read them, its cues; a file without a row leaves no id and no hint. */
  lemma RowIsStamped(l: LoadIdentity, row: Option<LibraryRow>)
    ensures var n := Recorded(l, row);
            && (row.None? ==>
                  && n.loadedLibraryTrackId == None && n.historyHint == None && n.historyHintTrackId == None
                  && n.hotCues == l.hotCues && n.key == l.key)
            && (row.Some? ==>
                  var r := row.value;
                  && n.loadedLibraryTrackId == Some(r.trackId) && n.key == r.key
                  && n.hotCues == (if r.cues.Some? then r.cues.value else l.hotCues)
                  && (n.historyHint.Some? <==> r.hint.Some?) && (n.historyHintTrackId.Some? <==> r.hint.Some?)
                  && (r.hint.Some? ==> n.historyHint == Some(r.hint.value.title)
                                       && n.historyHintTrackId == Some(r.hint.value.trackId))
                  && (r.selected.Some? ==> n.gridLocked == r.selected.value.gridLocked
                                           && n.gridDriftQuality == r.selected.value.gridDriftQuality))
  {
  }

  /** So a landed deck has the cues and the row of its own file and nothing of the last one's. */
  lemma LandingBelongsToItsRow(d: DeckState, chip: Option<string>, grid: Option<LibraryGrid>,
                               info: Option<TrackRef>, row: Option<LibraryRow>)
    ensures var l := LandedDeck(d, chip, grid, info, row).load;
            && (row.None? ==> l.loadedLibraryTrackId == None && l.hotCues == NO_CUES && l.key == d.load.key)
            && (row.Some? ==>
                  && l.loadedLibraryTrackId == Some(row.value.trackId) && l.key == row.value.key
                  && l.hotCues == (if row.value.cues.Some? then row.value.cues.value else NO_CUES))
  {
    hide Recorded, Tagged;
    TagsAreRead(d.load, chip, grid, info);
    RowIsStamped(Tagged(d.load, chip, grid, info), row);
  }

  /** The landing says a track is there, reads its tags and takes the library's tempo, and leaves the
      name, the anchor and the meter to whoever wrote them last; so too the lock, but for the track the
      browser shows. */
  lemma LandingInherits(d: DeckState, chip: Option<string>, grid: Option<LibraryGrid>,
                        info: Option<TrackRef>, row: Option<LibraryRow>)
    ensures var (l, n) := (d.load, LandedDeck(d, chip, grid, info, row));
            && n.load.sourceURL == l.sourceURL && n.load.displayName == l.displayName
            && n.load.hasTrack && !n.isLoading && !n.isPlaying && !n.atEnd && n.quickScratch == d.quickScratch
            && (info.Some? ==> n.load.trackTitle == info.value.title && n.load.trackArtist == info.value.artist
                               && n.load.formatChip == chip)
            && (info.None? ==> n.load.trackTitle == l.trackTitle && n.load.trackArtist == l.trackArtist
                               && n.load.formatChip == l.formatChip)
            && (grid.Some? ==> n.load.bpm == Some(grid.value.bpm) && n.load.bpmConfidence == 1.0)
            && (grid.None? ==> n.load.bpm == None && n.load.bpmConfidence == 0.0)
            && n.load.gridAnchorSecs == l.gridAnchorSecs && n.load.gridBeatsPerBar == l.gridBeatsPerBar
            && (row.None? || row.value.selected.None? ==>
                  n.load.gridLocked == l.gridLocked && n.load.gridDriftQuality == l.gridDriftQuality)
  {
    hide Recorded, Tagged;
    TagsAreRead(d.load, chip, grid, info);
    RecordedInherits(Tagged(d.load, chip, grid, info), row);
  }
}
