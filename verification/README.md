# Dub: a verified model of the deck logic

Dub is a DJ application: a Swift interface (`apple/Dub`) over a Rust audio engine
(`crates`). This project models the parts of it whose state lives longest and is touched
from most places, and proves what each promises over every run.

| file | models |
|---|---|
| `Prelude.dfy`, `Reals.dfy` | optional values, the two decks, and shared facts about reals |
| `DeckState.dfy` | the load identity that moves between decks |
| `QuickScratch.dfy` | the app's Quick Scratch and Instant Double, with its two park dictionaries |
| `TrackLoad.dfy` | what a load writes on a deck: a paint before the decode, a landing after it |
| `LoadedGrid.dfy` | the grid a loaded deck ends with, poll by poll |
| `QuickScratchEngine.dfy` | Quick Scratch, doubles, loads, live sources and the sample bank across three layers: the app, the facade (`dub-ffi`) and the audio thread (`dub-engine`), each with its own tables |
| `ScratchRate.dfy` | the mouse-scratch gesture: low-pass filter, clamp, stall watchdog, stale ticks, and the transport around it |
| `ActionIds.dfy`, `Keymap.dfy` | the action ids, the sparse keymap store, the resolved table and the dispatcher |
| `Analysis.dfy` | lazy and batch track analysis sharing one in-flight set |
| `EngineStart.dfy` | background engine starts and their tickets |
| `DeviceProbe.dfy` | debounced device probes and what one applies |
| `TempoGate.dfy`, `PublishRate.dfy` | two gates whose small state stands for a history |
| `EchoLine.dfy` | the echo-out delay line of `dub-dsp`: ring, capture, filtered feedback, cross-fade, auto-off |
| `Echo.dfy` | the echo pad over that line: an engaged echo mutes its deck, so it must show |
| `LoopRegion.dfy` | beat snapping, reverse-loop regions and the wrap that keeps a playhead in one |
| `LoopDeck.dfy` | the loop controls in beats, bars and by hand: what the app paints against what the engine loops |
| `DeckSplit.dfy` | where the app puts the boundary between decks and library |
| `FrameWalk.dfy` | the stall watchdog's frame-pointer walk |

Code that updates fields in place is a class whose methods are proved equal to a function on
values; the properties are then lemmas about that function over runs. Where the values hold
something the objects do not (the count a wrapping generation stands for, the identity of a gesture
object), the class carries it as a ghost. Protocols are interleavings of atomic steps between
suspension points. A step carries what the outside contributes: whether the audio command queue had
room, what the telemetry read, what the clock said. Times, rates, pitches, gains and samples are
reals. The decay of the scratch filter is any function with the laws of an exponential (`E(0) = 1`,
`E(s + t) = E(s) E(t)`, values in `(0, 1]`).

## Where the code departs from its comments or its screen

Each of these is proved below, with the exact condition.

- The facade decides whether a release is doubled back by comparing the other deck's buffer with
  the parked one and calls it the test the engine applies (`crates/dub-ffi/src/lib.rs:2939`). The
  engine asks whether this scratch doubled the tune. After an instant double the two differ, and
  the other deck shows empty while it plays (`UndoubledReleaseAgreesExactly`).
- A press on a pad whose slot the engine has not loaded shows the sample while the tune plays, and
  the next poll drops the park (`EmptySlotPressIsNotRepaired`). A slot bound anew names its file at
  once; until its decode ends well, and for good if it fails or an older decode ends later, a press
  shows one sample and plays another (`PressAgreesExactly`, `SampleLoadExactly`). A refused release loses the
  facade's park for good (`RefusedReleaseStrandsTheDeck`). A release after a load and before the
  poll puts the old track's identity back on show (`StaleReleaseAgreesExactly`).
- A switch to a live source empties the deck's header whatever the engine answers, so a refused one
  shows an empty deck over a playing track (`GoLiveAgreesExactly`).
- A load paints the new file's name before it decodes and never writes it again. A failure leaves it
  there, over the old track's row, cues and audio (`LandingAgreesExactly`,
  `FailedLoadMixesTwoTracks`). A double off the deck meanwhile copies the old track under the new name
  (`DoubleOffALoadExactly`); a double onto it, a scratch, a live source or a restart takes the name
  from under the load (`DoubleOntoALoadExactly`, `PressOverALoadExactly`, `ClearedLoadExactly`,
  `RestartedLoadExactly`).
- A load with a library grid over a deck that held an anchor keeps the last track's anchor and meter
  (`LandedAnchorExactly`).
- `clearLoadedTrack` and `adoptLoadedTrack` are documented as inverse over one field set; the format
  chip and the grid's meter are adopted and never cleared (`ClearMatchesAdoptingEmptyExactly`).
- Command-comma is documented as always opening Preferences. Load-selection's row comes first and
  binding it there robs nothing (`CommandCommaExactly`).
- The id reader is documented as refusing every id no version has issued. It takes a padded or signed
  index, and stray dots, for the same action (`ReaderAcceptsExactly`, `ReaderAcceptsAliases`).
- A cursor that reports motion of zero keeps the stall watchdog satisfied, so the last rate holds
  (`StillCursorExactly`). The watchdog sends zero once, so a deck whose engine refused that command
  turns on (`DeckStopsExactly`).
- Ending a scratch is documented as cancelling the panic it engaged. It does so for a deck that was
  paused; one that was playing from the platter is left in panic (`GestureRestoresTransportExactly`),
  and so is a deck whose press was refused half way (`RefusedPressLeavesPanic`).
- A manual loop closed over a running one keeps the old length pad lit
  (`ManualLoopLightsExactly`); the bars pad keeps its length through every resize
  (`BarsPadStaysPut`); a grab the grid cannot place lights its pad, and over a running loop
  the poll leaves it lit (`UnplacedGrabExactly`); a second resize before a poll scales the pad twice
  and the loop once (`SecondPressIsStale`); a load leaves an armed IN point armed
  (`ArmedInSurvivesALoad`).
- Reverse loops near the track's start are documented as moved forward rather than refused. A length
  such as two and a half beats is refused (`MixedLengthIsNotMovedForward`).
- The echo is documented as doing nothing until a tempo is known and as lighting from the engine's
  state. The code falls back to 120 and lights first, so a refused or backwards press leaves a lit
  pad over no echo (`DeadPadExactly`).
- The frame walk is documented as bounded to the thread's stack. Its bound check adds sixteen to the
  frame pointer first, which stops the process near the top of the address space (`TrapsExactly`).
- Comments call the deck poll 30 Hz. Its interval is a tenth of a second
  (`apple/Dub/MainView.swift:1451`), so the ten polls the tempo gate waits are a second.

## Model

| member | source | states |
|---|---|---|
| `DeckState.ClearMatchesAdoptingEmptyExactly` | apple/Dub/MainView.swift:511-576 | clearing a deck and adopting an empty one agree exactly when the two fields clearing skips were at their defaults |
| `QuickScratch.EngageEffect` | apple/Dub/MainView.swift:5276-5328 | what an accepted press leaves on both decks and in both park dictionaries, doubled or not |
| `QuickScratch.PressShowsTheSample` | apple/Dub/MainView.swift:5315-5328 | the deck shows the sample, under both its names, and no tempo, grid, key, cue or row of the tune it covers |
| `QuickScratch.LitPadReleases` | apple/Dub/MainView.swift:5276-5328 | an accepted press of the lit pad is the release; of any other pad it lights that one |
| `QuickScratch.ReleaseEffect` | apple/Dub/MainView.swift:5336-5370 | what an accepted release restores, resets and forgets |
| `QuickScratch.PollEffect` | apple/Dub/MainView.swift:2261-2452 | what a poll leaves: the same track with its grid filled in where the engine has one, and the scratch dropped exactly when the engine reports none outside the grace time of the press |
| `QuickScratch.KnownGridLatches` | apple/Dub/MainView.swift:2396-2452 | once tempo, anchor and first grid are known no run of polls changes them, whatever the engine reports later |
| `LoadedGrid.LandedAnchorExactly` | apple/Dub/MainView.swift:2403-2452 | after a landing and thirty polls a deck is anchored at the first downbeat of its own grid, under its own meter, if and only if the load came without a library grid or the deck held no anchor (or the same one); otherwise it keeps the anchor and meter of the last track for ever, beside the new tempo |
| `LoadedGrid.MissingGridArrives` | apple/Dub/MainView.swift:2403-2452 | a deck that lacks tempo or anchor has, within thirty polls, the tempo, confidence and meter of the engine (one beat at least), and as its anchor the earliest line that starts a bar, or the first line of a grid too short to hold one |
| `LoadedGrid.TakenGridIsTheEngines` | apple/Dub/MainView.swift:2415-2426 | the same of the one poll that takes the grid; a grid with a whole bar of lines has a downbeat among them |
| `LoadedGrid.DownbeatIndex` | apple/Dub/MainView.swift:2419-2426 | for any meter and any phase, however large, the index the poll computes is the first whose bar position is zero |
| `LoadedGrid.FirstGridIsCaptured` | apple/Dub/MainView.swift:2454-2487 | the first analysed grid a loaded deck is polled with is kept as the automatic grid, once, unless the load brought a grid of the library; a load waiting for one is marked as having it |
| `QuickScratch.UnreadyGridIsNotTaken` | apple/Dub/MainView.swift:2403-2414 | a poll of an empty deck, or before the analysis is done, takes no grid |
| `LoadedGrid.HeldGridStays` | apple/Dub/MainView.swift:2403-2452 | tempo, anchor and meter once held stay through every run of polls |
| `TrackLoad.LandingInherits` | apple/Dub/MainView.swift:2700-2740 | a landing says a track is there and reads its tags, and leaves name, anchor and meter to whoever wrote them last, the lock too unless the browser shows the track |
| `TrackLoad.PaintNames` | apple/Dub/MainView.swift:2616-2648 | a paint names the new file, forgets tags, tempo and automatic grid, and keeps the row, cues, anchor and meter of the track that plays on |
| `TrackLoad.LandingBelongsToItsRow` | apple/Dub/MainView.swift:2700-2740 | a landed deck carries the id, key and cues of the row of its own file, or no id and no cues where it has none |
| `TrackLoad.RowIsStamped` | apple/Dub/MainView.swift:3523-3608 | what recording a load stamps on the deck: the row, and nothing of the row before it |
| `QuickScratch.ReleaseAlwaysFindsThePark` | apple/Dub/MainView.swift:5276-5370 | in every run a deck showing a scratch has its tune parked under the very title its header shows, through every swap, and what the other deck showed is set aside if the tune was doubled there; release never falls back to an empty deck |
| `QuickScratch.ReachableDecksHaveParks` | apple/Dub/MainView.swift:5276-5370 | so it is in every state reachable from launch |
| `QuickScratch.ScratchRoundTrip` | apple/Dub/MainView.swift:5276-5370 | press, any undisturbing run, release: the deck's whole load identity is back and the other deck is untouched by the release |
| `QuickScratch.DoubledScratchRoundTrip` | apple/Dub/MainView.swift:5276-5370 | with the tune doubled across, the host gets back its identity from before the press and the scratched deck gets the host's from just before the release |
| `QuickScratch.RedoublingForgetsTheHost` | apple/Dub/MainView.swift:5276-5328 | a swap that doubled again would return the first identity exactly when the host had not changed |
| `QuickScratch.DropForgetsBothParks` | apple/Dub/MainView.swift:2366-2377 | after a poll drops a scratch, a release changes nothing |
| `QuickScratch.ScratchIsDroppedExactly` | apple/Dub/MainView.swift:2366-2377 | a poll gives up on a scratch, and on both parks, if and only if the engine has none and the last press is more than a quarter of a second old |
| `QuickScratch.FreshPressIsNotDropped` | apple/Dub/MainView.swift:5276-5328 | through every run of polls in the first quarter of a second after a press, whatever the engine says, the deck keeps the scratch and both parks |
| `QuickScratch.PollShowsTheTransport` | apple/Dub/MainView.swift:2261-2377 | after a poll the transport shown is the transport of the engine, and the pads of a loop it no longer runs are out |
| `QuickScratch.DoubleCopiesTheIdentity` | apple/Dub/MainView.swift:5153-5177 | an accepted double gives the other deck the whole identity, ends its wait and its loop pads, redraws it and leaves its transport and its scratch |
| `QuickScratch.IdleStepsDoNothing` | apple/Dub/MainView.swift:5153-5345 | without an engine, a sample, a scratch to end or a track to double, and when refused, a step changes nothing |
| `QuickScratch.StoppedDecksStayEmpty` | apple/Dub/MainView.swift:1737-1751 | from a stop to the next start no run of presses, releases, polls, doubles and stops shows anything on either deck |
| `QuickScratch.QuickScratchModel.ToggleQuickScratch` | apple/Dub/MainView.swift:5276-5328 | the two decks and park dictionaries after a press are the specification's: engage, swap, or release of the lit pad |
| `QuickScratch.QuickScratchModel.ReleaseQuickScratch` | apple/Dub/MainView.swift:5336-5370 | the decks and parks after a release are the specification's, refusals included |
| `QuickScratch.QuickScratchModel.ReadDeckState` | apple/Dub/MainView.swift:2261-2452 | decks, parks and grid ticks after a poll are the specification's |
| `QuickScratch.QuickScratchModel.FollowScratch` | apple/Dub/MainView.swift:2366-2377 | drop and grace time: what is kept of the scratch and of the parks |
| `QuickScratch.QuickScratchModel.ReadGrid` | apple/Dub/MainView.swift:2403-2452 | the throttled grid: asked for every thirtieth poll until tempo and anchor are known, then left alone |
| `QuickScratch.QuickScratchModel.InstantDoubleTo` | apple/Dub/MainView.swift:5153-5177 | an instant double moves the load identity, or nothing when refused by the engine or by a recording |
| `QuickScratch.QuickScratchModel.LoadTrack` | apple/Dub/MainView.swift:2584-2648 | guards and paint: the deck before the suspension is the specification's |
| `QuickScratch.QuickScratchModel.LoadLanded` | apple/Dub/MainView.swift:2700-2762 | both arms after it: the deck is the specification's |
| `QuickScratch.QuickScratchModel.StopDecks` | apple/Dub/MainView.swift:1737-1751 | stopping empties the decks and leaves the parks |
| `QuickScratchEngine.DecksShowWhatTheyPlay` | crates/dub-ffi/src/lib.rs:2854-2976 | over every run of safe actions each deck with no load in flight shows the file of the track the audio thread plays, and one with a load in flight the file on its way. Polls, edits, sampler traffic, the start of a load and the end of its decode are safe without any condition; the rest is safe under the conditions of the exact theorems below, and for the most part only while no load is in flight on a deck it renames |
| `QuickScratchEngine.StepKeepsInv` | crates/dub-engine/src/lib.rs:2327-2550 | one safe step, paints, installs, landings and refusals among them, keeps the parks of the three layers holding the same tunes and the decks showing what they may |
| `QuickScratchEngine.PowerOnIsSound` | crates/dub-ffi/src/lib.rs:951-970 | the power-on state satisfies the invariant, so every safe run from launch shows what it plays |
| `QuickScratchEngine.PollSyncs` | apple/Dub/MainView.swift:2366-2377 | a poll outside the grace time puts a deck back in step with the facade |
| `QuickScratchEngine.LoadBeginsExactly` | apple/Dub/MainView.swift:2584-2648 | a load begins, and paints, if and only if nothing forbids it, the engine runs and the deck waits for none |
| `QuickScratchEngine.PressMovesTheTune` | crates/dub-ffi/src/lib.rs:2854-2917 | an accepted press puts the sample of the slot on the deck, and moves the tune to the other deck if and only if it was the own tune of the deck, on air, with the other deck silent; what that deck held is then set aside in the facade and on the audio thread |
| `QuickScratchEngine.DoubleOfNoFile` | crates/dub-ffi/src/lib.rs:3046-3062 | a double off a deck for which the engine holds no file is answered as done: the other deck shows what it does not play |
| `QuickScratchEngine.OffIsDead` | apple/Dub/MainView.swift:5153-5345 | with the engine off no press, release, poll, double, load or sampler command touches any of the three layers |
| `QuickScratchEngine.ReleaseAgreesExactly` | crates/dub-ffi/src/lib.rs:2926-2976 | a release in step keeps every deck honest if and only if the facade's pointer test fails, or the scratch doubled the tune and the host's view is kept (or the host was empty with nothing else set aside), or it doubled nothing and what is set aside for the other deck is the tune that deck holds |
| `QuickScratchEngine.DoubledReleaseAgrees` | crates/dub-engine/src/lib.rs:2442-2532 | in the common case, a scratch that doubled its tune with the view of the host still kept, the release is always right |
| `QuickScratchEngine.UndoubledReleaseAgreesExactly` | crates/dub-ffi/src/lib.rs:2939-2962 | a scratch that doubled nothing releases honestly exactly when the other deck does not hold the parked buffer |
| `QuickScratchEngine.StaleReleaseAgreesExactly` | apple/Dub/MainView.swift:5336-5370 | a release over an unpolled load is right exactly when the old park describes what the deck now holds |
| `QuickScratchEngine.GoLiveAgreesExactly` | apple/Dub/MainView.swift:4783-4815 | switching to a live source shows what plays if and only if the engine took the switch or held no file |
| `QuickScratchEngine.LandingAgreesExactly` | apple/Dub/MainView.swift:2700-2762 | a load that has come back, after any safe run, shows what plays if and only if it was installed or names the file the deck already holds |
| `QuickScratchEngine.FinishedLoadAgreesExactly` | apple/Dub/MainView.swift:2616-2762 | from any state at all, whatever has become of a deck since the paint: once a load of it has ended and the poll has passed, it shows what it plays if and only if the name it showed when the decode ended is that of the file it then holds |
| `QuickScratchEngine.DoubleOffALoadExactly` | apple/Dub/MainView.swift:5153-5177 | a double off a loading deck is right if and only if the load is already installed or both tracks are one file; otherwise the other deck keeps the wrong name through every poll and the landing |
| `QuickScratchEngine.DoubleOntoALoadExactly` | apple/Dub/MainView.swift:5153-5177 | a double onto a loading deck ends right if and only if nothing is installed any more or both tracks are one file |
| `QuickScratchEngine.ClearedLoadExactly` | apple/Dub/MainView.swift:4783-4815 | a live source chosen while a deck loads ends right if and only if nothing is installed after it |
| `QuickScratchEngine.RestartedLoadExactly` | apple/Dub/MainView.swift:1737-1751 | so for a restart while a deck loads |
| `QuickScratchEngine.PressOverALoadExactly` | apple/Dub/MainView.swift:5276-5328 | a scratch pressed while a deck loads ends right if and only if nothing is installed after it or the loaded file is the sample |
| `QuickScratchEngine.RacingLoadsExactly` | crates/dub-ffi/src/lib.rs:1616-1640 | with two loads in flight on one deck the name is the newer one and the track whichever decode ends last: right if and only if that is the newer, or both are one file |
| `QuickScratchEngine.BystandersRepairNothing` | apple/Dub/MainView.swift:2261-2452 | a deck with the wrong name keeps it through every run of polls, sampler traffic and loads of the other deck |
| `QuickScratchEngine.FailedLoadMixesTwoTracks` | apple/Dub/MainView.swift:2616-2762 | a failed load leaves the new name over the old row, cues and audio, and the poll does not repair it |
| `QuickScratchEngine.PressAgreesExactly` | apple/Dub/MainView.swift:5276-5328 | a press in step keeps the decks honest if and only if the slot holds, in the facade and on the audio thread, the file the bank names, or is empty under a deck that plays that file |
| `QuickScratchEngine.WrongPressIsNotRepaired` | apple/Dub/MainView.swift:5219-5328 | any other press stays wrong through every run of polls, rebindings and late decodes |
| `QuickScratchEngine.SampleLoadExactly` | crates/dub-ffi/src/lib.rs:2767-2818 | how a sampler load may end, and for each way exactly when the slot then holds the file of the bank; a refused gain leaves the two tables with different samples |
| `QuickScratchEngine.SampleClearExactly` | crates/dub-ffi/src/lib.rs:2767-2832 | a clear empties its slot in both tables exactly when the engine takes it; neither it nor a load reaches any other slot |
| `QuickScratchEngine.EmptySlotPressIsNotRepaired` | crates/dub-ffi/src/lib.rs:2803-2917 | after such a press the poll throws the park away and the deck stays wrong |
| `QuickScratchEngine.RefusedReleaseStrandsTheDeck` | crates/dub-ffi/src/lib.rs:2926-2976 | a refused release has lost the facade's park; no second press brings it back, and the decks agree only if tune and sample are one file |
| `QuickScratchEngine.DoubledTuneThenScratchShowsAnEmptyDeck` | crates/dub-ffi/src/lib.rs:3046-3090 | eight safe steps from a cold start and a release reach a playing deck shown empty |
| `QuickScratchEngine.RunningState.QuickScratchEngage` | crates/dub-ffi/src/lib.rs:2854-2917 | the facade's buffers and parks after an engage are the specification's, errors included |
| `QuickScratchEngine.RunningState.QuickScratchRelease` | crates/dub-ffi/src/lib.rs:2926-2976 | the facade's buffers and parks after a release are the specification's, including what a refusal loses |
| `QuickScratchEngine.RunningState.InstallTrack` | crates/dub-ffi/src/lib.rs:1736-1783 | the decoded track takes the deck and drops its park and host view, or nothing changes when refused |
| `QuickScratchEngine.RunningState.SamplerLoad` | crates/dub-ffi/src/lib.rs:2767-2818 | the slot is filled only when both commands were taken, though the first alone reaches the audio thread |
| `QuickScratchEngine.RunningState.SamplerClear` | crates/dub-ffi/src/lib.rs:2822-2832 | the slot is emptied only when the command was taken |
| `QuickScratchEngine.Engine.QuickScratchEngage` | crates/dub-engine/src/lib.rs:2327-2437 | the audio thread's sources and parks after an engage are the specification's: park, swap, tune doubled across |
| `QuickScratchEngine.Engine.QuickScratchRelease` | crates/dub-engine/src/lib.rs:2442-2532 | the audio thread's sources and parks after a release are the specification's: tune back, host reverted or abandoned |
| `ActionIds.DecimalRoundTrip` | apple/Dub/DesignSystem/DubKeymap.swift:78-131 | printing and reading a 64-bit index is the identity |
| `ActionIds.IdRoundTrip` | apple/Dub/DesignSystem/DubKeymap.swift:78-131 | reading the printed id of any action gives that action |
| `ActionIds.IdsAreInjective` | apple/Dub/DesignSystem/DubKeymap.swift:78-93 | no two actions print one id |
| `ActionIds.ReaderAcceptsExactly` | apple/Dub/DesignSystem/DubKeymap.swift:95-131 | a stored id reads as an action if and only if it has the parts of the id that action prints, but for empty parts and for how a number is written; a typo in any word is refused |
| `ActionIds.ReaderAcceptsAliases` | apple/Dub/DesignSystem/DubKeymap.swift:97-131 | the reader also takes ids no action prints, such as a padded index |
| `Keymap.StoreRefinesPlainMap` | apple/Dub/DesignSystem/DubKeymapStore.swift:64-158 | over every run of binds, clears, resets and relaunches the sparse store is the plain one-key-one-action map |
| `Keymap.BindRefines` | apple/Dub/DesignSystem/DubKeymapStore.swift:78-88 | a bind gives the chord to its action, takes it from exactly the other remappable holder and changes nothing else |
| `Keymap.BindResolves` | apple/Dub/DesignSystem/DubKeymapStore.swift:78-138 | what every action resolves to after a bind |
| `Keymap.BindStealsExactly` | apple/Dub/DesignSystem/DubKeymapStore.swift:78-88 | an action loses its key to a bind if and only if it is another, may be rebound, and would have answered to the chord, by its code or by the letter on its cap |
| `Keymap.BoundCapPrintsItsChord` | apple/Dub/DesignSystem/DubKeymapStore.swift:78-138 | the cap of a bound action prints the legend of the chord it was given, and the action answers to that code |
| `Keymap.FoldPairsTheCases` | apple/Dub/DesignSystem/DubKeymap.swift:248-266 | two characters are one key exactly when they are equal or the two cases of one letter |
| `Keymap.FoldIsLetterwise` | apple/Dub/DesignSystem/DubKeymap.swift:248-266 | a legend of several letters is folded letter by letter |
| `Keymap.ClearRefines` | apple/Dub/DesignSystem/DubKeymapStore.swift:91-97 | a clear unbinds one action |
| `Keymap.ByActionIsResolution` | apple/Dub/DesignSystem/DubKeymapStore.swift:115-138 | the dictionary behind the caps is the resolution, in any table order |
| `Keymap.TableMembers` | apple/Dub/DesignSystem/DubKeymapStore.swift:115-138 | the rows of the rebuilt table are exactly the resolved bindings |
| `Keymap.PreferencesNeverMoves` | apple/Dub/DesignSystem/DubKeymap.swift:133-137 | Preferences keeps its default binding in every sound store |
| `Keymap.EmptyProfileIsSound` | apple/Dub/DesignSystem/DubKeymapStore.swift:64-72 | an empty profile satisfies what every edit keeps |
| `Keymap.DispatchTakesAFiringRow` | apple/Dub/DesignSystem/DubKeymap.swift:248-266 | the dispatcher answers exactly when some row fires, with a row that does |
| `Keymap.DispatchAgreesWithCaps` | apple/Dub/DesignSystem/DubKeymap.swift:248-273 | for every event but command-comma, dispatch gives an action exactly when the binding its cap prints is that key |
| `Keymap.CommandCommaExactly` | apple/Dub/DesignSystem/DubKeymap.swift:230-266 | command-comma opens Preferences if and only if load-selection is not bound to it |
| `Keymap.PreferencesCanBeShadowed` | apple/Dub/DesignSystem/DubKeymap.swift:230-266 | one bind from the factory map reaches a store where it does not |
| `Keymap.BindMovesOneCap` | apple/Dub/DesignSystem/DubKeymapStore.swift:78-88 | the printed caps before and after a bind differ for the new and the robbed action only |
| `Keymap.ClearRemovesOneCap` | apple/Dub/DesignSystem/DubKeymapStore.swift:91-97 | the printed caps before and after a clear differ for one action only |
| `Keymap.DubKeymapStore.constructor` | apple/Dub/DesignSystem/DubKeymapStore.swift:64-72 | a store opens on its persisted profile with the table rebuilt |
| `Keymap.DubKeymapStore.Bind` | apple/Dub/DesignSystem/DubKeymapStore.swift:78-88 | the overrides after a bind are the specification's, and from a sound profile the printed caps change as the plain map says |
| `Keymap.DubKeymapStore.ClearBinding` | apple/Dub/DesignSystem/DubKeymapStore.swift:91-97 | the overrides after a clear are the specification's, and from a sound profile one cap goes |
| `Keymap.DubKeymapStore.ResetBindings` | apple/Dub/DesignSystem/DubKeymapStore.swift:100-103 | a reset leaves no override, no stored profile and the factory caps |
| `Keymap.DubKeymapStore.Rebuild` | apple/Dub/DesignSystem/DubKeymapStore.swift:115-138 | the table and the by-action dictionary rebuilt from the overrides |
| `Keymap.DubKeymapStore.SetOverrides` | apple/Dub/DesignSystem/DubKeymapStore.swift:100-164 | new overrides are persisted, resolved and counted as a revision |
| `Keymap.DubKeymapStore.Reassigned` | apple/Dub/DesignSystem/DubKeymapStore.swift:78-88 | the loop that unbinds the chord's other holders |
| `Keymap.DubKeymapStore.DefaultsUnder` | apple/Dub/DesignSystem/DubKeymapStore.swift:115-128 | the loop over the factory rows |
| `Keymap.DubKeymapStore.AppendExtras` | apple/Dub/DesignSystem/DubKeymapStore.swift:128-138 | the loop over overrides of actions with no factory row, in the order of their ids |
| `ScratchRate.PartitionInvariance` | apple/Dub/MainView.swift:4480-4528 | a steady cursor's smoothed rate ends where the continuous filter would, however many samples and ticks carried it, and the clamp never fires |
| `ScratchRate.DeckFollowsTheGesture` | apple/Dub/MainView.swift:4427-4528 | from a press the engine takes the deck stands still, and over every run of samples and ticks it takes it turns at the smoothed rate itself, whatever the other deck does |
| `ScratchRate.SteadyDragTurnsTheDeck` | apple/Dub/MainView.swift:4427-4528 | a steady drag brings the deck from rest towards the speed of the cursor along the continuous filter, however many samples carry it |
| `ScratchRate.SampleExactly` | apple/Dub/MainView.swift:4480-4528 | every sample is remembered; only one that moved, and came later than the last, sends a rate, and it sends the rate it leaves |
| `ScratchRate.TickExactly` | apple/Dub/MainView.swift:4634-4666 | a tick takes three tenths off a stalled rate, or all of one that would come under a hundredth, and sends what is left; any other does nothing |
| `ScratchRate.PressExactly` | apple/Dub/MainView.swift:4427-4471 | gesture, rate, transport and panic after a press, refusal by refusal |
| `ScratchRate.ReleaseExactly` | apple/Dub/MainView.swift:4549-4611 | gesture, rate, transport and panic after a release, both arms of the resume |
| `ScratchRate.SampleFollowsTheExponential` | apple/Dub/MainView.swift:4480-4528 | one prompt sample moves the rate along the exponential |
| `ScratchRate.StillCursorExactly` | apple/Dub/MainView.swift:4480-4528 | samples that do not move hold the rate, so the filter's formula survives exactly when the rate was zero |
| `ScratchRate.ShortGapExactly` | apple/Dub/MainView.swift:4480-4528 | a sample lands on the exponential exactly when it came at least a millisecond after the last |
| `ScratchRate.NineteenTicksStop` | apple/Dub/MainView.swift:4634-4666 | from any rate in range nineteen decays reach exactly zero |
| `ScratchRate.EighteenTicksDoNotStop` | apple/Dub/MainView.swift:4634-4666 | eighteen do not from full speed |
| `ScratchRate.StalledTicksRunDown` | apple/Dub/MainView.swift:4634-4666 | in every interleaving nineteen stalled ticks of a gesture bring its smoothed rate to zero, whatever the other deck does and the engine answers |
| `ScratchRate.DeckStopsExactly` | apple/Dub/MainView.swift:4634-4666 | the deck itself stops if and only if the engine took the one command that carried zero |
| `ScratchRate.ZeroIsSentOnce` | apple/Dub/MainView.swift:4634-4666 | a gesture at zero is never decayed again, so no later tick sends anything |
| `ScratchRate.RatesStayInRange` | apple/Dub/MainView.swift:4427-4666 | in every run no deck is told to spin past the limit |
| `ScratchRate.ReachableRatesAreInRange` | apple/Dub/MainView.swift:4427-4666 | so it is from launch, in either mode |
| `ScratchRate.StaleTicksDoNothing` | apple/Dub/MainView.swift:4634-4666 | a tick that captured an ended gesture changes nothing in any later state, even after the side is reused |
| `ScratchRate.EndRestoresUnityExactly` | apple/Dub/MainView.swift:4549-4611 | ending retires the gesture; the deck is at unity until a new one begins exactly when the engine took the rate or had unity already |
| `ScratchRate.GestureRestoresTransportExactly` | apple/Dub/MainView.swift:4427-4611 | press to release with every command taken restores playing or paused; panic too exactly when it was on for a deck playing in timecode mode and off for any other |
| `ScratchRate.RefusedPressLeavesPanic` | apple/Dub/MainView.swift:4427-4471 | a press refused after it engaged panic leaves the deck playing in panic with no gesture to release |
| `ScratchRate.ScratchState.Sample` | apple/Dub/MainView.swift:4480-4528 | the four fields of a gesture after a cursor sample are the specification's, and whether the engine is to be told |
| `ScratchRate.ScratchModel.Sampled` | apple/Dub/MainView.swift:4480-4528 | the gesture in the dictionary takes the sample and nothing else moves |
| `ScratchRate.ScratchModel.ScratchBegin` | apple/Dub/MainView.swift:4427-4471 | gestures, rates and transport after a press are the specification's: guards, panic, refusal and play |
| `ScratchRate.ScratchModel.ScratchPointerOffset` | apple/Dub/MainView.swift:4480-4528 | the smoothed rate and deck rate after a sample are the specification's |
| `ScratchRate.ScratchModel.ScratchTick` | apple/Dub/MainView.swift:4634-4666 | a tick acts only on the gesture object it captured, and then decays it as specified |
| `ScratchRate.ScratchModel.ScratchEnd` | apple/Dub/MainView.swift:4549-4611 | gestures, rates and transport after a release are the specification's, both arms of the resume and every refusal |
| `Analysis.OneAnalysisPerTrack` | apple/Dub/MainView.swift:3705-4013 | in every interleaving no track has two analyses running and the counter is the size of the in-flight set |
| `Analysis.ReachableIsSound` | apple/Dub/MainView.swift:3705-4013 | so it is in every state reachable from launch |
| `Analysis.StepKeepsInv` | apple/Dub/MainView.swift:3705-4013 | one atomic step keeps that |
| `Analysis.LandingIsCounted` | apple/Dub/MainView.swift:3705-3764 | the guards against a negative counter never decide anything |
| `Analysis.LazyBeginsExactly` | apple/Dub/MainView.swift:3705-3764 | a lazy analysis begins exactly when the library is open, none of the track is running and it has not been analysed |
| `Analysis.FooterBelongsToABatch` | apple/Dub/MainView.swift:3924-4013 | a batch takes the footer over when it starts, which it does exactly when the library is open and something was asked for, and takes it away when it finishes |
| `Analysis.BatchCountsEachEntryOnce` | apple/Dub/MainView.swift:3943-4013 | a batch no other overlaps counts each entry once and ends with completed equal to total |
| `Analysis.BusyTrackIsGivenUpOn` | apple/Dub/MainView.swift:3978-3986 | a batch that finds its track being analysed sleeps on it: as long as it stays busy the entry is not counted for 199 resumptions, and given up at the next, whatever else happens |
| `Analysis.WaitBeginsAndEnds` | apple/Dub/MainView.swift:3978-3990 | a wait that finds its track free starts the analysis, counting nothing yet, and every wait begins with all its ticks before it |
| `Analysis.BatchEnds` | apple/Dub/MainView.swift:3943-4013 | every batch ends: whatever lands and starts in between, within 201 resumptions an entry and one more |
| `Analysis.ResumeLeavesLess` | apple/Dub/MainView.swift:3943-4013 | each resumption of a batch brings its end nearer, or finds it finished |
| `Analysis.LoneBatchEndsComplete` | apple/Dub/MainView.swift:3943-4013 | a batch started alone ends within that many with both numbers of the footer equal to what was asked for |
| `Analysis.StartIsAlone` | apple/Dub/MainView.swift:3924-3950 | a batch started while the others have finished is such a batch |
| `Analysis.OverlappingBatchesShareTheFooter` | apple/Dub/MainView.swift:3943-4013 | two overlapping batches finish showing two of one |
| `EngineStart.EngineStartGate.Begin` | apple/Dub/App/EngineStartGate.swift:17-43 | from here on this ticket commits and that of no earlier start within the last 2^64 operations does; the device shows as connecting |
| `EngineStart.EngineStartGate.Cancel` | apple/Dub/App/EngineStartGate.swift:17-43 | no ticket handed out within the last 2^64 operations matches any more, and nothing shows as connecting |
| `EngineStart.EngineStartGate.Finish` | apple/Dub/App/EngineStartGate.swift:17-43 | a landing commits exactly when a multiple of 2^64 operations, in practice none, has followed its begin, and only then stops showing as connecting |
| `EngineStart.CommitsExactly` | apple/Dub/App/EngineStartGate.swift:17-43 | a start commits exactly when no operation, or a whole word of them, has followed its begin |
| `EngineStart.ConnectingIsTheNewestStart` | apple/Dub/MainView.swift:1711-2076 | over every interleaving the strip shows connecting exactly while the newest start is out |
| `EngineStart.ReachableIsSound` | apple/Dub/MainView.swift:1711-2076 | so it is in every state reachable from launch |
| `EngineStart.OvertakenStartChangesNothing` | apple/Dub/MainView.swift:1953-2032 | wherever in a run a superseded or stopped start lands, it sets nothing, so it never sets the model running |
| `EngineStart.ChangedConfigurationStands` | apple/Dub/MainView.swift:1711-2032 | a change of configuration, to Prep as much as to another interface, cancels every start out before it: wherever in a run after it such a start lands, it leaves the list of starts still out and does nothing else |
| `EngineStart.ChangeOvertakes` | apple/Dub/MainView.swift:1711-2076 | what a change leaves: Prep is up as its output opened with nothing shown as connecting; timecode is down, connecting its device with a start of its own |
| `EngineStart.StopOvertakes` | apple/Dub/MainView.swift:1737-1751 | a stop is one operation, overtakes every start out and leaves nothing connecting |
| `EngineStart.StoppedStaysStopped` | apple/Dub/MainView.swift:1737-2032 | after a stop no late landing brings the model up |
| `EngineStart.NewestStartCommits` | apple/Dub/MainView.swift:1953-2032 | the newest start commits, and the model then runs exactly if its device opened |
| `EngineStart.WordOldStartCommits` | apple/Dub/App/EngineStartGate.swift:17-43 | a start exactly 2^64 operations old commits again |
| `EngineStart.StartModel.StopEngineNow` | apple/Dub/MainView.swift:1737-1751 | a stop is the stop of the protocol |
| `EngineStart.StartModel.ApplyConfigTimecode` | apple/Dub/MainView.swift:1711-1990 | stop if needed, then begin: the protocol step, with the ticket of the newest start |
| `EngineStart.StartModel.ApplyConfigPrep` | apple/Dub/MainView.swift:1711-2076 | the synchronous start in prep mode is the protocol step |
| `EngineStart.StartModel.StartLanded` | apple/Dub/MainView.swift:1990-2032 | a landing that goes through the gate is the protocol step |
| `DeviceProbe.ChangeSettles` | apple/Dub/MainView.swift:1845-1900 | after a change every selection is plugged in, the mode is the detected one, applying the probe again changes nothing, and an override keeps while its interface is there |
| `DeviceProbe.SetupIsSettled` | apple/Dub/MainView.swift:1845-1900 | in every run from launch the setup is untouched until a probe is applied, and from then on settled by the probe last applied |
| `DeviceProbe.ChangeKeepsLiveSelections` | apple/Dub/MainView.swift:1616-1697 | selections still plugged in survive |
| `DeviceProbe.ListsAreTheProbes` | apple/Dub/MainView.swift:1616-1697 | the lists are exactly the interfaces and the stereo outputs of the probe |
| `DeviceProbe.ModeChangeRestartsOnce` | apple/Dub/MainView.swift:1845-1900 | one apply restarts the engine once if the detected mode changed and not otherwise; a lost input falls to the first interface |
| `DeviceProbe.AppliedTokensAreNewest` | apple/Dub/MainView.swift:1845-1900 | every applied probe carries the latest token, each at most once and in order |
| `DeviceProbe.ReachableTokensAreNewest` | apple/Dub/MainView.swift:1845-1900 | so it is in every run from launch |
| `DeviceProbe.LastNotificationIsApplied` | apple/Dub/MainView.swift:1845-1900 | once notifications cease the last is applied, last |
| `DeviceProbe.QueueDrainsExactly` | apple/Dub/MainView.swift:1845-1900 | once notifications cease, in whatever order timers and probes come back, a number of them known beforehand empties the queue, and then the last notification has been applied, last |
| `TempoGate.SummaryMatchesHistory` | apple/Dub/MainView.swift:2330-2344 | the candidate is the reading that many polls ago and every poll since stayed with it |
| `TempoGate.SettledTempoHistory` | apple/Dub/MainView.swift:298-308 | a settled tempo is a reading ten polls old, held in range and in band since, a readout step from the one it replaces |
| `TempoGate.SweepNeverMovesTheTempo` | apple/Dub/MainView.swift:2315-2344 | whatever tempo had settled, a sweep with no still stretch of eleven polls leaves it as it was; only stopping the engine takes it away |
| `TempoGate.SpinUpNeverMovesTheTempo` | apple/Dub/MainView.swift:2315-2344 | a deck that has never held still since launch shows no tempo |
| `TempoGate.HeldPitchSettles` | apple/Dub/MainView.swift:2330-2344 | a new pitch held for more than ten polls becomes the settled tempo, unless the one there is within a readout step of it and stays; so the tempo always ends within a step of the pitch held. Held for less it moves nothing |
| `TempoGate.OtherPollsStartOver` | apple/Dub/MainView.swift:2315-2344 | a poll out of range or of a stopped platter forgets the candidate alone; one away from the candidate takes its place |
| `TempoGate.TempoStore.ReadPitch` | apple/Dub/MainView.swift:2330-2344 | the gate's two fields after a poll are the specification's |
| `PublishRate.WindowIsTheWholeHistory` | apple/Dub/App/ModelStores.swift:83-86 | the pruned window equals the last second of the whole history |
| `PublishRate.SummaryMatchesHistory` | apple/Dub/App/ModelStores.swift:83-101 | the guard is timing exactly an unbroken stretch over the limit, and its tally counts what moved in it |
| `PublishRate.ReportMeansSustained` | apple/Dub/App/ModelStores.swift:83-101 | a report means every note for two seconds or more was playing and over the limit |
| `PublishRate.ReportsExactlyWhenDue` | apple/Dub/App/ModelStores.swift:83-101 | over every history a note is reported if and only if every note of the last two seconds or more was playing and over the limit and the last report is more than ten seconds back |
| `PublishRate.ReportsAreApart` | apple/Dub/App/ModelStores.swift:94-97 | reports are more than ten seconds apart |
| `PublishRate.PublishRateGuard.NoteChange` | apple/Dub/App/ModelStores.swift:83-101 | the guard's four fields after a note are the specification's, and it reports exactly when that does |
| `PublishRate.PublishRateGuard.Pruned` | apple/Dub/App/ModelStores.swift:85-86 | the entries of the last second are kept, in order |
| `EchoLine.RingIsADelayLine` | crates/dub-dsp/src/echo.rs:267-330 | the ring with its wrapping heads ages every entry by one frame and appends what was written |
| `EchoLine.PressEchoesTheNextBeat` | crates/dub-dsp/src/echo.rs:204-218 | a press from off plays the next beat dry and captures it; the wet is then that beat looping, its first lap the beat itself |
| `EchoLine.EngagedIsMuted` | crates/dub-dsp/src/echo.rs:279-340 | once engaged for the length of the ramp the deck is all wet |
| `EchoLine.ReleasedIsDry` | crates/dub-dsp/src/echo.rs:221-341 | once released for the length of the ramp the bus carries the deck alone |
| `EchoLine.MutedWithinTheRamp` | crates/dub-dsp/src/echo.rs:173-197 | three milliseconds after the captured beat ends nothing is heard but the echo, and not before |
| `EchoLine.WaitIsThreeTenths` | crates/dub-dsp/src/echo.rs:96-110 | the wait before auto-off is three tenths of a second, to the frame |
| `EchoLine.OutputIsACrossFade` | crates/dub-dsp/src/echo.rs:332-340 | the bus is never louder than the louder of input and echo |
| `EchoLine.LapIsQuieter` | crates/dub-dsp/src/echo.rs:303-312 | every lap takes a fixed share of the loop's loudness away |
| `EchoLine.EchoFadesToSilence` | crates/dub-dsp/src/echo.rs:74-82 | the loop dies away to exact silence in bounded time, whatever it captured |
| `EchoLine.QuietIsARun` | crates/dub-dsp/src/echo.rs:314-324 | the quiet counter is the length of the current silent run |
| `EchoLine.AutoOffExactly` | crates/dub-dsp/src/echo.rs:240-256 | the line asks to be turned off exactly when input and wet have both been silent for the waiting time |
| `EchoLine.PressIsHeardOut` | crates/dub-dsp/src/echo.rs:204-256 | no press is undone before the waiting time is over, however quiet the deck, and a press over an echo starts that time anew; there it swaps length and filter and the loop plays on |
| `EchoLine.SilentDeckIsReleased` | crates/dub-dsp/src/echo.rs:240-324 | once the loop has died it asks exactly when the input alone has been silent that long |
| `EchoLine.RingHoldsABeat` | crates/dub-dsp/src/echo.rs:345-356 | a one-beat echo at 60 BPM or faster is never cut short by the ring |
| `EchoLine.RingIsAPowerOfTwo` | crates/dub-dsp/src/echo.rs:350-356 | at every rate the ring's size is a power of two, which its bit mask relies on |
| `EchoLine.RingCapacity` | crates/dub-dsp/src/echo.rs:350-356 | the ring holds at least a second |
| `EchoLine.DormantIsTransparent` | crates/dub-dsp/src/echo.rs:267-275 | off and faded out, a frame passes unchanged and stays so |
| `EchoLine.EchoOut.constructor` | crates/dub-dsp/src/echo.rs:173-197 | a fresh line is silent, off and sized for the rate |
| `EchoLine.EchoOut.Engage` | crates/dub-dsp/src/echo.rs:204-218 | every field after a press is the specification's, from off or over an echo |
| `EchoLine.EchoOut.Release` | crates/dub-dsp/src/echo.rs:221-224 | every field after a release is the specification's |
| `EchoLine.EchoOut.ProcessFrame` | crates/dub-dsp/src/echo.rs:277-341 | ring, filter, counters and gains after a frame are the specification's, and so is the frame played |
| `EchoLine.EchoOut.ProcessPair` | crates/dub-dsp/src/echo.rs:277-341 | one frame read from and written to its two samples, with every other sample as it was |
| `EchoLine.EchoOut.ProcessBlock` | crates/dub-dsp/src/echo.rs:267-342 | a block in place, on the deck's pair of the interleaved bus: the pair is what mixing every frame gives, though the mix is skipped while the line is dormant, and no other sample moves |
| `Echo.NeverMutedInTheDark` | apple/Dub/MainView.swift:5712-5777 | in every run whose releases reach the engine, a muting echo has its pad lit |
| `Echo.LaunchIsNotDark` | apple/Dub/MainView.swift:5712-5777 | so it is in every such run from launch |
| `Echo.DarkExactly` | apple/Dub/MainView.swift:5739-5777 | one step leaves a deck muted in the dark exactly when the engine drops the release of an engaged echo |
| `Echo.DarkStaysDark` | apple/Dub/MainView.swift:2358-2361 | nothing but a press, a stop or a restart reaches such a deck |
| `Echo.DeadPadExactly` | apple/Dub/MainView.swift:5712-5770 | a press lights the pad over no echo exactly when it was refused or the platter stood or ran backwards |
| `Echo.EchoLastsItsBeats` | apple/Dub/MainView.swift:5712-5775 | a live press asks for the nearest whole number of frames to its beats at the tempo of the deck and the pitch of the platter, 120 where no tempo is known, as far as command and ring can hold |
| `Echo.DelayIsNearest` | crates/dub-ffi/src/lib.rs:2167-2195 | the facade rounds that length to the nearest frame, one at least |
| `Echo.SecondPressReleases` | apple/Dub/MainView.swift:5712-5745 | a press of the lit pad puts it out and releases the echo if the engine hears it |
| `Echo.SwitchesExactly` | apple/Dub/MainView.swift:1737-1751 | stop, start and the feature switch: which pads go out and which echoes end |
| `Echo.StoppedEchoIsUntouched` | apple/Dub/MainView.swift:5712-5777 | with the engine stopped nothing reaches an echo, and with the feature off no press does |
| `Echo.SilentDeckComesBack` | apple/Dub/MainView.swift:2350-2361 | a muted deck gone silent is turned back on by the poll: pad out, dry back |
| `LoopRegion.NearestIsALine` | apple/Dub/MainView.swift:5471-5477 | the snap is a grid line none is nearer than, the first of its equals |
| `LoopRegion.SnapIsIdempotent` | apple/Dub/MainView.swift:5471-5477 | snapping twice is snapping once |
| `LoopRegion.SnapIsMonotone` | apple/Dub/MainView.swift:5471-5477 | on a sorted grid a later press never snaps earlier |
| `LoopRegion.AppAndEngineSnapAlike` | crates/dub-engine/src/looping.rs:22-41 | the engine's bisection and the app's scan pick the same line, ties included |
| `LoopRegion.RegionHasLength` | crates/dub-engine/src/looping.rs:82-132 | a loop that engages has length and ends on a grid line |
| `LoopRegion.WholeLoopIsOnTheGrid` | crates/dub-engine/src/looping.rs:88-100 | a whole length covers exactly that many beats up to the nearest line, moved only as the track's ends require, and is refused exactly on too short a grid |
| `LoopRegion.FractionalExactly` | crates/dub-engine/src/looping.rs:102-131 | when a fractional length engages, and the region it then covers |
| `LoopRegion.FlatLineIsRefused` | crates/dub-engine/src/looping.rs:102-131 | a fractional loop is refused where its closing line is no later than the one before |
| `LoopRegion.SubBeatAlwaysEngages` | crates/dub-engine/src/looping.rs:102-131 | a length under a beat is never refused |
| `LoopRegion.MixedLengthIsNotMovedForward` | crates/dub-engine/src/looping.rs:65-81 | two and a half beats near the start are refused where three are moved forward |
| `LoopRegion.EvenGridLength` | crates/dub-engine/src/looping.rs:82-132 | on an even grid a loop is its beats times the spacing |
| `LoopRegion.WrapLands` | crates/dub-engine/src/looping.rs:134-153 | the wrapped playhead is in the loop, whole loop lengths away |
| `LoopRegion.WrapIsThePlace` | crates/dub-engine/src/looping.rs:134-153 | it is the only such place |
| `LoopRegion.ScreenAndSoundWrapAlike` | crates/dub-engine/src/deck.rs:236-259 | the interface and the audio thread fold a playhead to the same place |
| `LoopRegion.WrappingNeverDrifts` | crates/dub-engine/src/deck.rs:2236-2242 | wrapping at every sample ends where one wrap of the whole distance does |
| `LoopDeck.LoopsHaveLength` | apple/Dub/MainView.swift:5548-5696 | in every run, grabs in beats and in bars included, an engaged loop has length and the lit length is on the ladder |
| `LoopDeck.ReachableLoopsHaveLength` | apple/Dub/MainView.swift:5548-5696 | so it is in every run from launch |
| `LoopDeck.ExitExactly` | apple/Dub/MainView.swift:5680-5696 | an exit with something to end leaves, after the poll, no loop if and only if the engine took it or held none; pads and armed IN are out either way |
| `LoopDeck.GrabLands` | apple/Dub/MainView.swift:5548-5563 | a grab the grid can place loops exactly that region, shown and lit after the poll |
| `LoopDeck.BarsAreBeats` | apple/Dub/MainView.swift:5566-5584 | a grab in bars is one of the nearest whole number of beats to bars times the meter, one at least |
| `LoopDeck.BarGrabLands` | apple/Dub/MainView.swift:5566-5584 | such a grab loops that region under its bars pad, or, where the grid has no place for it, lights the pad over the loop there was or not at all |
| `LoopDeck.ScaleLands` | apple/Dub/MainView.swift:5652-5676 | a resize doubles or halves the loop from its start and the lit length with it |
| `LoopDeck.ArmedPointIsPlaced` | apple/Dub/MainView.swift:5593-5604 | an IN is armed at the snapped or raw playhead and disturbs no loop |
| `LoopDeck.LoadEndsTheLoop` | apple/Dub/MainView.swift:2616-2640 | after a load and a poll nothing of the old loop is shown |
| `LoopDeck.DeadPressChangesNothing` | apple/Dub/MainView.swift:5548-5696 | the presses that find no engine, no track or nothing to act on change nothing |
| `LoopDeck.ScalingWalksTheLadder` | apple/Dub/MainView.swift:5661-5665 | halving or doubling a ladder length is its neighbour, or refused at the ends |
| `LoopDeck.OutClosesOrKeepsTheIn` | apple/Dub/MainView.swift:5593-5639 | an OUT at or after its IN is never inverted by snapping: it engages exactly that region or leaves the IN armed |
| `LoopDeck.ManualLoopLightsExactly` | apple/Dub/MainView.swift:5612-5639 | a manual loop puts the bars pad out and keeps exactly the beats pad there was |
| `LoopDeck.ArmedInSurvivesALoad` | apple/Dub/MainView.swift:2616-2640 | an IN armed on one track closes a loop on the next |
| `LoopDeck.PollSyncs` | apple/Dub/MainView.swift:2290-2299 | the poll makes the app's copy the engine's |
| `LoopDeck.ResizingKeepsTheStart` | apple/Dub/MainView.swift:5652-5676 | any polled sequence of halvings and doublings keeps the start and scales region and pad by one factor |
| `LoopDeck.BarsPadStaysPut` | apple/Dub/MainView.swift:5652-5676 | the bars pad is not resized with its loop: after any polled resizing it still names the length that was grabbed |
| `LoopDeck.SecondPressIsStale` | apple/Dub/MainView.swift:5652-5676 | without a poll between, the pad is scaled twice and the loop once |
| `LoopDeck.UnplacedGrabExactly` | apple/Dub/MainView.swift:5548-5563 | a grab the grid cannot place stays lit exactly over a running loop |
| `LoopDeck.SixteenOverFour` | crates/dub-ffi/src/lib.rs:2030-2062 | such a deck: the engine loops four beats and the pads say sixteen |
| `LoopDeck.PadsTellTheLength` | apple/Dub/MainView.swift:5548-5676 | on an even grid a grab that lands, and its polled resizings, are as long as the pad says |
| `LoopDeck.WindowStart` | apple/Dub/Performance/DeckSections.swift:329-334 | the window of four always lies on the ladder |
| `LoopDeck.RunningLengthAndNeighboursShow` | apple/Dub/Performance/DeckSections.swift:290-334 | the running length and both neighbours are on screen wherever the window was browsed, third of the four where the ladder has room |
| `LoopDeck.IdleWindow` | apple/Dub/Performance/DeckSections.swift:303-334 | with nothing running the window is where it was browsed to, or shows one, two, four and eight |
| `LoopDeck.LoopModel.SetReverseLoop` | crates/dub-ffi/src/lib.rs:2030-2062 | the facade's reverse loop: nothing sent without a region |
| `LoopDeck.LoopModel.SetManualLoop` | crates/dub-ffi/src/lib.rs:2086-2123 | the facade's manual loop: an empty region is ignored |
| `LoopDeck.LoopModel.HandleLoopBeats` | apple/Dub/MainView.swift:5548-5563 | the deck after a grab is the specification's: nothing is painted for a refused command |
| `LoopDeck.LoopModel.HandleLoop` | apple/Dub/MainView.swift:5566-5584 | the deck after a grab in bars is the specification's: rounded to beats, at least one, its pad lit |
| `LoopDeck.LoopModel.SetLoopIn` | apple/Dub/MainView.swift:5593-5604 | the deck after an IN is the specification's |
| `LoopDeck.LoopModel.SetLoopOut` | apple/Dub/MainView.swift:5612-5639 | the deck after an OUT is the specification's: the IN is kept unless the region was sent |
| `LoopDeck.LoopModel.ScaleLoop` | apple/Dub/MainView.swift:5652-5676 | the deck after a resize is the specification's: pad and region change together or not at all |
| `LoopDeck.LoopModel.ExitLoop` | apple/Dub/MainView.swift:5680-5696 | the deck after an exit is the specification's: the pads clear even when the command is refused |
| `LoopDeck.LoopModel.ReadDeckState` | apple/Dub/MainView.swift:2290-2299 | the deck after a poll is the specification's |
| `DeckSplit.FoldingMovesTheLibrary` | apple/Dub/Performance/DeckLibrarySplit.swift:73-95 | in Prep, and in Performance within the budget, the content stays put exactly when the open deck fitted above the library minimum or there is no room for content either way, and the library gets all that was folded exactly when it fitted |
| `DeckSplit.FoldingNeverTakes` | apple/Dub/Performance/DeckLibrarySplit.swift:73-95 | in either mode and for any budget folding chrome never shrinks content or library and hands out exactly what was folded when that was on screen |
| `DeckSplit.FoldingMovesTheDeck` | apple/Dub/Performance/DeckLibrarySplit.swift:73-95 | above the budget, or with none given, the library stays put exactly when the fraction sets the open height or the folded deck is held at the library minimum |
| `DeckSplit.LibraryKeepsItsMinimum` | apple/Dub/Performance/DeckLibrarySplit.swift:73-95 | the library keeps its minimum, or all of a shorter window, and the two sides fill the window |
| `DeckSplit.DecksTakeTheirShare` | apple/Dub/Performance/DeckLibrarySplit.swift:73-95 | where there is room Performance gives the decks 68 parts in a hundred of the window less what is folded, never less than their minimum; Prep gives them that minimum |
| `FrameWalk.Walk` | apple/Dub/App/MainThreadWatchdog.swift:195-242 | the buffer holds the heads, then exactly the specification's frames, and is untouched past them |
| `FrameWalk.Climb` | apple/Dub/App/MainThreadWatchdog.swift:231-240 | the loop appends exactly the specification's frames from where it starts |
| `FrameWalk.WalkFollowsTheChain` | apple/Dub/App/MainThreadWatchdog.swift:228-240 | the output is a prefix of the mathematical return-address chain |
| `FrameWalk.WalkTakesEveryFrame` | apple/Dub/App/MainThreadWatchdog.swift:228-240 | it stops exactly where the buffer is full or the chain breaks |
| `FrameWalk.ReadsRiseWithinTheStack` | apple/Dub/App/MainThreadWatchdog.swift:228-240 | whatever the memory holds, it reads aligned words inside the bounds at strictly rising addresses |
| `FrameWalk.StackBoundsTheWalk` | apple/Dub/App/MainThreadWatchdog.swift:228-240 | the stack's size bounds the walk however large the buffer |
| `FrameWalk.LargerBufferExtends` | apple/Dub/App/MainThreadWatchdog.swift:187-191 | a larger buffer only adds frames at the far end |
| `FrameWalk.TrapsExactly` | apple/Dub/App/MainThreadWatchdog.swift:231 | the bound check overflows exactly when the chain reaches the last sixteen bytes of the address space with room to spare |
| `FrameWalk.AllOnesTraps` | apple/Dub/App/MainThreadWatchdog.swift:231 | a frame register of all ones is such a case |

## Left out

- PublishRate.ReportMeansSustained: the guard's clock is taken not to run backwards, as the system uptime it reads does not.
- EchoLine.EchoFadesToSilence: asks for a filter coefficient above zero; the facade's cutoff is never below 20 Hz, which makes it so.
- FrameWalk.Walk: asks for a buffer of at least one frame; the walk is only ever given the default of 96.
- QuickScratchEngine.DecksShowWhatTheyPlay: a deck is taken to show a file when its source URL is that file's, the name being painted and carried with it; the command queue is drained between presses, which the poll's quarter-second grace stands for; transport, positions, rates and gains of the engine's decks are not modelled.
- ScratchRate.PartitionInvariance: rounding is not modelled, and the exponential enters by its laws only.
- Keymap.StoreRefinesPlainMap: the persisted profile is taken to read back as written, and case folding is ASCII.
- Fixed-width counters that cannot wrap in a session (footer counts, device tokens) are naturals.
- The microphone permission callbacks around an engine start.
- Hot cues, and the loop's seam cross-fade.
- Timecode decoding, tempo analysis, the library database, rip capture, and all drawing.
