/**
 The boundary between decks and library (apple/Dub/Performance/DeckLibrarySplit.swift), which the app
 places itself: heights are points.
 */
module DeckSplit {
  import opened Prelude

  const PERFORMANCE_DECK_FRACTION: real := 0.68
  const LIBRARY_MIN_HEIGHT: real := 200.0

  function Max(x: real, y: real): real {
    if x < y then y else x
  }

  function Min(x: real, y: real): real {
    if x < y then x else y
  }

  function Ceiling(total: real): real {
    Max(0.0, total - LIBRARY_MIN_HEIGHT)
  }

  /** The deck side before it gives way to the library. */
  function Wanted(mode: EngineMode, total: real, chrome: real, budget: Option<real>, minimum: real): real {
    match mode
    case Prep => minimum + chrome
    case Timecode =>
      var missing := Max(0.0, (if budget.Some? then budget.value else chrome) - chrome);
      Max(minimum + chrome, total * PERFORMANCE_DECK_FRACTION - missing)
  }

  function DeckHeight(mode: EngineMode, total: real, chrome: real, budget: Option<real>, minimum: real): real {
    Max(0.0, Min(Wanted(mode, total, chrome, budget, minimum), Ceiling(total)))
  }

  /** What the chrome leaves the deck. */
  function Content(mode: EngineMode, total: real, chrome: real, budget: Option<real>, minimum: real): real {
    Max(0.0, DeckHeight(mode, total, chrome, budget, minimum) - chrome)
  }

  function Library(mode: EngineMode, total: real, chrome: real, budget: Option<real>, minimum: real): real {
    Max(0.0, total - DeckHeight(mode, total, chrome, budget, minimum))
  }

  /** Where the library's minimum leaves room, Performance gives the decks 68 parts in a hundred of the
      window, less whatever budgeted chrome is folded away, and never less than their content's minimum
      under their chrome; Prep gives them exactly that. */
  lemma DecksTakeTheirShare(total: real, chrome: real, budget: real, minimum: real)
    requires 0.0 <= chrome <= budget && 0.0 <= minimum
    ensures minimum + chrome <= total - 200.0 ==>
              DeckHeight(Prep, total, chrome, Some(budget), minimum) == minimum + chrome
    ensures var share := 0.68 * total - (budget - chrome);
            && (minimum + chrome <= share <= total - 200.0 ==>
                  DeckHeight(Timecode, total, chrome, Some(budget), minimum) == share)
            && (share <= minimum + chrome <= total - 200.0 ==>
                  DeckHeight(Timecode, total, chrome, Some(budget), minimum) == minimum + chrome)
            && (total - 200.0 <= minimum + chrome && 0.0 <= total - 200.0 ==>
                  DeckHeight(Timecode, total, chrome, Some(budget), minimum) == total - 200.0)
  {
  }

  /** The library keeps its minimum, or all there is of a window shorter than that. */
  lemma LibraryKeepsItsMinimum(mode: EngineMode, total: real, chrome: real, budget: Option<real>, minimum: real)
    requires 0.0 <= total
    ensures Library(mode, total, chrome, budget, minimum) >= Min(total, LIBRARY_MIN_HEIGHT)
    ensures DeckHeight(mode, total, chrome, budget, minimum) + Library(mode, total, chrome, budget, minimum) == total
  {
  }

  /** Folding chrome, in any mode and whatever was budgeted for it, never takes from the deck's content
      or from the library, and hands out exactly what was folded when that was on screen. */
  lemma FoldingNeverTakes(mode: EngineMode, total: real, open: real, folded: real, budget: Option<real>,
                          minimum: real)
    requires 0.0 <= total && 0.0 <= minimum && 0.0 <= folded <= open
    ensures var (before, after) := (Content(mode, total, open, budget, minimum),
                                    Content(mode, total, folded, budget, minimum));
            var (was, now) := (Library(mode, total, open, budget, minimum),
                               Library(mode, total, folded, budget, minimum));
            && before <= after && was <= now
            && (open <= Ceiling(total) ==> (after - before) + (now - was) == open - folded)
  {
  }

  /** In Prep, and in Performance for chrome within its budget, the content stays exactly where it was
      if and only if the open deck fitted above the library's minimum, or the window has no room for
      content either way; a deck that fitted gives the library the whole of what was folded. */
  lemma FoldingMovesTheLibrary(mode: EngineMode, total: real, open: real, folded: real, budget: Option<real>,
                               minimum: real)
    requires 0.0 <= total && 0.0 < minimum && 0.0 <= folded < open
    requires mode.Prep? || (budget.Some? && open <= budget.value)
    ensures var fits := Wanted(mode, total, open, budget, minimum) <= Ceiling(total);
            && (Content(mode, total, folded, budget, minimum) == Content(mode, total, open, budget, minimum)
                <==> fits || Ceiling(total) <= folded)
            && (Library(mode, total, folded, budget, minimum)
                == Library(mode, total, open, budget, minimum) + (open - folded)
                <==> fits)
  {
  }

  /** Chrome above its budget, or budgeted at its own height by default, is folded the other way: the
      library stays put if and only if the fraction sets the open deck's height, or the folded one is
      held at the library's minimum. */
  lemma FoldingMovesTheDeck(total: real, open: real, folded: real, budget: Option<real>, minimum: real)
    requires 0.0 <= total && 0.0 < minimum && 0.0 <= folded < open && (budget.Some? ==> budget.value <= folded)
    ensures Library(Timecode, total, folded, budget, minimum) == Library(Timecode, total, open, budget, minimum)
            <==> minimum + open <= total * PERFORMANCE_DECK_FRACTION
                 || Ceiling(total) <= Wanted(Timecode, total, folded, budget, minimum)
  {
  }
}
