/** Small shared vocabulary: optional values, the engine's modes, the two deck sides and a value per
    side. */
module Prelude {

  datatype Option<+T> = None | Some(value: T)

  /** How the app runs: preparing on its own, or playing from timecode. */
  datatype EngineMode = Prep | Timecode

  /** The two decks of the app. */
  datatype DeckSide = A | B {
    function Other(): DeckSide {
      if this == A then B else A
    }
  }

  /** One value for each deck. */
  datatype PerDeck<+T> = PerDeck(a: T, b: T) {
    function At(side: DeckSide): T {
      if side == A then a else b
    }
  }

  function Put<T>(p: PerDeck<T>, side: DeckSide, value: T): (r: PerDeck<T>)
    ensures r.At(side) == value
    ensures r.At(side.Other()) == p.At(side.Other())
  {
    if side == A then p.(a := value) else p.(b := value)
  }

  function ClampIndex(i: int, lo: int, hi: int): (r: int)
    requires lo <= hi
    ensures lo <= r <= hi
  {
    if i < lo then lo else if i > hi then hi else i
  }
}
