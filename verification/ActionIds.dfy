/**
 The actions a key can drive and the ids a saved profile stores for them
 (apple/Dub/DesignSystem/DubKeymap.swift, `DubAction`).
 */
module ActionIds {
  import opened Prelude

  /** Swift's `Int`. */
  type Int64 = i: int | -0x8000_0000_0000_0000 <= i < 0x8000_0000_0000_0000

  datatype DubAction =
    | LoadSelection
    | OpenPreferences
    | TapGrid
    | HotCue(index: Int64)
    | SirenPreset(index: Int64)
    | InstantDouble(toDeckB: bool)
    | Sampler(index: Int64)
    | QuickScratch(side: DeckSide, index: Int64)
    | FxToggle(index: Int64)
    | FxKick
    | EchoOut(side: DeckSide)
    | KeyLock(side: DeckSide)

  // ----- Decimal numbers, as Swift prints and reads them -----

  function DigitChar(d: nat): char
    requires d < 10
  {
    '0' + d as char
  }

  predicate IsDigit(c: char) {
    '0' <= c <= '9'
  }

  function Digits(n: nat): string {
    if n < 10 then [DigitChar(n)] else Digits(n / 10) + [DigitChar(n % 10)]
  }

  function Decimal(i: int): string {
    if i < 0 then "-" + Digits(-i) else Digits(i)
  }

  predicate AllDigits(s: string) {
    s != "" && forall i :: 0 <= i < |s| ==> IsDigit(s[i])
  }

  function DigitOf(c: char): nat
    requires IsDigit(c)
  {
    c as int - '0' as int
  }

  function DigitsValue(s: string): nat
    requires forall i :: 0 <= i < |s| ==> IsDigit(s[i])
  {
    if s == "" then 0
    else 10 * DigitsValue(s[..|s| - 1]) + DigitOf(s[|s| - 1])
  }

  /** `Int(_:)`: an optional sign, then digits and nothing else; out of range is no number. */
  function ParseInt(s: string): Option<Int64> {
    var negative := s != "" && s[0] == '-';
    var body := if s != "" && (s[0] == '-' || s[0] == '+') then s[1..] else s;
    if !AllDigits(body) then None
    else
      var magnitude: int := DigitsValue(body);
      var value: int := if negative then 0 - magnitude else magnitude;
      if -0x8000_0000_0000_0000 <= value < 0x8000_0000_0000_0000 then Some(value) else None
  }

  lemma {:induction false} DigitsRoundTrip(n: nat)
    ensures AllDigits(Digits(n)) && DigitsValue(Digits(n)) == n
  {
    if n < 10 {
    } else {
      DigitsRoundTrip(n / 10);
      var s := Digits(n);
      assert s[..|s| - 1] == Digits(n / 10);
    }
  }

  lemma SignedRoundTrip(s: string, negative: bool)
    requires AllDigits(s)
    requires -0x8000_0000_0000_0000 <= (if negative then 0 - DigitsValue(s) else DigitsValue(s))
             < 0x8000_0000_0000_0000
    ensures ParseInt(if negative then "-" + s else s)
            == Some(if negative then 0 - DigitsValue(s) else DigitsValue(s))
  {
    if negative {
      assert ("-" + s)[1..] == s;
    } else {
      assert IsDigit(s[0]);
    }
  }

  lemma DecimalRoundTrip(i: Int64)
    ensures ParseInt(Decimal(i)) == Some(i)
  {
    var n: int := i;
    var magnitude := if n < 0 then 0 - n else n;
    DigitsRoundTrip(magnitude);
    SignedRoundTrip(Digits(magnitude), n < 0);
  }

  // ----- Splitting at the dots -----

  /** The length of the text before the first dot. */
  function FirstDot(s: string): (n: nat)
    ensures n <= |s|
    ensures forall i :: 0 <= i < n ==> s[i] != '.'
    ensures n < |s| ==> s[n] == '.'
  {
    if s == "" || s[0] == '.' then 0 else 1 + FirstDot(s[1..])
  }

  /** `split(separator: ".")`: empty parts are dropped. */
  function Split(s: string): seq<string> {
    if s == "" then []
    else
      var n := FirstDot(s);
      var rest := if n < |s| then Split(s[n + 1..]) else [];
      if n == 0 then rest else [s[..n]] + rest
  }

  predicate IsPart(s: string) {
    s != "" && forall i :: 0 <= i < |s| ==> s[i] != '.'
  }

  lemma DecimalIsPart(i: int)
    ensures IsPart(Decimal(i))
  {
    DigitsRoundTrip(if i < 0 then -i else i);
    assert forall c :: IsDigit(c) ==> c != '.';
  }

  lemma FirstDotAfterPart(part: string, rest: string)
    requires IsPart(part)
    ensures FirstDot(part + "." + rest) == |part|
    ensures FirstDot(part) == |part|
  {
    var s := part + "." + rest;
    assert s[|part|] == '.';
    assert forall i :: 0 <= i < |part| ==> s[i] == part[i];
  }

  lemma SplitAfterPart(part: string, rest: string)
    requires IsPart(part)
    ensures Split(part + "." + rest) == [part] + Split(rest)
    ensures Split(part) == [part]
  {
    FirstDotAfterPart(part, rest);
    var s := part + "." + rest;
    assert s[..|part|] == part && s[|part| + 1..] == rest && part[..|part|] == part;
  }

  lemma SplitTwo(a: string, b: string)
    requires IsPart(a) && IsPart(b)
    ensures Split(a + "." + b) == [a, b]
  {
    SplitAfterPart(a, b);
    SplitAfterPart(b, "");
  }

  lemma SplitThree(a: string, b: string, c: string)
    requires IsPart(a) && IsPart(b) && IsPart(c)
    ensures Split(a + "." + b + "." + c) == [a, b, c]
  {
    assert a + "." + b + "." + c == a + "." + (b + "." + c);
    SplitAfterPart(a, b + "." + c);
    SplitTwo(b, c);
  }

  // ----- Ids -----

  function SideLetter(side: DeckSide): string {
    if side == A then "a" else "b"
  }

  function ParseSide(s: string): Option<DeckSide> {
    if s == "a" then Some(A) else if s == "b" then Some(B) else None
  }

  function Id(a: DubAction): string {
    match a
    case LoadSelection => "transport" + "." + "loadSelection"
    case OpenPreferences => "app" + "." + "preferences"
    case TapGrid => "grid" + "." + "tap"
    case HotCue(i) => "cue" + "." + Decimal(i)
    case SirenPreset(i) => "siren" + "." + "preset" + "." + Decimal(i)
    case InstantDouble(b) => "deck" + "." + "instantDouble" + "." + (if b then "b" else "a")
    case Sampler(i) => "sampler" + "." + Decimal(i)
    case QuickScratch(side, i) => "scratch" + "." + SideLetter(side) + "." + Decimal(i)
    case FxToggle(i) => "fx" + "." + "unit" + "." + Decimal(i)
    case FxKick => "fx" + "." + "kick"
    case EchoOut(side) => "echo" + "." + SideLetter(side)
    case KeyLock(side) => "keylock" + "." + SideLetter(side)
  }

  function ParseTwo(head: string, tail: string): Option<DubAction> {
    if head == "transport" && tail == "loadSelection" then Some(LoadSelection)
    else if head == "app" && tail == "preferences" then Some(OpenPreferences)
    else if head == "grid" && tail == "tap" then Some(TapGrid)
    else if head == "cue" then
      var n := ParseInt(tail);
      if n == None then None else Some(HotCue(n.value))
    else if head == "sampler" then
      var n := ParseInt(tail);
      if n == None then None else Some(Sampler(n.value))
    else if head == "fx" && tail == "kick" then Some(FxKick)
    else if head == "echo" then
      var d := ParseSide(tail);
      if d == None then None else Some(EchoOut(d.value))
    else if head == "keylock" then
      var d := ParseSide(tail);
      if d == None then None else Some(KeyLock(d.value))
    else None
  }

  function ParseThree(head: string, mid: string, tail: string): Option<DubAction> {
    if head == "siren" && mid == "preset" then
      var n := ParseInt(tail);
      if n == None then None else Some(SirenPreset(n.value))
    else if head == "deck" && mid == "instantDouble" then
      var d := ParseSide(tail);
      if d == None then None else Some(InstantDouble(d.value == B))
    else if head == "scratch" then
      var d := ParseSide(mid);
      var n := ParseInt(tail);
      if d == None || n == None then None else Some(QuickScratch(d.value, n.value))
    else if head == "fx" && mid == "unit" then
      var n := ParseInt(tail);
      if n == None then None else Some(FxToggle(n.value))
    else None
  }

  /** The action a stored id names, if any version issued it. */
  function ParseId(id: string): Option<DubAction> {
    var parts := Split(id);
    if |parts| == 2 then ParseTwo(parts[0], parts[1])
    else if |parts| == 3 then ParseThree(parts[0], parts[1], parts[2])
    else None
  }

  lemma ParseTwoParts(a: string, b: string)
    requires IsPart(a) && IsPart(b)
    ensures ParseId(a + "." + b) == ParseTwo(a, b)
  {
    SplitTwo(a, b);
  }

  lemma ParseThreeParts(a: string, b: string, c: string)
    requires IsPart(a) && IsPart(b) && IsPart(c)
    ensures ParseId(a + "." + b + "." + c) == ParseThree(a, b, c)
  {
    SplitThree(a, b, c);
  }

  lemma LoadSelectionId()
    ensures ParseId(Id(LoadSelection)) == Some(LoadSelection)
  {
    ParseTwoParts("transport", "loadSelection");
  }

  lemma OpenPreferencesId()
    ensures ParseId(Id(OpenPreferences)) == Some(OpenPreferences)
  {
    ParseTwoParts("app", "preferences");
  }

  lemma TapGridId()
    ensures ParseId(Id(TapGrid)) == Some(TapGrid)
  {
    ParseTwoParts("grid", "tap");
  }

  lemma FxKickId()
    ensures ParseId(Id(FxKick)) == Some(FxKick)
  {
    ParseTwoParts("fx", "kick");
  }

  lemma HotCueId(i: Int64)
    ensures ParseId(Id(HotCue(i))) == Some(HotCue(i))
  {
    DecimalRoundTrip(i);
    DecimalIsPart(i);
    ParseTwoParts("cue", Decimal(i));
  }

  lemma SamplerId(i: Int64)
    ensures ParseId(Id(Sampler(i))) == Some(Sampler(i))
  {
    DecimalRoundTrip(i);
    DecimalIsPart(i);
    ParseTwoParts("sampler", Decimal(i));
  }

  lemma EchoOutId(side: DeckSide)
    ensures ParseId(Id(EchoOut(side))) == Some(EchoOut(side))
  {
    ParseTwoParts("echo", SideLetter(side));
  }

  lemma KeyLockId(side: DeckSide)
    ensures ParseId(Id(KeyLock(side))) == Some(KeyLock(side))
  {
    ParseTwoParts("keylock", SideLetter(side));
  }

  lemma SirenPresetId(i: Int64)
    ensures ParseId(Id(SirenPreset(i))) == Some(SirenPreset(i))
  {
    DecimalRoundTrip(i);
    DecimalIsPart(i);
    ParseThreeParts("siren", "preset", Decimal(i));
  }

  lemma FxToggleId(i: Int64)
    ensures ParseId(Id(FxToggle(i))) == Some(FxToggle(i))
  {
    DecimalRoundTrip(i);
    DecimalIsPart(i);
    ParseThreeParts("fx", "unit", Decimal(i));
  }

  lemma InstantDoubleId(b: bool)
    ensures ParseId(Id(InstantDouble(b))) == Some(InstantDouble(b))
  {
    ParseThreeParts("deck", "instantDouble", if b then "b" else "a");
  }

  lemma QuickScratchId(side: DeckSide, i: Int64)
    ensures ParseId(Id(QuickScratch(side, i))) == Some(QuickScratch(side, i))
  {
    DecimalRoundTrip(i);
    DecimalIsPart(i);
    ParseThreeParts("scratch", SideLetter(side), Decimal(i));
  }

  /** Printing an id and reading it back is the identity, for every index. */
  lemma IdRoundTrip(a: DubAction)
    ensures ParseId(Id(a)) == Some(a)
  {
    match a
    case LoadSelection => LoadSelectionId();
    case OpenPreferences => OpenPreferencesId();
    case TapGrid => TapGridId();
    case HotCue(i) => HotCueId(i);
    case SirenPreset(i) => SirenPresetId(i);
    case InstantDouble(b) => InstantDoubleId(b);
    case Sampler(i) => SamplerId(i);
    case QuickScratch(side, i) => QuickScratchId(side, i);
    case FxToggle(i) => FxToggleId(i);
    case FxKick => FxKickId();
    case EchoOut(side) => EchoOutId(side);
    case KeyLock(side) => KeyLockId(side);
  }

  /** Two actions never share an id, so a stored override cannot rebind a different action. */
  lemma IdsAreInjective(a: DubAction, b: DubAction)
    requires Id(a) == Id(b)
    ensures a == b
  {
    IdRoundTrip(a);
    IdRoundTrip(b);
  }

  // ----- Which ids are read -----

  /** One part of an id for another: the same text, or another numeral of the same number. */
  predicate Spells(p: string, q: string) {
    p == q || (ParseInt(q).Some? && ParseInt(p) == ParseInt(q))
  }

  predicate SpellsAll(ps: seq<string>, qs: seq<string>) {
    |ps| == |qs| && forall k :: 0 <= k < |ps| ==> Spells(ps[k], qs[k])
  }

  lemma WordIsNoNumber(s: string)
    requires s != "" && 'a' <= s[0] <= 'z'
    ensures ParseInt(s) == None
  {
    assert !IsDigit(s[0]);
  }

  lemma SpelledWord(p: string, word: string)
    requires word != "" && 'a' <= word[0] <= 'z'
    ensures Spells(p, word) <==> p == word
  {
    WordIsNoNumber(word);
  }

  lemma SpelledSide(p: string, side: DeckSide)
    ensures Spells(p, SideLetter(side)) <==> ParseSide(p) == Some(side)
  {
    SpelledWord(p, SideLetter(side));
  }

  lemma SpelledNumber(p: string, i: Int64)
    ensures Spells(p, Decimal(i)) <==> ParseInt(p) == Some(i)
  {
    DecimalRoundTrip(i);
  }

  predicate IsWord(s: string) {
    IsPart(s) && 'a' <= s[0] <= 'z'
  }

  lemma SpellsTwo(ps: seq<string>, head: string, tail: string)
    requires IsWord(head) && IsPart(tail)
    ensures SpellsAll(ps, Split(head + "." + tail)) <==> |ps| == 2 && ps[0] == head && Spells(ps[1], tail)
  {
    hide Spells;
    SplitTwo(head, tail);
    if |ps| == 2 { SpelledWord(ps[0], head); }
  }

  lemma SpellsThree(ps: seq<string>, head: string, mid: string, tail: string)
    requires IsWord(head) && IsPart(mid) && IsPart(tail)
    ensures SpellsAll(ps, Split(head + "." + mid + "." + tail))
       <==> |ps| == 3 && ps[0] == head && Spells(ps[1], mid) && Spells(ps[2], tail)
  {
    hide Spells;
    SplitThree(head, mid, tail);
    if |ps| == 3 { SpelledWord(ps[0], head); }
  }

  /** The reader takes an id for an action exactly when it spells that action's own id. */
  predicate ReadsExactly(id: string, a: DubAction) {
    ParseId(id) == Some(a) <==> SpellsAll(Split(id), Split(Id(a)))
  }

  lemma LoadSelectionReads(id: string)
    ensures ReadsExactly(id, LoadSelection)
  {
    hide Spells, Split;
    SpellsTwo(Split(id), "transport", "loadSelection");
    if |Split(id)| == 2 { SpelledWord(Split(id)[1], "loadSelection"); }
  }

  lemma OpenPreferencesReads(id: string)
    ensures ReadsExactly(id, OpenPreferences)
  {
    hide Spells, Split;
    SpellsTwo(Split(id), "app", "preferences");
    if |Split(id)| == 2 { SpelledWord(Split(id)[1], "preferences"); }
  }

  lemma TapGridReads(id: string)
    ensures ReadsExactly(id, TapGrid)
  {
    hide Spells, Split;
    SpellsTwo(Split(id), "grid", "tap");
    if |Split(id)| == 2 { SpelledWord(Split(id)[1], "tap"); }
  }

  lemma FxKickReads(id: string)
    ensures ReadsExactly(id, FxKick)
  {
    hide Spells, Split;
    SpellsTwo(Split(id), "fx", "kick");
    if |Split(id)| == 2 { SpelledWord(Split(id)[1], "kick"); }
  }

  lemma HotCueReads(id: string, i: Int64)
    ensures ReadsExactly(id, HotCue(i))
  {
    hide Spells, Split, Decimal, ParseInt;
    DecimalIsPart(i);
    SpellsTwo(Split(id), "cue", Decimal(i));
    if |Split(id)| == 2 { SpelledNumber(Split(id)[1], i); }
  }

  lemma SamplerReads(id: string, i: Int64)
    ensures ReadsExactly(id, Sampler(i))
  {
    hide Spells, Split, Decimal, ParseInt;
    DecimalIsPart(i);
    SpellsTwo(Split(id), "sampler", Decimal(i));
    if |Split(id)| == 2 { SpelledNumber(Split(id)[1], i); }
  }

  lemma EchoOutReads(id: string, side: DeckSide)
    ensures ReadsExactly(id, EchoOut(side))
  {
    hide Spells, Split;
    SpellsTwo(Split(id), "echo", SideLetter(side));
    if |Split(id)| == 2 { SpelledSide(Split(id)[1], side); }
  }

  lemma KeyLockReads(id: string, side: DeckSide)
    ensures ReadsExactly(id, KeyLock(side))
  {
    hide Spells, Split;
    SpellsTwo(Split(id), "keylock", SideLetter(side));
    if |Split(id)| == 2 { SpelledSide(Split(id)[1], side); }
  }

  lemma SirenPresetReads(id: string, i: Int64)
    ensures ReadsExactly(id, SirenPreset(i))
  {
    hide Spells, Split, Decimal, ParseInt;
    DecimalIsPart(i);
    SpellsThree(Split(id), "siren", "preset", Decimal(i));
    if |Split(id)| == 3 {
      SpelledWord(Split(id)[1], "preset");
      SpelledNumber(Split(id)[2], i);
    }
  }

  lemma FxToggleReads(id: string, i: Int64)
    ensures ReadsExactly(id, FxToggle(i))
  {
    hide Spells, Split, Decimal, ParseInt;
    DecimalIsPart(i);
    SpellsThree(Split(id), "fx", "unit", Decimal(i));
    if |Split(id)| == 3 {
      SpelledWord(Split(id)[1], "unit");
      SpelledNumber(Split(id)[2], i);
    }
  }

  lemma InstantDoubleReads(id: string, b: bool)
    ensures ReadsExactly(id, InstantDouble(b))
  {
    hide Spells, Split;
    var to := if b then B else A;
    SpellsThree(Split(id), "deck", "instantDouble", SideLetter(to));
    if |Split(id)| == 3 {
      SpelledWord(Split(id)[1], "instantDouble");
      SpelledSide(Split(id)[2], to);
    }
  }

  lemma QuickScratchReads(id: string, side: DeckSide, i: Int64)
    ensures ReadsExactly(id, QuickScratch(side, i))
  {
    hide Spells, Split, Decimal, ParseInt;
    DecimalIsPart(i);
    SpellsThree(Split(id), "scratch", SideLetter(side), Decimal(i));
    if |Split(id)| == 3 {
      SpelledSide(Split(id)[1], side);
      SpelledNumber(Split(id)[2], i);
    }
  }

  /** The reader is documented as refusing every id no version has printed. It takes an id for an
      action if and only if the two have the same parts, but for empty ones and for how a number is
      written: a typo in any word is refused, and a padded or signed index is not. */
  lemma ReaderAcceptsExactly(id: string, a: DubAction)
    ensures ParseId(id) == Some(a) <==> SpellsAll(Split(id), Split(Id(a)))
  {
    hide ParseId, Split, Spells, Id;
    match a
    case LoadSelection => LoadSelectionReads(id);
    case OpenPreferences => OpenPreferencesReads(id);
    case TapGrid => TapGridReads(id);
    case HotCue(i) => HotCueReads(id, i);
    case SirenPreset(i) => SirenPresetReads(id, i);
    case InstantDouble(b) => InstantDoubleReads(id, b);
    case Sampler(i) => SamplerReads(id, i);
    case QuickScratch(side, i) => QuickScratchReads(id, side, i);
    case FxToggle(i) => FxToggleReads(id, i);
    case FxKick => FxKickReads(id);
    case EchoOut(side) => EchoOutReads(id, side);
    case KeyLock(side) => KeyLockReads(id, side);
  }

  /** An id in the form the app prints it. */
  predicate IsPrinted(id: string) {
    ParseId(id).Some? ==> Id(ParseId(id).value) == id
  }

  /** The reader accepts more than the printer writes: a hand-edited profile can name one action
      twice. */
  lemma ReaderAcceptsAliases()
    ensures ParseId("cue" + "." + "05") == Some(HotCue(5))
    ensures !IsPrinted("cue" + "." + "05")
  {
    assert "05"[..1] == "0" && "0"[..0] == "";
    assert DigitsValue("0") == 0 && DigitsValue("05") == 5;
    SplitTwo("cue", "05");
    assert Decimal(5) == "5";
    assert |"cue" + "." + "05"| == 6 && |Id(HotCue(5))| == 5;
  }
}
