/**
 The key map: sparse overrides over a default table, the table they resolve to, and the
 dispatcher that takes the first row a key event fires
 (apple/Dub/DesignSystem/DubKeymap.swift, DubKeymapStore.swift).

 The overrides are kept in a dictionary, and the rows without a default are appended in the
 order of their sorted ids. Nothing proved here depends on that order, so every enumeration of
 the keys is allowed.
 */
module Keymap {
  import opened Prelude
  import opened ActionIds

  type KeyCode = c: int | 0 <= c < 0x1_0000

  datatype KeyChord = KeyChord(code: KeyCode, command: bool, legend: string)

  datatype Match = Code(code: KeyCode) | Character(glyph: string)

  datatype Transport = Key | Midi | Hid

  datatype Binding = Binding(
    action: DubAction, transport: Transport, match_: Match, requiresCommand: bool,
    legend: string, isLive: bool)

  /** An override holds a chord, or nothing when the action was unbound on purpose. */
  type Overrides = map<string, Option<KeyChord>>

  const SPACE: Binding := Binding(LoadSelection, Key, Code(49), false, "SPACE", true)
  const PREFERENCES: Binding :=
    Binding(OpenPreferences, Key, Character(","), true, "\U{2318},", true)
  const DEFAULTS: seq<Binding> := [SPACE, PREFERENCES]

  predicate IsRemappable(a: DubAction) {
    a != OpenPreferences
  }

  function FoldChar(c: char): char {
    if 'A' <= c <= 'Z' then (c as int + 32) as char else c
  }

  /** Letters compare without case. */
  function Fold(s: string): string {
    if s == "" then "" else [FoldChar(s[0])] + Fold(s[1..])
  }

  /** Case is folded letter by letter. */
  lemma {:induction false} FoldIsLetterwise(s: string)
    ensures |Fold(s)| == |s| && forall i :: 0 <= i < |s| ==> Fold(s)[i] == FoldChar(s[i])
    decreases |s|
  {
    if s != "" { FoldIsLetterwise(s[1..]); }
  }

  /** Two characters are one key exactly when they are equal or the two cases of one letter. */
  lemma FoldPairsTheCases(c: char, d: char)
    ensures FoldChar(c) == FoldChar(d) <==>
              || c == d
              || ('A' <= c && c < '[' && d as int - c as int == 'a' as int - 'A' as int)
              || ('A' <= d && d < '[' && c as int - d as int == 'a' as int - 'A' as int)
  {
  }

  function BindingOf(a: DubAction, c: KeyChord): Binding {
    Binding(a, Key, Code(c.code), c.command, c.legend, true)
  }

  /** Whether a binding fires on a captured chord. */
  predicate Matches(b: Binding, c: KeyChord) {
    && b.requiresCommand == c.command
    && (match b.match_
        case Code(code) => code == c.code
        case Character(glyph) => Fold(glyph) == Fold(c.legend))
  }

  /** Whether a binding fires on a key event. */
  predicate Fires(b: Binding, code: KeyCode, character: string, command: bool) {
    && b.transport == Key && b.isLive && b.requiresCommand == command
    && (match b.match_
        case Code(c) => c == code
        case Character(glyph) => Fold(glyph) == Fold(character))
  }

  /** The dispatcher: the first row that fires. */
  function Dispatch(table: seq<Binding>, code: KeyCode, character: string, command: bool)
    : Option<DubAction>
  {
    if table == [] then None
    else if Fires(table[0], code, character, command) then Some(table[0].action)
    else Dispatch(table[1..], code, character, command)
  }

  // ----- Resolution -----

  function DefaultRow(ov: Overrides, b: Binding): seq<Binding> {
    if Id(b.action) !in ov then [b]
    else if ov[Id(b.action)].Some? then [BindingOf(b.action, ov[Id(b.action)].value)]
    else []
  }

  function DefaultRows(ov: Overrides, defaults: seq<Binding>): seq<Binding> {
    if defaults == [] then [] else DefaultRow(ov, defaults[0]) + DefaultRows(ov, defaults[1..])
  }

  predicate HasDefault(id: string) {
    exists i :: 0 <= i < |DEFAULTS| && Id(DEFAULTS[i].action) == id
  }

  function ExtraRow(ov: Overrides, id: string): seq<Binding> {
    if id in ov && !HasDefault(id) && ov[id].Some? && ParseId(id).Some?
    then [BindingOf(ParseId(id).value, ov[id].value)] else []
  }

  function ExtraRows(ov: Overrides, ids: seq<string>): seq<Binding> {
    if ids == [] then [] else ExtraRow(ov, ids[0]) + ExtraRows(ov, ids[1..])
  }

  /** The resolved table, the overrides visited in the order `ids`. */
  function Table(ov: Overrides, ids: seq<string>): seq<Binding> {
    DefaultRows(ov, DEFAULTS) + ExtraRows(ov, ids)
  }

  ghost predicate Enumerates(ids: seq<string>, ov: Overrides) {
    forall id :: id in ids <==> id in ov
  }

  /** The first row of each action. */
  function ByAction(table: seq<Binding>): map<DubAction, Binding> {
    if table == [] then map[] else ByAction(table[1..])[table[0].action := table[0]]
  }

  function Default(a: DubAction): Option<Binding> {
    if a == LoadSelection then Some(SPACE)
    else if a == OpenPreferences then Some(PREFERENCES)
    else None
  }

  /** The binding an action resolves to, read straight off the overrides and the defaults. */
  function Resolve(ov: Overrides, a: DubAction): Option<Binding> {
    if Id(a) !in ov then Default(a)
    else if ov[Id(a)].Some? then Some(BindingOf(a, ov[Id(a)].value))
    else None
  }

  // ----- Editing -----

  predicate Holds(b: Binding, a: DubAction, c: KeyChord) {
    b.transport == Key && b.action != a && IsRemappable(b.action) && Matches(b, c)
  }

  /** The ids a bind takes the chord from. */
  function Robbed(table: seq<Binding>, a: DubAction, c: KeyChord): set<string> {
    set i | 0 <= i < |table| && Holds(table[i], a, c) :: Id(table[i].action)
  }

  /** The ids in `robbed` left unbound on purpose. */
  function Unbind(ov: Overrides, robbed: set<string>): Overrides {
    ov + (map id | id in robbed :: None)
  }

  function BindOverrides(ov: Overrides, table: seq<Binding>, a: DubAction, c: KeyChord): Overrides {
    if !IsRemappable(a) then ov
    else Unbind(ov, Robbed(table, a, c))[Id(a) := Some(c)]
  }

  function ClearOverrides(ov: Overrides, a: DubAction): Overrides {
    if !IsRemappable(a) then ov else ov[Id(a) := None]
  }

  // ----- The plain map it stands for -----

  type PlainMap = map<DubAction, Binding>

  const PLAIN_DEFAULTS: PlainMap := map[LoadSelection := SPACE, OpenPreferences := PREFERENCES]

  /** One key, one action: `a` gets the chord, the other remappable holder of it loses it, and
      nothing else changes. */
  function PlainBind(m: PlainMap, a: DubAction, c: KeyChord): PlainMap {
    if !IsRemappable(a) then m
    else (map x | x in m && !Holds(m[x], a, c) :: m[x])[a := BindingOf(a, c)]
  }

  function PlainClear(m: PlainMap, a: DubAction): PlainMap {
    if !IsRemappable(a) then m else m - {a}
  }

  /** The store's overrides represent the plain map. */
  ghost predicate Represents(ov: Overrides, m: PlainMap) {
    forall a: DubAction :: Resolve(ov, a) == if a in m then Some(m[a]) else None
  }

  // ----- Sound profiles -----

  predicate SameKey(x: Binding, y: Binding) {
    x.match_.Code? && y.match_.Code? && x.match_ == y.match_
    && x.requiresCommand == y.requiresCommand
  }

  /** No two actions resolve to one physical key. */
  ghost predicate OneKeyOneAction(ov: Overrides) {
    forall a, b | Resolve(ov, a).Some? && Resolve(ov, b).Some?
                  && SameKey(Resolve(ov, a).value, Resolve(ov, b).value) :: a == b
  }

  /** What every edit keeps: ids as the app prints them, Preferences not overridden, one action
      per key. The empty profile is sound. Ids no version issued are carried along. */
  ghost predicate Sound(ov: Overrides) {
    && (forall id | id in ov :: IsPrinted(id))
    && Id(OpenPreferences) !in ov
    && OneKeyOneAction(ov)
  }

  lemma EmptyProfileIsSound()
    ensures Sound(map[]) && Represents(map[], PLAIN_DEFAULTS)
  {}

  // ----- The table holds exactly what the overrides resolve to -----

  lemma {:induction false} ExtraRowsMembers(ov: Overrides, ids: seq<string>, b: Binding)
    ensures b in ExtraRows(ov, ids) <==> exists id :: id in ids && b in ExtraRow(ov, id)
  {
    if ids == [] {
    } else {
      ExtraRowsMembers(ov, ids[1..], b);
      assert forall id :: id in ids <==> id == ids[0] || id in ids[1..];
    }
  }

  lemma FactoryActionsHaveDefaults()
    ensures HasDefault(Id(LoadSelection)) && HasDefault(Id(OpenPreferences))
  {
    hide Id;
    assert DEFAULTS[0].action == LoadSelection && DEFAULTS[1].action == OpenPreferences;
  }

  /** An action with a factory row has no other. */
  lemma {:induction false} ExtraRowsAreNoFactoryRows(ov: Overrides, ids: seq<string>, b: Binding)
    requires (forall id | id in ov :: IsPrinted(id)) && b in ExtraRows(ov, ids)
    ensures b.action != LoadSelection && b.action != OpenPreferences
  {
    if ids == [] {
    } else {
      hide Id, ParseId, HasDefault;
      FactoryActionsHaveDefaults();
      if b !in ExtraRow(ov, ids[0]) { ExtraRowsAreNoFactoryRows(ov, ids[1..], b); }
    }
  }

  lemma DefaultRowsMembers(ov: Overrides, b: Binding)
    ensures DefaultRows(ov, DEFAULTS) == DefaultRow(ov, SPACE) + DefaultRow(ov, PREFERENCES)
    ensures HasDefault(Id(b.action)) <==> b.action == LoadSelection || b.action == OpenPreferences
  {
    assert DEFAULTS[1..] == [PREFERENCES] && DEFAULTS[2..] == [];
    assert DefaultRows(ov, DEFAULTS[1..]) == DefaultRow(ov, PREFERENCES) + DefaultRows(ov, []);
    assert Id(DEFAULTS[0].action) == Id(LoadSelection);
    assert Id(DEFAULTS[1].action) == Id(OpenPreferences);
    if HasDefault(Id(b.action)) {
      var i :| 0 <= i < |DEFAULTS| && Id(DEFAULTS[i].action) == Id(b.action);
      IdsAreInjective(DEFAULTS[i].action, b.action);
    }
  }

  lemma TableMembers(ov: Overrides, ids: seq<string>, b: Binding)
    requires Enumerates(ids, ov) && forall id | id in ov :: IsPrinted(id)
    ensures b in Table(ov, ids) <==> Resolve(ov, b.action) == Some(b)
  {
    hide Id, ParseId, DefaultRows, ExtraRows;
    DefaultRowsMembers(ov, b);
    ExtraRowsMembers(ov, ids, b);
    IdRoundTrip(b.action);
    if b in ExtraRows(ov, ids) {
      var id :| id in ids && b in ExtraRow(ov, id);
      assert Id(b.action) == id;
    }
    if Resolve(ov, b.action) == Some(b) && Id(b.action) in ov && !HasDefault(Id(b.action)) {
      assert Id(b.action) in ids && b in ExtraRow(ov, Id(b.action));
    }
  }

  lemma {:induction false} ByActionMembers(table: seq<Binding>, a: DubAction)
    ensures a in ByAction(table) <==> exists b :: b in table && b.action == a
    ensures a in ByAction(table) ==> ByAction(table)[a] in table && ByAction(table)[a].action == a
  {
    if table == [] {
    } else {
      ByActionMembers(table[1..], a);
      assert forall b :: b in table <==> b == table[0] || b in table[1..];
      assert table[0] in table;
    }
  }

  /** The dictionary behind the printed caps is the resolution, for any table order. */
  lemma ByActionIsResolution(ov: Overrides, ids: seq<string>)
    requires Enumerates(ids, ov) && forall id | id in ov :: IsPrinted(id)
    ensures Represents(ov, ByAction(Table(ov, ids)))
  {
    var table := Table(ov, ids);
    forall a: DubAction
      ensures Resolve(ov, a) == if a in ByAction(table) then Some(ByAction(table)[a]) else None
    {
      ByActionMembers(table, a);
      if a in ByAction(table) {
        TableMembers(ov, ids, ByAction(table)[a]);
      } else if Resolve(ov, a).Some? {
        assert Resolve(ov, a).value.action == a;
        TableMembers(ov, ids, Resolve(ov, a).value);
      }
    }
  }

  // ----- Refinement of the edits -----

  /** A robbed id is the id of a row that holds the chord. */
  lemma RobbedRow(table: seq<Binding>, a: DubAction, c: KeyChord, x: DubAction) returns (b: Binding)
    requires Id(x) in Robbed(table, a, c)
    ensures b in table && b.action == x && Holds(b, a, c)
  {
    hide Id, Holds;
    var i :| 0 <= i < |table| && Holds(table[i], a, c) && Id(table[i].action) == Id(x);
    IdsAreInjective(table[i].action, x);
    b := table[i];
  }

  lemma RowIsRobbed(table: seq<Binding>, a: DubAction, c: KeyChord, b: Binding)
    requires b in table && Holds(b, a, c)
    ensures Id(b.action) in Robbed(table, a, c)
  {
    var i :| 0 <= i < |table| && table[i] == b;
  }

  lemma RobbedAre(ov: Overrides, ids: seq<string>, a: DubAction, c: KeyChord, x: DubAction)
    requires Enumerates(ids, ov) && forall id | id in ov :: IsPrinted(id)
    ensures Id(x) in Robbed(Table(ov, ids), a, c)
       <==> Resolve(ov, x).Some? && Holds(Resolve(ov, x).value, a, c)
  {
    hide Id, Table, Holds, Robbed;
    var table := Table(ov, ids);
    if Id(x) in Robbed(table, a, c) {
      var b := RobbedRow(table, a, c, x);
      TableMembers(ov, ids, b);
    }
    if Resolve(ov, x).Some? && Holds(Resolve(ov, x).value, a, c) {
      var b := Resolve(ov, x).value;
      TableMembers(ov, ids, b);
      RowIsRobbed(table, a, c, b);
    }
  }

  lemma BindLookup(ov: Overrides, table: seq<Binding>, a: DubAction, c: KeyChord, id: string)
    requires IsRemappable(a)
    ensures var n := BindOverrides(ov, table, a, c);
            && (id in n <==> id == Id(a) || id in Robbed(table, a, c) || id in ov)
            && (id in n ==> n[id] == if id == Id(a) then Some(c)
                                     else if id in Robbed(table, a, c) then None else ov[id])
  {}

  /** What a bind does to each action. */
  lemma BindResolves(ov: Overrides, ids: seq<string>, a: DubAction, c: KeyChord, x: DubAction)
    requires Enumerates(ids, ov) && (forall id | id in ov :: IsPrinted(id)) && IsRemappable(a)
    ensures var n := BindOverrides(ov, Table(ov, ids), a, c);
            Resolve(n, x) == if x == a then Some(BindingOf(a, c))
                             else if Resolve(ov, x).Some? && Holds(Resolve(ov, x).value, a, c) then None
                             else Resolve(ov, x)
  {
    hide Id, Table, Holds, Robbed, BindOverrides;
    RobbedAre(ov, ids, a, c, x);
    BindLookup(ov, Table(ov, ids), a, c, Id(x));
    if Id(x) == Id(a) { IdsAreInjective(x, a); }
  }

  /** What a bound action's cap prints and what it answers to is the chord it was given. */
  lemma BoundCapPrintsItsChord(ov: Overrides, ids: seq<string>, a: DubAction, c: KeyChord)
    requires Enumerates(ids, ov) && (forall id | id in ov :: IsPrinted(id)) && a != OpenPreferences
    ensures var b := Resolve(BindOverrides(ov, Table(ov, ids), a, c), a);
            && b.Some? && b.value.action == a && b.value.legend == c.legend
            && b.value.match_ == Code(c.code) && b.value.requiresCommand == c.command
            && b.value.transport == Key && b.value.isLive
  {
    BindResolves(ov, ids, a, c, a);
  }

  lemma ResolvedActionIs(ov: Overrides, x: DubAction)
    requires Resolve(ov, x).Some?
    ensures Resolve(ov, x).value.action == x
  {
    hide Id;
  }

  /** The bound key is taken from an action exactly when that action is another, may be rebound, and
      would have answered to the chord: by its code, or by the letter the chord's cap prints. */
  lemma BindStealsExactly(ov: Overrides, ids: seq<string>, a: DubAction, c: KeyChord, x: DubAction)
    requires Enumerates(ids, ov) && (forall id | id in ov :: IsPrinted(id)) && a != OpenPreferences
    requires x != a && Resolve(ov, x).Some?
    ensures var (b, n) := (Resolve(ov, x).value, Resolve(BindOverrides(ov, Table(ov, ids), a, c), x));
            var answers := b.requiresCommand == c.command
                           && match b.match_
                              case Code(code) => code == c.code
                              case Character(glyph) => Fold(glyph) == Fold(c.legend);
            n == if x != OpenPreferences && b.transport == Key && answers then None else Some(b)
  {
    hide Table, BindOverrides, Id;
    BindResolves(ov, ids, a, c, x);
    ResolvedActionIs(ov, x);
  }

  lemma BindRepresents(ov: Overrides, ids: seq<string>, m: PlainMap, a: DubAction, c: KeyChord)
    requires Enumerates(ids, ov) && (forall id | id in ov :: IsPrinted(id))
    requires Represents(ov, m) && IsRemappable(a)
    ensures Represents(BindOverrides(ov, Table(ov, ids), a, c), PlainBind(m, a, c))
  {
    hide Id, Table, Holds, Robbed, BindOverrides;
    var n := BindOverrides(ov, Table(ov, ids), a, c);
    forall x: DubAction
      ensures Resolve(n, x) == if x in PlainBind(m, a, c) then Some(PlainBind(m, a, c)[x]) else None
    {
      BindResolves(ov, ids, a, c, x);
      assert Resolve(ov, x) == if x in m then Some(m[x]) else None;
      hide Resolve;
    }
  }

  lemma PrintedAndOther(a: DubAction)
    requires IsRemappable(a)
    ensures IsPrinted(Id(a)) && Id(a) != Id(OpenPreferences)
  {
    hide Id, ParseId;
    IdRoundTrip(a);
    if Id(a) == Id(OpenPreferences) { IdsAreInjective(a, OpenPreferences); }
  }

  lemma BindKeepsIds(ov: Overrides, table: seq<Binding>, a: DubAction, c: KeyChord)
    requires IsRemappable(a) && (forall id | id in ov :: IsPrinted(id)) && Id(OpenPreferences) !in ov
    ensures var n := BindOverrides(ov, table, a, c);
            (forall id | id in n :: IsPrinted(id)) && Id(OpenPreferences) !in n
  {
    hide Id, ParseId, Matches;
    forall id | id in BindOverrides(ov, table, a, c) ensures IsPrinted(id) && id != Id(OpenPreferences) {
      BindLookup(ov, table, a, c, id);
      if id in Robbed(table, a, c) {
        var i :| 0 <= i < |table| && Holds(table[i], a, c) && Id(table[i].action) == id;
        PrintedAndOther(table[i].action);
      }
      PrintedAndOther(a);
    }
  }

  lemma BindKeepsKeysApart(ov: Overrides, ids: seq<string>, a: DubAction, c: KeyChord)
    requires Sound(ov) && Enumerates(ids, ov) && IsRemappable(a)
    ensures OneKeyOneAction(BindOverrides(ov, Table(ov, ids), a, c))
  {
    hide Id, Table, Robbed, BindOverrides, Fold;
    var n := BindOverrides(ov, Table(ov, ids), a, c);
    forall x, y | Resolve(n, x).Some? && Resolve(n, y).Some?
                  && SameKey(Resolve(n, x).value, Resolve(n, y).value)
      ensures x == y
    {
      BindResolves(ov, ids, a, c, x);
      BindResolves(ov, ids, a, c, y);
    }
  }

  /** A bind refines the plain bind, and keeps the profile sound. */
  lemma BindRefines(ov: Overrides, ids: seq<string>, m: PlainMap, a: DubAction, c: KeyChord)
    requires Sound(ov) && Enumerates(ids, ov) && Represents(ov, m)
    ensures var n := BindOverrides(ov, Table(ov, ids), a, c);
            Sound(n) && Represents(n, PlainBind(m, a, c))
  {
    hide Id, Table, OneKeyOneAction, Represents;
    if IsRemappable(a) {
      hide BindOverrides, PlainBind;
      BindRepresents(ov, ids, m, a, c);
      BindKeepsIds(ov, Table(ov, ids), a, c);
      BindKeepsKeysApart(ov, ids, a, c);
    }
  }

  lemma ClearRefines(ov: Overrides, m: PlainMap, a: DubAction)
    requires Sound(ov) && Represents(ov, m)
    ensures Sound(ClearOverrides(ov, a)) && Represents(ClearOverrides(ov, a), PlainClear(m, a))
  {
    if IsRemappable(a) {
      var n := ClearOverrides(ov, a);
      IdRoundTrip(a);
      forall x: DubAction
        ensures Resolve(n, x) == if x == a then None else Resolve(ov, x)
      {
        if x != a && Id(x) == Id(a) { IdsAreInjective(x, a); }
      }
      if Id(OpenPreferences) == Id(a) { IdsAreInjective(OpenPreferences, a); }
    }
  }

  // ----- Runs -----

  datatype Edit = Bind(action: DubAction, chord: KeyChord) | Clear(action: DubAction) | Reset | Relaunch

  /** One edit, the table having been built in the order `ids`. A relaunch reads back what was
      persisted. */
  function Apply(ov: Overrides, ids: seq<string>, e: Edit): Overrides {
    match e
    case Bind(a, c) => BindOverrides(ov, Table(ov, ids), a, c)
    case Clear(a) => ClearOverrides(ov, a)
    case Reset => map[]
    case Relaunch => ov
  }

  function PlainApply(m: PlainMap, e: Edit): PlainMap {
    match e
    case Bind(a, c) => PlainBind(m, a, c)
    case Clear(a) => PlainClear(m, a)
    case Reset => PLAIN_DEFAULTS
    case Relaunch => m
  }

  /** `after` is reachable from `before` through the edits, whatever order each table took. */
  ghost predicate Reaches(before: Overrides, edits: seq<Edit>, after: Overrides)
    decreases |edits|
  {
    if edits == [] then before == after
    else exists ids :: Enumerates(ids, before) && Reaches(Apply(before, ids, edits[0]), edits[1..], after)
  }

  function PlainRun(m: PlainMap, edits: seq<Edit>): PlainMap
    decreases |edits|
  {
    if edits == [] then m else PlainRun(PlainApply(m, edits[0]), edits[1..])
  }

  /** Over every run of edits and relaunches from a sound profile, the sparse store behaves as
      the plain one-key-one-action map. */
  lemma {:induction false} StoreRefinesPlainMap(before: Overrides, m: PlainMap, edits: seq<Edit>,
                                                after: Overrides)
    requires Sound(before) && Represents(before, m) && Reaches(before, edits, after)
    ensures Sound(after) && Represents(after, PlainRun(m, edits))
    decreases |edits|
  {
    if edits == [] {
    } else {
      var ids :| Enumerates(ids, before) && Reaches(Apply(before, ids, edits[0]), edits[1..], after);
      match edits[0] {
        case Bind(a, c) => BindRefines(before, ids, m, a, c);
        case Clear(a) => ClearRefines(before, m, a);
        case Reset => EmptyProfileIsSound();
        case Relaunch =>
      }
      StoreRefinesPlainMap(Apply(before, ids, edits[0]), PlainApply(m, edits[0]), edits[1..], after);
    }
  }

  /** Preferences keeps its default binding in every reachable store, and only a profile edited
      outside the app can move it. */
  lemma PreferencesNeverMoves(ov: Overrides)
    ensures Sound(ov) ==> Resolve(ov, OpenPreferences) == Some(PREFERENCES)
    ensures Resolve(ov, OpenPreferences) == Some(PREFERENCES) <==> Id(OpenPreferences) !in ov
  {}

  // ----- Dispatch -----

  lemma {:induction false} DispatchTakesAFiringRow(table: seq<Binding>, code: KeyCode,
                                                   character: string, command: bool)
    ensures match Dispatch(table, code, character, command)
            case Some(a) => exists b :: b in table && b.action == a && Fires(b, code, character, command)
            case None => forall b :: b in table ==> !Fires(b, code, character, command)
  {
    if table == [] {
    } else {
      DispatchTakesAFiringRow(table[1..], code, character, command);
      assert forall b :: b in table <==> b == table[0] || b in table[1..];
      assert table[0] in table;
    }
  }

  /** The comma with the command key: the one event a row other than a physical key claims. */
  predicate IsCommandComma(character: string, command: bool) {
    command && Fold(character) == Fold(",")
  }

  lemma FiringRowIsAKey(ov: Overrides, b: Binding, code: KeyCode, character: string, command: bool)
    requires Sound(ov) && Resolve(ov, b.action) == Some(b)
    requires Fires(b, code, character, command) && !IsCommandComma(character, command)
    ensures b.match_ == Code(code) && b.requiresCommand == command
  {}

  /** Command-comma opens Preferences if and only if loading the selection was not itself put on
      that key: its row comes first, and binding it there robs nothing. */
  lemma CommandCommaExactly(ov: Overrides, ids: seq<string>, code: KeyCode, character: string)
    requires Sound(ov) && Enumerates(ids, ov) && IsCommandComma(character, true)
    ensures var load := Resolve(ov, LoadSelection);
            Dispatch(Table(ov, ids), code, character, true) == Some(OpenPreferences)
            <==> !(load.Some? && load.value.match_ == Code(code) && load.value.requiresCommand)
  {
    hide Id, ParseId;
    DefaultRowsMembers(ov, SPACE);
    var load := DefaultRow(ov, SPACE);
    var rest := [PREFERENCES] + ExtraRows(ov, ids);
    if Id(LoadSelection) == Id(OpenPreferences) { IdsAreInjective(LoadSelection, OpenPreferences); }
    assert DefaultRow(ov, PREFERENCES) == [PREFERENCES];
    assert Table(ov, ids) == load + rest;
    assert Dispatch(rest, code, character, true) == Some(OpenPreferences);
    if load != [] {
      assert (load + rest)[0] == load[0] && (load + rest)[1..] == rest;
    } else {
      assert load + rest == rest;
    }
  }

  /** Caps and keys agree. For every event but command-comma, the dispatcher returns an action
      exactly when the binding its cap prints is that key: the table's order never matters. */
  lemma DispatchAgreesWithCaps(ov: Overrides, ids: seq<string>, code: KeyCode, character: string,
                               command: bool, a: DubAction)
    requires Sound(ov) && Enumerates(ids, ov) && !IsCommandComma(character, command)
    ensures Dispatch(Table(ov, ids), code, character, command) == Some(a)
       <==> a in ByAction(Table(ov, ids))
            && ByAction(Table(ov, ids))[a].match_ == Code(code)
            && ByAction(Table(ov, ids))[a].requiresCommand == command
  {
    hide Id, Table, ByAction, Dispatch, Fold;
    var table := Table(ov, ids);
    ByActionIsResolution(ov, ids);
    DispatchTakesAFiringRow(table, code, character, command);
    var hit := Dispatch(table, code, character, command);
    assert Resolve(ov, a) == if a in ByAction(table) then Some(ByAction(table)[a]) else None;
    if hit.Some? {
      var b :| b in table && b.action == hit.value && Fires(b, code, character, command);
      TableMembers(ov, ids, b);
      FiringRowIsAKey(ov, b, code, character, command);
    }
    if a in ByAction(table) && ByAction(table)[a].match_ == Code(code)
       && ByAction(table)[a].requiresCommand == command {
      var row := ByAction(table)[a];
      assert Resolve(ov, a) == Some(row) && row.action == a;
      TableMembers(ov, ids, row);
      assert Fires(row, code, character, command);
    }
  }

  /** One edit away from the factory map, command-comma loads the selection instead. */
  lemma PreferencesCanBeShadowed()
    ensures var chord := KeyChord(43, true, "\U{2318},");
            var ov := BindOverrides(map[], Table(map[], []), LoadSelection, chord);
            && Sound(ov)
            && Dispatch(Table(ov, [Id(LoadSelection)]), 43, ",", true) != Some(OpenPreferences)
  {
    var chord := KeyChord(43, true, "\U{2318},");
    EmptyProfileIsSound();
    BindRefines(map[], [], PLAIN_DEFAULTS, LoadSelection, chord);
    var ov := BindOverrides(map[], Table(map[], []), LoadSelection, chord);
    BindResolves(map[], [], LoadSelection, chord, LoadSelection);
    forall id ensures id in [Id(LoadSelection)] <==> id in ov {
      DefaultRowsMembers(map[], SPACE);
      var table := Table(map[], []);
      if id in Robbed(table, LoadSelection, chord) {
        var i :| 0 <= i < |table| && Holds(table[i], LoadSelection, chord);
        TableMembers(map[], [], table[i]);
      }
    }
    CommandCommaExactly(ov, [Id(LoadSelection)], 43, ",");
  }

  // ----- The order of the extra rows -----

  /** `a` sorts no later than `b`. */
  predicate Before(a: string, b: string) {
    a == [] || (b != [] && (a[0] < b[0] || (a[0] == b[0] && Before(a[1..], b[1..]))))
  }

  predicate Ordered(ids: seq<string>) {
    forall i, j :: 0 <= i < j < |ids| ==> Before(ids[i], ids[j])
  }

  lemma {:induction false} BeforeIsTotal(a: string, b: string)
    ensures Before(a, b) || Before(b, a)
  {
    if a == [] || b == [] {
    } else {
      BeforeIsTotal(a[1..], b[1..]);
    }
  }

  lemma {:induction false} BeforeIsTransitive(a: string, b: string, c: string)
    requires Before(a, b) && Before(b, c)
    ensures Before(a, c)
  {
    if a == [] {
    } else if a[0] == b[0] == c[0] {
      BeforeIsTransitive(a[1..], b[1..], c[1..]);
    }
  }

  lemma {:induction false} LeastId(ids: set<string>) returns (least: string)
    requires ids != {}
    ensures least in ids && forall id :: id in ids ==> Before(least, id)
  {
    var one :| one in ids;
    BeforeIsTotal(one, one);
    var rest := ids - {one};
    assert forall id :: id in ids <==> id == one || id in rest;
    if rest == {} {
      least := one;
    } else {
      least := LeastId(rest);
      BeforeIsTotal(one, least);
      if Before(one, least) {
        forall id | id in rest ensures Before(one, id) { BeforeIsTransitive(one, least, id); }
        least := one;
      }
    }
  }

  // ----- The store -----

  /** Swift's wrapping `Int` counter. */
  function NextRevision(r: int): int {
    if r == 0x7FFF_FFFF_FFFF_FFFF then -0x8000_0000_0000_0000 else r + 1
  }

  /** Every edit moves the revision, one on, round the 64 bits. */
  lemma RevisionMoves(r: int)
    requires -0x8000_0000_0000_0000 <= r <= 0x7FFF_FFFF_FFFF_FFFF
    ensures var n := NextRevision(r);
            && n != r && -0x8000_0000_0000_0000 <= n <= 0x7FFF_FFFF_FFFF_FFFF
            && (n - r == 1 || n - r == 1 - 0x1_0000_0000_0000_0000)
  {
  }

  lemma {:induction false} DefaultRowsAppend(ov: Overrides, defaults: seq<Binding>, i: nat)
    requires i < |defaults|
    ensures DefaultRows(ov, defaults[..i + 1])
         == DefaultRows(ov, defaults[..i]) + DefaultRow(ov, defaults[i])
  {
    if i > 0 {
      DefaultRowsAppend(ov, defaults[1..], i - 1);
      assert defaults[1..][..i - 1] == defaults[..i][1..];
      assert defaults[1..][..i] == defaults[..i + 1][1..];
    } else {
      assert defaults[..1][1..] == [] && defaults[..0] == [];
    }
  }

  lemma {:induction false} ExtraRowsAppend(ov: Overrides, ids: seq<string>, id: string)
    ensures ExtraRows(ov, ids + [id]) == ExtraRows(ov, ids) + ExtraRow(ov, id)
  {
    if ids == [] {
      assert [id][1..] == [] && [] + [id] == [id];
    } else {
      assert (ids + [id])[1..] == ids[1..] + [id];
      ExtraRowsAppend(ov, ids[1..], id);
    }
  }

  lemma RepresentsIsUnique(ov: Overrides, m: PlainMap, n: PlainMap)
    requires Represents(ov, m) && Represents(ov, n)
    ensures m == n
  {
    forall a: DubAction ensures a in m <==> a in n ensures a in m && a in n ==> m[a] == n[a] {
      assert Resolve(ov, a) == if a in m then Some(m[a]) else None;
      assert Resolve(ov, a) == if a in n then Some(n[a]) else None;
    }
  }

  /** The printed caps before and after a bind, whatever order the two tables took. */
  lemma BindMovesOneCap(ov: Overrides, ids: seq<string>, a: DubAction, c: KeyChord,
                        later: seq<string>)
    requires Sound(ov) && Enumerates(ids, ov)
    requires Enumerates(later, BindOverrides(ov, Table(ov, ids), a, c))
    ensures var n := BindOverrides(ov, Table(ov, ids), a, c);
            Sound(n) && ByAction(Table(n, later)) == PlainBind(ByAction(Table(ov, ids)), a, c)
  {
    var caps := ByAction(Table(ov, ids));
    var n := BindOverrides(ov, Table(ov, ids), a, c);
    ByActionIsResolution(ov, ids);
    BindRefines(ov, ids, caps, a, c);
    ByActionIsResolution(n, later);
    RepresentsIsUnique(n, ByAction(Table(n, later)), PlainBind(caps, a, c));
  }

  lemma RobbedAppend(table: seq<Binding>, i: nat, a: DubAction, c: KeyChord)
    requires i < |table|
    ensures Robbed(table[..i + 1], a, c)
         == Robbed(table[..i], a, c) + (if Holds(table[i], a, c) then {Id(table[i].action)} else {})
  {
    hide Id, Holds;
    var (small, big) := (table[..i], table[..i + 1]);
    assert big[i] == table[i];
    forall id | id in Robbed(big, a, c)
      ensures id in Robbed(small, a, c) || (Holds(table[i], a, c) && id == Id(table[i].action))
    {
      var k :| 0 <= k < |big| && Holds(big[k], a, c) && Id(big[k].action) == id;
      if k < i { assert small[k] == big[k]; }
    }
    forall id | id in Robbed(small, a, c) ensures id in Robbed(big, a, c) {
      var k :| 0 <= k < |small| && Holds(small[k], a, c) && Id(small[k].action) == id;
      assert big[k] == small[k];
    }
  }

  lemma RobOneMore(ov: Overrides, table: seq<Binding>, i: nat, a: DubAction, c: KeyChord)
    requires i < |table|
    ensures var before := Unbind(ov, Robbed(table[..i], a, c));
            Unbind(ov, Robbed(table[..i + 1], a, c))
            == if Holds(table[i], a, c) then before[Id(table[i].action) := None] else before
  {
    hide Id, Holds, Robbed;
    RobbedAppend(table, i, a, c);
  }

  lemma ClearRemovesOneCap(ov: Overrides, ids: seq<string>, a: DubAction, later: seq<string>)
    requires Sound(ov) && Enumerates(ids, ov) && Enumerates(later, ClearOverrides(ov, a))
    ensures var n := ClearOverrides(ov, a);
            Sound(n) && ByAction(Table(n, later)) == PlainClear(ByAction(Table(ov, ids)), a)
  {
    var caps := ByAction(Table(ov, ids));
    var n := ClearOverrides(ov, a);
    ByActionIsResolution(ov, ids);
    ClearRefines(ov, caps, a);
    ByActionIsResolution(n, later);
    RepresentsIsUnique(n, ByAction(Table(n, later)), PlainClear(caps, a));
  }

  /** The store, its resolved table rebuilt on every change of the overrides. `profile` is what
      is persisted, as the codec reads it back. */
  class DubKeymapStore {
    var overrides: Overrides
    var resolved: seq<Binding>
    var resolvedByAction: map<DubAction, Binding>
    var revision: int
    var profile: Option<Overrides>
    ghost var order: seq<string>

    ghost predicate Valid()
      reads this
    {
      && Enumerates(order, overrides) && Ordered(order)
      && resolved == Table(overrides, order)
      && resolvedByAction == ByAction(resolved)
      && overrides == (if profile.Some? then profile.value else map[])
    }

    constructor (stored: Option<Overrides>)
      ensures Valid() && profile == stored && revision == 0
    {
      profile := stored;
      overrides := if stored.Some? then stored.value else map[];
      resolved, resolvedByAction, revision, order := [], map[], 0, [];
      new;
      Rebuild();
    }

    method Rebuild()
      modifies this`resolved, this`resolvedByAction, this`order
      ensures Enumerates(order, overrides) && Ordered(order)
      ensures resolved == Table(overrides, order) && resolvedByAction == ByAction(resolved)
    {
      var table := DefaultsUnder(overrides, DEFAULTS);
      ghost var ids;
      table, ids := AppendExtras(overrides, table);
      resolved, resolvedByAction, order := table, ByAction(table), ids;
    }

    static method DefaultsUnder(current: Overrides, defaults: seq<Binding>)
      returns (table: seq<Binding>)
      ensures table == DefaultRows(current, defaults)
    {
      table := [];
      for i := 0 to |defaults|
        invariant table == DefaultRows(current, defaults[..i])
      {
        var binding := defaults[i];
        DefaultRowsAppend(current, defaults, i);
        if Id(binding.action) !in current {
          table := table + [binding];
        } else if current[Id(binding.action)].Some? {
          table := table + [BindingOf(binding.action, current[Id(binding.action)].value)];
        }
      }
      assert defaults[..|defaults|] == defaults;
    }

    static method AppendExtras(current: Overrides, rows: seq<Binding>)
      returns (table: seq<Binding>, ghost ids: seq<string>)
      ensures Enumerates(ids, current) && Ordered(ids) && table == rows + ExtraRows(current, ids)
    {
      table, ids := rows, [];
      var left := current.Keys;
      while left != {}
        invariant left <= current.Keys
        invariant forall id :: id in ids <==> id in current && id !in left
        invariant Ordered(ids) && forall done, id :: done in ids && id in left ==> Before(done, id)
        invariant table == rows + ExtraRows(current, ids)
        decreases left
      {
        ghost var least := LeastId(left);
        var id :| id in left && forall other :: other in left ==> Before(id, other);
        left := left - {id};
        ExtraRowsAppend(current, ids, id);
        ids := ids + [id];
        if !HasDefault(id) && current[id].Some? && ParseId(id).Some? {
          table := table + [BindingOf(ParseId(id).value, current[id].value)];
        }
      }
    }

    method SetOverrides(next: Overrides)
      modifies this
      ensures Valid() && overrides == next && revision == NextRevision(old(revision))
      ensures profile == if next == map[] then None else Some(next)
    {
      overrides := next;
      Rebuild();
      revision := NextRevision(revision);
      profile := if next == map[] then None else Some(next);
    }

    /** Bind, taking the chord from whatever remappable action holds it. From a sound profile the
        printed caps change exactly as the plain map says. */
    method Bind(action: DubAction, chord: KeyChord)
      requires Valid()
      modifies this
      ensures Valid()
      ensures overrides == BindOverrides(old(overrides), old(resolved), action, chord)
      ensures old(Sound(overrides)) ==>
                Sound(overrides)
                && resolvedByAction == PlainBind(old(resolvedByAction), action, chord)
      ensures revision == if IsRemappable(action) then NextRevision(old(revision)) else old(revision)
    {
      ghost var (was, ids) := (overrides, order);
      if !IsRemappable(action) { return; }
      var next := Reassigned(overrides, resolved, action, chord);
      SetOverrides(next);
      if Sound(was) {
        BindMovesOneCap(was, ids, action, chord, order);
      }
    }

    static method Reassigned(current: Overrides, rows: seq<Binding>, action: DubAction,
                             chord: KeyChord) returns (next: Overrides)
      requires IsRemappable(action)
      ensures next == BindOverrides(current, rows, action, chord)
    {
      next := current;
      assert Robbed(rows[..0], action, chord) == {};
      for i := 0 to |rows|
        invariant next == Unbind(current, Robbed(rows[..i], action, chord))
      {
        var holder := rows[i];
        RobOneMore(current, rows, i, action, chord);
        if Holds(holder, action, chord) {
          next := next[Id(holder.action) := None];
        }
      }
      assert rows[..|rows|] == rows;
      next := next[Id(action) := Some(chord)];
    }

    method ClearBinding(action: DubAction)
      requires Valid()
      modifies this
      ensures Valid() && overrides == ClearOverrides(old(overrides), action)
      ensures old(Sound(overrides)) ==>
                Sound(overrides) && resolvedByAction == PlainClear(old(resolvedByAction), action)
    {
      ghost var (was, ids) := (overrides, order);
      if !IsRemappable(action) { return; }
      SetOverrides(overrides[Id(action) := None]);
      if Sound(was) {
        ClearRemovesOneCap(was, ids, action, order);
      }
    }

    method ResetBindings()
      requires Valid()
      modifies this
      ensures Valid() && overrides == map[] && resolvedByAction == PLAIN_DEFAULTS && profile == None
    {
      SetOverrides(map[]);
      EmptyProfileIsSound();
      ByActionIsResolution(overrides, order);
      RepresentsIsUnique(overrides, resolvedByAction, PLAIN_DEFAULTS);
    }
  }
}
