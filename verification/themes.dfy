/**
 * The theme registry: four named color schemes, the current theme, and its
 * persistence under the `terminal_theme` key of the browser's local storage
 * (modelled as a map).
 */
module Themes {
  import opened Wrappers

  datatype Theme = Theme(
    name: string,
    displayName: string,
    description: string,
    backgroundColor: string,
    foregroundColor: string,
    accentColor: string,
    secondaryColor: string,
    fontFamily: string,
    headerColor: string,
    borderColor: string,
    glowColor: string)

  const StorageKey: string := "terminal_theme"

  const MatrixTheme: Theme := Theme(
    "matrix", "Matrix", "Classic green on black terminal style",
    "#000000", "#00cc00", "#008800", "#002200", "\"Courier New\", monospace",
    "rgba(0, 15, 0, 0.9)", "#00aa00", "rgba(0, 170, 0, 0.4)")

  const CyberpunkTheme: Theme := Theme(
    "cyberpunk", "Cyberpunk", "Neon blue and purple futuristic style",
    "#0a0a20", "#00cccc", "#cc00cc", "#220033", "\"Courier New\", monospace",
    "rgba(15, 15, 40, 0.9)", "#00aaaa", "rgba(0, 170, 170, 0.4)")

  const RetroTheme: Theme := Theme(
    "retro", "Retro", "Vintage amber on black terminal",
    "#121212", "#e09000", "#c05000", "#281800", "\"Courier New\", monospace",
    "rgba(25, 15, 0, 0.9)", "#a06000", "rgba(224, 144, 0, 0.4)")

  const HackerTheme: Theme := Theme(
    "hacker", "Hacker", "White on black with red accents",
    "#0d0d0d", "#cccccc", "#cc0000", "#220000", "\"Courier New\", monospace",
    "rgba(20, 0, 0, 0.9)", "#880000", "rgba(204, 0, 0, 0.4)")

  /** `getThemes`: the registry's values in declaration order. */
  function GetThemes(): (r: seq<Theme>)
    ensures |r| == 4
    ensures r[0].name == "matrix" && r[1].name == "cyberpunk" && r[2].name == "retro" && r[3].name == "hacker"
  {
    [MatrixTheme, CyberpunkTheme, RetroTheme, HackerTheme]
  }

  predicate Registered(t: Theme) {
    t in GetThemes()
  }

  /** The registry's own entry for a key: the theme of that name, if one is registered. */
  function Lookup(name: string): (r: Option<Theme>)
    ensures forall i :: 0 <= i < 4 && GetThemes()[i].name == name ==> r == Some(GetThemes()[i])
    ensures r.None? ==> forall i :: 0 <= i < 4 ==> GetThemes()[i].name != name
    ensures r.Some? ==> Registered(r.value) && r.value.name == name
  {
    if name == "matrix" then Some(MatrixTheme)
    else if name == "cyberpunk" then Some(CyberpunkTheme)
    else if name == "retro" then Some(RetroTheme)
    else if name == "hacker" then Some(HackerTheme)
    else None
  }

  datatype ThemeState = ThemeState(current: Theme, storage: map<string, string>)

  /** Every reachable state has a registered theme as the current one. */
  predicate Valid(st: ThemeState) {
    Registered(st.current)
  }

  /**
   * `setTheme`: a registered name becomes current and is stored under the
   * theme key; any other name changes neither the theme nor the storage.
   */
  function SetTheme(st: ThemeState, name: string): (r: ThemeState)
    ensures Lookup(name).Some? ==> r.current == Lookup(name).value && r.current.name == name && r.storage == st.storage[StorageKey := name]
    ensures Lookup(name).None? ==> r == st
    ensures Valid(st) ==> Valid(r)
  {
    match Lookup(name)
    case Some(t) => ThemeState(t, st.storage[StorageKey := name])
    case None => st
  }

  /**
   * The constructor: start from `matrix`, then adopt the stored name when it
   * names a registered theme (through `setTheme`, which writes it back).
   */
  function Restore(storage: map<string, string>): (r: ThemeState)
    ensures Valid(r)
    ensures StorageKey in storage && Lookup(storage[StorageKey]).Some? ==> r.current.name == storage[StorageKey]
    ensures !(StorageKey in storage && Lookup(storage[StorageKey]).Some?) ==> r.current == MatrixTheme
    ensures r.storage == storage
  {
    var initial := ThemeState(MatrixTheme, storage);
    if StorageKey in storage && storage[StorageKey] != "" && Lookup(storage[StorageKey]).Some? then
      SetTheme(initial, storage[StorageKey])
    else initial
  }

  /** A theme that was set survives a reload: a fresh service restores it from storage. */
  lemma SetThemePersists(st: ThemeState, name: string)
    requires Lookup(name).Some?
    ensures Restore(SetTheme(st, name).storage).current == Lookup(name).value
  {
  }

  /** The current theme stays registered through any sequence of `setTheme` calls after start-up. */
  lemma {:induction false} AlwaysRegistered(storage: map<string, string>, names: seq<string>)
    ensures Valid(SetAll(Restore(storage), names))
    decreases |names|
  {
    if |names| > 0 {
      AlwaysRegistered(storage, names[..|names| - 1]);
    }
  }

  function SetAll(st: ThemeState, names: seq<string>): ThemeState
    decreases |names|
  {
    if |names| == 0 then st else SetTheme(SetAll(st, names[..|names| - 1]), names[|names| - 1])
  }

  // ---------------------------------------------------------------------
  // The constructor as written indexes the registry object with the stored
  // string. A plain object literal also answers for the names it inherits
  // from Object.prototype, and those values are truthy, so the guard admits
  // them.
  // ---------------------------------------------------------------------

  /** The property names every plain object inherits from Object.prototype. */
  const InheritedNames: set<string> := {
    "constructor", "__defineGetter__", "__defineSetter__", "hasOwnProperty",
    "__lookupGetter__", "__lookupSetter__", "isPrototypeOf", "propertyIsEnumerable",
    "toString", "valueOf", "__proto__", "toLocaleString"}

  /** What `this.themes[key]` evaluates to. */
  datatype PropertyValue = OwnTheme(theme: Theme) | InheritedMember(key: string) | Undefined

  function IndexRegistry(key: string): PropertyValue {
    match Lookup(key)
    case Some(t) => OwnTheme(t)
    case None => if key in InheritedNames then InheritedMember(key) else Undefined
  }

  /** The current-theme slot as the source can fill it. */
  datatype CurrentAsWritten = Adopted(theme: Theme) | Foreign(key: string)

  /** The constructor as written: any truthy property value passes the guard and becomes current. */
  function RestoreAsWritten(storage: map<string, string>): (r: CurrentAsWritten)
    ensures StorageKey !in storage ==> r == Adopted(MatrixTheme)
  {
    if StorageKey !in storage || storage[StorageKey] == "" then Adopted(MatrixTheme)
    else
      match IndexRegistry(storage[StorageKey])
      case OwnTheme(t) => Adopted(t)
      case InheritedMember(k) => Foreign(k)
      case Undefined => Adopted(MatrixTheme)
  }

  /** The service's state as the source can reach it: the current-theme slot and the storage. */
  datatype StateAsWritten = StateAsWritten(current: CurrentAsWritten, storage: map<string, string>)

  /** A corrected state seen in the as-written representation. */
  function AsWritten(st: ThemeState): StateAsWritten {
    StateAsWritten(Adopted(st.current), st.storage)
  }

  /**
   * `setTheme` as written: the same truthy property test as the constructor,
   * so an inherited member is made current and its name is stored.
   */
  function SetThemeAsWritten(st: StateAsWritten, name: string): (r: StateAsWritten)
    ensures Lookup(name).Some? ==> r == StateAsWritten(Adopted(Lookup(name).value), st.storage[StorageKey := name])
    ensures name in InheritedNames ==> r == StateAsWritten(Foreign(name), st.storage[StorageKey := name])
    ensures Lookup(name).None? && name !in InheritedNames ==> r == st
  {
    match IndexRegistry(name)
    case OwnTheme(t) => StateAsWritten(Adopted(t), st.storage[StorageKey := name])
    case InheritedMember(k) => StateAsWritten(Foreign(k), st.storage[StorageKey := name])
    case Undefined => st
  }

  /** Away from the inherited names, `setTheme` as written and the corrected one agree. */
  lemma SetThemeAgreesOffInherited(st: ThemeState, name: string)
    requires name !in InheritedNames
    ensures SetThemeAsWritten(AsWritten(st), name) == AsWritten(SetTheme(st, name))
  {
  }

  /** `setTheme("toString")` as written adopts the inherited function and stores the name; the corrected one changes nothing. */
  lemma SetThemeAsWrittenAdmitsInherited(st: ThemeState)
    ensures SetThemeAsWritten(AsWritten(st), "toString")
      == StateAsWritten(Foreign("toString"), st.storage[StorageKey := "toString"])
    ensures SetTheme(st, "toString") == st
  {
    assert Lookup("toString").None?;
  }

  /** The constructor as written hands every value its guard admits to `setTheme` as written. */
  lemma RestoreAsWrittenCallsSetTheme(storage: map<string, string>)
    requires StorageKey in storage && storage[StorageKey] != "" && !IndexRegistry(storage[StorageKey]).Undefined?
    ensures RestoreAsWritten(storage)
      == SetThemeAsWritten(StateAsWritten(Adopted(MatrixTheme), storage), storage[StorageKey]).current
  {
  }

  /** A stored value of "toString" makes the as-written constructor adopt something that is not a theme. */
  lemma RestoreAsWrittenAdmitsInherited()
    ensures RestoreAsWritten(map[StorageKey := "toString"]) == Foreign("toString")
    ensures Restore(map[StorageKey := "toString"]).current == MatrixTheme
  {
    assert Lookup("toString").None?;
  }
}
